/** The sessions of one bot over a backend that keeps the decryptors. Each session
    works through its own calls in order; calls of different sessions interleave
    one statement at a time. */
module DaveSession {
  import opened DaveStats

  /** The statements of `AddUser` and `RemoveUser` still to run. */
  datatype Phase = AtRest | InBackend(u: Id) | Remembering(u: Id) | Keeping(u: Id)
                 | Forgetting(u: Id) | Retiring(u: Id) | Leaving(u: Id)

  /** A frame whose sender was found known and which the backend has not seen yet. */
  datatype Transit = NoFrame | Checked(u: Id)

  /** `known` mirrors `backend`, the users the backend has a decryptor for. The
      receive goroutine's `frame` moves on its own, beside the calls. */
  datatype Session = Session(known: set<Id>, backend: set<Id>, phase: Phase, frame: Transit)

  function Remembered(s: Session, u: Id): Session {
    if u in s.known then s.(phase := AtRest) else s.(known := s.known + {u}, phase := Keeping(u))
  }

  function Forgotten(s: Session, u: Id): Session {
    if u !in s.known then s.(phase := Leaving(u)) else s.(known := s.known - {u}, phase := Retiring(u))
  }

  datatype Verdict = Dropped | PassedThrough | Delegated

  class CountingSession {
    const bot: Id
    const stats: Stats
    var known: set<Id>
    var backend: set<Id>

    constructor (bot: Id, stats: Stats)
      ensures this.bot == bot && this.stats == stats && known == {} && backend == {}
    {
      this.bot, this.stats := bot, stats;
      known, backend := {}, {};
    }

    method Remember(u: Id) returns (isNew: bool)
      modifies this`known
      ensures known == old(known) + {u} && isNew == (u !in old(known))
    {
      if u in known {
        return false;
      }
      known := known + {u};
      return true;
    }

    method Forget(u: Id) returns (held: bool)
      modifies this`known
      ensures known == old(known) - {u} && held == (u in old(known))
    {
      if u !in known {
        return false;
      }
      known := known - {u};
      return true;
    }

    /** A repeated add takes no second hold. */
    method AddUser(u: Id)
      requires stats.Valid()
      modifies this, stats`holders, stats`retiring
      ensures stats.Valid() && known == old(known) + {u} && backend == old(backend) + {u}
      ensures var before := old(Holds(stats.holders, stats.retiring));
              Holds(stats.holders, stats.retiring) == if u in old(known) then before else Holding(before, User(bot, u))
    {
      backend := backend + {u};
      var isNew := Remember(u);
      if isNew {
        stats.Keep(User(bot, u));
      }
    }

    method RemoveUser(u: Id)
      requires stats.Valid()
      modifies this, stats`holders, stats`retiring
      ensures stats.Valid() && known == old(known) - {u} && backend == old(backend) - {u}
      ensures var before := old(Holds(stats.holders, stats.retiring));
              Holds(stats.holders, stats.retiring) == if u in old(known) then Released(before, User(bot, u)) else before
    {
      var held := Forget(u);
      if held {
        stats.Retire(User(bot, u));
      }
      backend := backend - {u};
    }

    /** What is decided about a frame when its sender is looked up; the backend
        sees a delegated one only later. */
    method Decrypt(u: Id, ready: bool) returns (v: Verdict)
      ensures v == Delegated <==> u in known
      ensures v == Dropped <==> u !in known && ready
    {
      if u !in known {
        return if ready then Dropped else PassedThrough;
      }
      return Delegated;
    }
  }

  // ---------------------------------------------------------------------------
  // Every interleaving

  type Sid = nat

  datatype Sys = Sys(bot: Id, sessions: map<Sid, Session>, holds: Holds)

  datatype Event =
    | NewSession(x: Sid)
    | BeginAdd(x: Sid, u: Id)
    | BeginRemove(x: Sid, u: Id)
    | Proceed(x: Sid) // the session's next statement
    | Check(x: Sid, u: Id) // a frame's sender is looked up
    | Delegate(x: Sid) // the backend gets the frame
    | Collect         // a collection evicts whoever is retiring

  function Begun(s: Session, p: Phase): Session {
    if s.phase == AtRest then s.(phase := p) else s
  }

  function Stepped(s: Session): Session {
    match s.phase
    case AtRest => s
    case InBackend(u) => s.(backend := s.backend + {u}, phase := Remembering(u))
    case Remembering(u) => Remembered(s, u)
    case Keeping(u) => s.(phase := AtRest)
    case Forgetting(u) => Forgotten(s, u)
    case Retiring(u) => s.(phase := Leaving(u))
    case Leaving(u) => s.(backend := s.backend - {u}, phase := AtRest)
  }

  function HoldsAfter(h: Holds, bot: Id, p: Phase): Holds {
    match p
    case Keeping(u) => Holding(h, User(bot, u))
    case Retiring(u) => Released(h, User(bot, u))
    case _ => h
  }

  /** A frame of an unknown sender goes no further. */
  function OnCheck(s: Session, u: Id): Session {
    if s.frame == NoFrame && u in s.known then s.(frame := Checked(u)) else s
  }

  function Next(s: Sys, e: Event): Sys {
    match e
    case NewSession(x) => if x in s.sessions then s else s.(sessions := s.sessions[x := Session({}, {}, AtRest, NoFrame)])
    case BeginAdd(x, u) => if x in s.sessions then s.(sessions := s.sessions[x := Begun(s.sessions[x], InBackend(u))]) else s
    case BeginRemove(x, u) =>
      if x in s.sessions then s.(sessions := s.sessions[x := Begun(s.sessions[x], Forgetting(u))]) else s
    case Proceed(x) =>
      if x in s.sessions
      then s.(sessions := s.sessions[x := Stepped(s.sessions[x])], holds := HoldsAfter(s.holds, s.bot, s.sessions[x].phase))
      else s
    case Check(x, u) => if x in s.sessions then s.(sessions := s.sessions[x := OnCheck(s.sessions[x], u)]) else s
    case Delegate(x) => if x in s.sessions then s.(sessions := s.sessions[x := s.sessions[x].(frame := NoFrame)]) else s
    case Collect => s.(holds := s.holds.(retiring := {}))
  }

  function Run(s: Sys, es: seq<Event>): Sys {
    if es == [] then s else Next(Run(s, es[..|es| - 1]), es[|es| - 1])
  }

  function Start(bot: Id): Sys {
    Sys(bot, map[], Holds(map[], {}))
  }

  /** The session has a hold on `u` that it has taken and not released yet. */
  predicate Credit(s: Session, u: Id) {
    (u in s.known && s.phase != Keeping(u)) || s.phase == Retiring(u)
  }

  function Creditors(s: Sys, u: Id): set<Sid> {
    set x | x in s.sessions && Credit(s.sessions[x], u)
  }

  predicate Mirrored(s: Session) {
    && s.known <= s.backend
    && (s.phase.Remembering? ==> s.phase.u in s.backend)
    && (s.phase.Keeping? ==> s.phase.u in s.known)
    && (s.phase.Retiring? || s.phase.Leaving? ==> s.phase.u !in s.known)
  }

  predicate Balanced(s: Sys, u: Id) {
    var w := User(s.bot, u);
    && Get(s.holds.holders, w) == |Creditors(s, u)|
    && (w in s.holds.holders ==> s.holds.holders[w] > 0)
    && (w in s.holds.retiring ==> w !in s.holds.holders)
  }

  ghost predicate Inv(s: Sys) {
    && (forall x :: x in s.sessions ==> Mirrored(s.sessions[x]))
    && (forall u :: Balanced(s, u))
  }

  /** One session's step changes the creditors by at most itself. */
  lemma CreditorsChange(s: Sys, x: Sid, t: Session, u: Id)
    requires x in s.sessions
    ensures var (c, d) := (Creditors(s, u), Creditors(s.(sessions := s.sessions[x := t]), u));
            d == (if Credit(t, u) then c + {x} else c - {x})
            && |d| == |c| + (if Credit(t, u) then 1 else 0) - (if Credit(s.sessions[x], u) then 1 else 0)
  {
    var (c, d) := (Creditors(s, u), Creditors(s.(sessions := s.sessions[x := t]), u));
    assert d == if Credit(t, u) then c + {x} else c - {x};
  }

  lemma NewSessionBalanced(s: Sys, x: Sid, u: Id)
    requires Balanced(s, u) && x !in s.sessions
    ensures Balanced(Next(s, NewSession(x)), u)
  {
    assert Creditors(Next(s, NewSession(x)), u) == Creditors(s, u);
  }

  lemma BeginBalanced(s: Sys, x: Sid, p: Phase, u: Id)
    requires Balanced(s, u) && x in s.sessions && (p.InBackend? || p.Forgetting?)
    ensures Balanced(s.(sessions := s.sessions[x := Begun(s.sessions[x], p)]), u)
  {
    CreditorsChange(s, x, Begun(s.sessions[x], p), u);
  }

  lemma FrameBalanced(s: Sys, x: Sid, t: Session, u: Id)
    requires Balanced(s, u) && x in s.sessions && t == s.sessions[x].(frame := t.frame)
    ensures Balanced(s.(sessions := s.sessions[x := t]), u)
  {
    CreditorsChange(s, x, t, u);
  }

  lemma ProceedBalanced(s: Sys, x: Sid, u: Id)
    requires Balanced(s, u) && x in s.sessions && Mirrored(s.sessions[x])
    ensures Balanced(Next(s, Proceed(x)), u)
  {
    hide Creditors;
    CreditorsChange(s, x, Stepped(s.sessions[x]), u);
    SameCreditors(s, x, u);
  }

  lemma SameCreditors(s: Sys, x: Sid, u: Id)
    requires x in s.sessions
    ensures Creditors(Next(s, Proceed(x)), u) == Creditors(s.(sessions := s.sessions[x := Stepped(s.sessions[x])]), u)
  {
  }

  lemma NextKeepsInv(s: Sys, e: Event)
    requires Inv(s)
    ensures Inv(Next(s, e))
  {
    hide Balanced;
    forall u
      ensures Balanced(Next(s, e), u)
    {
      match e
      case NewSession(x) => if x !in s.sessions { NewSessionBalanced(s, x, u); }
      case BeginAdd(x, w) => if x in s.sessions { BeginBalanced(s, x, InBackend(w), u); }
      case BeginRemove(x, w) => if x in s.sessions { BeginBalanced(s, x, Forgetting(w), u); }
      case Proceed(x) => if x in s.sessions { ProceedBalanced(s, x, u); }
      case Check(x, w) => if x in s.sessions { FrameBalanced(s, x, OnCheck(s.sessions[x], w), u); }
      case Delegate(x) => if x in s.sessions { FrameBalanced(s, x, s.sessions[x].(frame := NoFrame), u); }
      case Collect => CollectBalanced(s, u);
    }
  }

  lemma CollectBalanced(s: Sys, u: Id)
    requires Balanced(s, u)
    ensures Balanced(Next(s, Collect), u)
  {
    assert Creditors(Next(s, Collect), u) == Creditors(s, u);
  }

  lemma {:induction false} RunKeepsInv(bot: Id, es: seq<Event>)
    ensures Inv(Run(Start(bot), es)) && Run(Start(bot), es).bot == bot
  {
    if es == [] {
      forall u
        ensures Balanced(Start(bot), u)
      {
        assert Creditors(Start(bot), u) == {};
      }
    } else {
      RunKeepsInv(bot, es[..|es| - 1]);
      NextKeepsInv(Run(Start(bot), es[..|es| - 1]), es[|es| - 1]);
    }
  }

  // ---------------------------------------------------------------------------
  // What every run satisfies

  function Knowing(s: Sys, u: Id): set<Sid> {
    set x | x in s.sessions && u in s.sessions[x].known
  }

  /** Between calls, a sender's holds are the sessions that know it, however adds
      and removes repeat. */
  lemma {:induction false} HoldersCountSessions(bot: Id, es: seq<Event>, u: Id)
    requires forall x :: x in Run(Start(bot), es).sessions ==> Run(Start(bot), es).sessions[x].phase == AtRest
    ensures Get(Run(Start(bot), es).holds.holders, User(bot, u)) == |Knowing(Run(Start(bot), es), u)|
  {
    RunKeepsInv(bot, es);
    var s := Run(Start(bot), es);
    assert Balanced(s, u) && Creditors(s, u) == Knowing(s, u);
  }

  /** A sender any session holds is never retiring, so its counters are not
      evicted. */
  lemma {:induction false} HeldIsNotRetiring(bot: Id, es: seq<Event>, x: Sid, u: Id)
    requires var s := Run(Start(bot), es);
             x in s.sessions && u in s.sessions[x].known && s.sessions[x].phase != Keeping(u)
    ensures User(bot, u) !in Run(Start(bot), es).holds.retiring
  {
    RunKeepsInv(bot, es);
    var s := Run(Start(bot), es);
    assert Balanced(s, u) && x in Creditors(s, u);
  }

  /** A release always has a hold to release. */
  lemma {:induction false} ReleasesAreHeld(bot: Id, es: seq<Event>, x: Sid, u: Id)
    requires var s := Run(Start(bot), es);
             x in s.sessions && s.sessions[x].phase == Retiring(u)
    ensures User(bot, u) in Run(Start(bot), es).holds.holders
  {
    RunKeepsInv(bot, es);
    var s := Run(Start(bot), es);
    assert Balanced(s, u) && x in Creditors(s, u);
  }

  /** At every step inside `AddUser` and `RemoveUser`, whoever a session knows has
      a decryptor in the backend. */
  lemma {:induction false} KnownHaveDecryptors(bot: Id, es: seq<Event>, x: Sid)
    requires x in Run(Start(bot), es).sessions
    ensures Run(Start(bot), es).sessions[x].known <= Run(Start(bot), es).sessions[x].backend
  {
    RunKeepsInv(bot, es);
    assert Mirrored(Run(Start(bot), es).sessions[x]);
  }

  // ---------------------------------------------------------------------------
  // A frame between its check and the backend

  /** The `n`th event runs statement `p` of session `x`. */
  predicate Executes(s: Sys, es: seq<Event>, n: nat, x: Sid, p: Phase)
    requires n < |es|
  {
    var t := Run(s, es[..n]);
    es[n] == Proceed(x) && x in t.sessions && t.sessions[x].phase == p
  }

  /** The session has taken the user out of the backend and not put it back. */
  ghost predicate RemovedDuring(s: Sys, es: seq<Event>, x: Sid, u: Id) {
    exists n :: 0 <= n < |es| && LastRemoval(s, es, n, x, u)
  }

  ghost predicate LastRemoval(s: Sys, es: seq<Event>, n: nat, x: Sid, u: Id)
    requires n < |es|
  {
    Executes(s, es, n, x, Leaving(u)) && forall m :: n < m < |es| ==> !Executes(s, es, m, x, InBackend(u))
  }

  lemma ExecutesBefore(s: Sys, es: seq<Event>, n: nat, x: Sid, p: Phase)
    requires n < |es| - 1
    ensures Executes(s, es, n, x, p) <==> Executes(s, es[..|es| - 1], n, x, p)
  {
    assert es[..|es| - 1][..n] == es[..n];
  }

  lemma SessionsStay(s: Sys, e: Event, x: Sid)
    requires x in s.sessions
    ensures x in Next(s, e).sessions
    ensures forall u :: u in Next(s, e).sessions[x].backend <==>
              if e == Proceed(x) && s.sessions[x].phase == InBackend(u) then true
              else if e == Proceed(x) && s.sessions[x].phase == Leaving(u) then false
              else u in s.sessions[x].backend
  {
  }

  /** The backend has lost a decryptor exactly if the session removed it and did
      not add it again. */
  lemma {:induction false} BackendLoses(s: Sys, es: seq<Event>, x: Sid, u: Id)
    requires x in s.sessions && u in s.sessions[x].backend
    ensures x in Run(s, es).sessions
    ensures u !in Run(s, es).sessions[x].backend <==> RemovedDuring(s, es, x, u)
  {
    hide Next;
    if es != [] {
      var (k, front) := (|es| - 1, es[..|es| - 1]);
      BackendLoses(s, front, x, u);
      SessionsStay(Run(s, front), es[k], x);
      forall n: nat, p | n < k
        ensures Executes(s, es, n, x, p) <==> Executes(s, front, n, x, p)
      {
        ExecutesBefore(s, es, n, x, p);
      }
      if Executes(s, es, k, x, Leaving(u)) {
        assert LastRemoval(s, es, k, x, u);
      } else if Executes(s, es, k, x, InBackend(u)) {
        assert forall n :: 0 <= n < k ==> !LastRemoval(s, es, n, x, u);
      } else {
        assert forall n :: 0 <= n < k ==> (LastRemoval(s, es, n, x, u) <==> LastRemoval(s, front, n, x, u));
        assert RemovedDuring(s, es, x, u) <==> RemovedDuring(s, front, x, u);
      }
    }
  }

  /** A frame reaches a backend without a decryptor for its sender exactly if,
      between its check and then, the session removed the sender and did not add
      it again. */
  lemma {:induction false} DelegatedInVain(bot: Id, es: seq<Event>, during: seq<Event>, x: Sid, u: Id)
    requires var s := Run(Start(bot), es);
             x in s.sessions && s.sessions[x].frame == NoFrame && u in s.sessions[x].known
    ensures var s := Next(Run(Start(bot), es), Check(x, u));
            && x in s.sessions && s.sessions[x].frame == Checked(u) && x in Run(s, during).sessions
            && (u !in Run(s, during).sessions[x].backend <==> RemovedDuring(s, during, x, u))
  {
    KnownHaveDecryptors(bot, es, x);
    BackendLoses(Next(Run(Start(bot), es), Check(x, u)), during, x, u);
  }

  lemma {:induction false} RunMore(s: Sys, es: seq<Event>, e: Event)
    ensures Run(s, es + [e]) == Next(Run(s, es), e)
  {
    assert (es + [e])[..|es|] == es;
  }

  /** It happens whenever a known user leaves while one of its frames is on the way. */
  lemma {:induction false} FrameInVain(bot: Id, es: seq<Event>, x: Sid, u: Id)
    requires var s := Run(Start(bot), es);
             x in s.sessions && s.sessions[x].frame == NoFrame && s.sessions[x].phase == AtRest && u in s.sessions[x].known
    ensures var s := Run(Start(bot), es + [Check(x, u)] + [BeginRemove(x, u)] + [Proceed(x)] + [Proceed(x)] + [Proceed(x)]);
            x in s.sessions && s.sessions[x].frame == Checked(u) && u !in s.sessions[x].backend
  {
    hide Run;
    var checked := es + [Check(x, u)];
    var leaving := checked + [BeginRemove(x, u)];
    RunMore(Start(bot), es, Check(x, u));
    RunMore(Start(bot), checked, BeginRemove(x, u));
    RunMore(Start(bot), leaving, Proceed(x));
    RunMore(Start(bot), leaving + [Proceed(x)], Proceed(x));
    RunMore(Start(bot), leaving + [Proceed(x)] + [Proceed(x)], Proceed(x));
  }

  lemma AddedIsKnown(bot: Id, x: Sid, u: Id)
    ensures var s := Run(Start(bot), [NewSession(x)] + [BeginAdd(x, u)] + [Proceed(x)] + [Proceed(x)] + [Proceed(x)]);
            x in s.sessions && s.sessions[x] == Session({u}, {u}, AtRest, NoFrame)
  {
    var es := [NewSession(x)];
    assert es[..0] == [] && Run(Start(bot), es) == Next(Run(Start(bot), []), NewSession(x));
    hide Run;
    RunMore(Start(bot), es, BeginAdd(x, u));
    RunMore(Start(bot), es + [BeginAdd(x, u)], Proceed(x));
    RunMore(Start(bot), es + [BeginAdd(x, u)] + [Proceed(x)], Proceed(x));
    RunMore(Start(bot), es + [BeginAdd(x, u)] + [Proceed(x)] + [Proceed(x)], Proceed(x));
  }
}
