/** Whole calls on a bot's decrypt sessions, one after the other, are runs of the
    state machine of `DaveSession`. */
module DaveDrive {
  import opened DaveStats
  import opened DaveSession

  datatype Call =
    | Open(x: Sid)
    | Add(x: Sid, u: Id)
    | Remove(x: Sid, u: Id)
    | Frame(x: Sid, u: Id, ready: bool)
    | Collection

  /** The statements a call runs; a statement too many does nothing. */
  function Expand(c: Call): seq<DaveSession.Event> {
    match c
    case Open(x) => [NewSession(x)]
    case Add(x, u) => [BeginAdd(x, u), Proceed(x), Proceed(x), Proceed(x)]
    case Remove(x, u) => [BeginRemove(x, u), Proceed(x), Proceed(x), Proceed(x)]
    case Frame(x, u, _) => [Check(x, u), Delegate(x)]
    case Collection => [Event.Collect]
  }

  function Trace(calls: seq<Call>): seq<DaveSession.Event> {
    if calls == [] then [] else Trace(calls[..|calls| - 1]) + Expand(calls[|calls| - 1])
  }

  function After(bot: Id, calls: seq<Call>): Sys {
    DaveSession.Run(Start(bot), Trace(calls))
  }

  lemma {:induction false} RunTwice(s: Sys, a: seq<DaveSession.Event>, b: seq<DaveSession.Event>)
    ensures DaveSession.Run(s, a + b) == DaveSession.Run(DaveSession.Run(s, a), b)
  {
    hide Next;
    if b == [] {
      assert a + b == a;
    } else {
      assert (a + b)[..|a + b| - 1] == a + b[..|b| - 1];
      RunTwice(s, a, b[..|b| - 1]);
    }
  }

  lemma {:induction false} RunFour(s: Sys, a: DaveSession.Event, b: DaveSession.Event, c: DaveSession.Event, d: DaveSession.Event)
    ensures DaveSession.Run(s, [a]) == Next(s, a)
    ensures DaveSession.Run(s, [a, b]) == Next(Next(s, a), b)
    ensures DaveSession.Run(s, [a, b, c, d]) == Next(Next(Next(Next(s, a), b), c), d)
  {
    hide DaveSession.Run, Next;
    assert DaveSession.Run(s, []) == s by { RunNone(s); }
    RunMore(s, [], a);
    RunMore(s, [a], b);
    RunMore(s, [a, b], c);
    RunMore(s, [a, b, c], d);
    assert [] + [a] == [a] && [a] + [b] == [a, b] && [a, b] + [c] == [a, b, c] && [a, b, c] + [d] == [a, b, c, d];
  }

  lemma {:induction false} RunNone(s: Sys)
    ensures DaveSession.Run(s, []) == s
  {
  }

  /** `s` with another session `x` and other holds. */
  function Put(s: Sys, x: Sid, t: DaveSession.Session, h: Holds): Sys {
    s.(sessions := s.sessions[x := t], holds := h)
  }

  predicate Resting(t: DaveSession.Session) {
    t.phase == AtRest && t.frame == NoFrame
  }

  lemma PutTwice(s: Sys, x: Sid, t: DaveSession.Session, h: Holds, t': DaveSession.Session, h': Holds)
    ensures Put(Put(s, x, t, h), x, t', h') == Put(s, x, t', h')
  {
    assert s.sessions[x := t][x := t'] == s.sessions[x := t'];
  }

  lemma Statement(s: Sys, x: Sid)
    requires x in s.sessions
    ensures Next(s, Proceed(x)) == Put(s, x, Stepped(s.sessions[x]), HoldsAfter(s.holds, s.bot, s.sessions[x].phase))
  {
  }

  /** An add: into the backend, then known, and held once if it was not known. */
  lemma {:induction false} AddRun(s: Sys, x: Sid, u: Id)
    requires x in s.sessions && Resting(s.sessions[x])
    ensures var t := s.sessions[x];
            DaveSession.Run(s, Expand(Add(x, u)))
            == Put(s, x, t.(known := t.known + {u}, backend := t.backend + {u}),
                   if u in t.known then s.holds else Holding(s.holds, User(s.bot, u)))
  {
    hide DaveSession.Run;
    RunFour(s, BeginAdd(x, u), Proceed(x), Proceed(x), Proceed(x));
    var t := s.sessions[x];
    var t1 := t.(phase := InBackend(u));
    var t2 := t.(backend := t.backend + {u}, phase := Remembering(u));
    var t3 := Remembered(t2, u);
    var s1, s2, s3 := Put(s, x, t1, s.holds), Put(s, x, t2, s.holds), Put(s, x, t3, s.holds);
    assert Next(s, BeginAdd(x, u)) == s1;
    PutTwice(s, x, t1, s.holds, t2, s.holds);
    PutTwice(s, x, t2, s.holds, t3, s.holds);
    Statement(s1, x);
    Statement(s2, x);
    Statement(s3, x);
    var h := HoldsAfter(s.holds, s.bot, t3.phase);
    PutTwice(s, x, t3, s.holds, Stepped(t3), h);
    assert u in t.known ==> t.known + {u} == t.known;
  }

  /** A removal: no longer known, released if it was, then out of the backend. */
  lemma {:induction false} RemoveRun(s: Sys, x: Sid, u: Id)
    requires x in s.sessions && Resting(s.sessions[x])
    ensures var t := s.sessions[x];
            DaveSession.Run(s, Expand(Remove(x, u)))
            == Put(s, x, t.(known := t.known - {u}, backend := t.backend - {u}),
                   if u in t.known then Released(s.holds, User(s.bot, u)) else s.holds)
  {
    hide DaveSession.Run, Released;
    RunFour(s, BeginRemove(x, u), Proceed(x), Proceed(x), Proceed(x));
    var t := s.sessions[x];
    var t1 := t.(phase := Phase.Forgetting(u));
    var t2 := Forgotten(t1, u);
    var t3 := Stepped(t2);
    var h := HoldsAfter(s.holds, s.bot, t2.phase);
    var s1, s2, s3 := Put(s, x, t1, s.holds), Put(s, x, t2, s.holds), Put(s, x, t3, h);
    assert Next(s, BeginRemove(x, u)) == s1;
    PutTwice(s, x, t1, s.holds, t2, s.holds);
    PutTwice(s, x, t2, s.holds, t3, h);
    Statement(s1, x);
    Statement(s2, x);
    Statement(s3, x);
    PutTwice(s, x, t3, h, Stepped(t3), h);
    assert u !in t.known ==> t.known - {u} == t.known;
  }

  /** A frame changes nothing in the end; in between it is on its way to the
      backend exactly if its sender is known. */
  lemma {:induction false} FrameRun(s: Sys, x: Sid, u: Id)
    requires x in s.sessions && Resting(s.sessions[x])
    ensures var mid := Next(s, Check(x, u));
            DaveSession.Run(s, Expand(Frame(x, u, true))) == s && x in mid.sessions
            && (mid.sessions[x].frame == Checked(u) <==> u in s.sessions[x].known)
  {
    hide DaveSession.Run;
    RunFour(s, Check(x, u), Delegate(x), Delegate(x), Delegate(x));
    var t := OnCheck(s.sessions[x], u);
    assert Next(s, Check(x, u)) == Put(s, x, t, s.holds);
    PutTwice(s, x, t, s.holds, s.sessions[x], s.holds);
    assert s.sessions[x := s.sessions[x]] == s.sessions;
  }

  lemma {:induction false} NoSession(s: Sys, c: Call)
    requires c.Add? || c.Remove? || c.Frame?
    requires c.x !in s.sessions
    ensures DaveSession.Run(s, Expand(c)) == s
  {
    hide DaveSession.Run;
    if c.Frame? {
      RunFour(s, Check(c.x, c.u), Delegate(c.x), Delegate(c.x), Delegate(c.x));
    } else {
      RunFour(s, if c.Add? then BeginAdd(c.x, c.u) else BeginRemove(c.x, c.u), Proceed(c.x), Proceed(c.x), Proceed(c.x));
    }
  }

  // ---------------------------------------------------------------------------
  // What calls amount to

  /** The session's last word on the user was an add. */
  function Added(calls: seq<Call>, x: Sid, u: Id): bool {
    if calls == [] then false
    else
      var front := calls[..|calls| - 1];
      match calls[|calls| - 1]
      case Add(y, v) => if x == y && u == v then Opened(front, x) else Added(front, x, u)
      case Remove(y, v) => !(x == y && u == v) && Added(front, x, u)
      case _ => Added(front, x, u)
  }

  predicate Opened(calls: seq<Call>, x: Sid) {
    Open(x) in calls
  }

  /** Between calls a session knows exactly the users whose last word was an add,
      its backend has exactly their decryptors, and no frame is on its way. */
  ghost predicate Settled(s: Sys, calls: seq<Call>) {
    && (forall x :: x in s.sessions <==> Opened(calls, x))
    && (forall x :: x in s.sessions ==> Resting(s.sessions[x]) && s.sessions[x].known == s.sessions[x].backend)
    && (forall x, u :: x in s.sessions ==> (u in s.sessions[x].known <==> Added(calls, x, u)))
    && (forall x, u :: x !in s.sessions ==> !Added(calls, x, u))
  }

  lemma {:induction false} CallsSettle(bot: Id, calls: seq<Call>)
    ensures Settled(After(bot, calls), calls) && After(bot, calls).bot == bot
  {
    hide Expand, DaveSession.Run;
    if calls == [] {
      RunNone(Start(bot));
    } else {
      var front, c := calls[..|calls| - 1], calls[|calls| - 1];
      CallsSettle(bot, front);
      RunTwice(Start(bot), Trace(front), Expand(c));
      assert forall x :: Opened(calls, x) <==> Opened(front, x) || c == Open(x) by { assert calls == front + [c]; }
      OneCallSettles(After(bot, front), front, c, calls);
    }
  }

  lemma AddedMore(front: seq<Call>, c: Call, calls: seq<Call>)
    requires calls != [] && calls[..|calls| - 1] == front && calls[|calls| - 1] == c
    ensures forall x, u :: Added(calls, x, u) <==>
              if c == Add(x, u) then Opened(front, x) else c != Remove(x, u) && Added(front, x, u)
  {
  }

  lemma {:induction false} OneCallSettles(s: Sys, front: seq<Call>, c: Call, calls: seq<Call>)
    requires Settled(s, front) && calls != [] && calls[..|calls| - 1] == front && calls[|calls| - 1] == c
    requires forall x :: Opened(calls, x) <==> Opened(front, x) || c == Open(x)
    ensures Settled(DaveSession.Run(s, Expand(c)), calls) && DaveSession.Run(s, Expand(c)).bot == s.bot
  {
    hide DaveSession.Run, Opened, Added;
    AddedMore(front, c, calls);
    if c.Add? { assert c.x in s.sessions <==> Opened(front, c.x); }
    match c
    case Open(x) => RunFour(s, NewSession(x), Event.Collect, Event.Collect, Event.Collect);
    case Add(x, u) => if x in s.sessions { AddRun(s, x, u); } else { NoSession(s, c); }
    case Remove(x, u) => if x in s.sessions { RemoveRun(s, x, u); } else { NoSession(s, c); }
    case Frame(x, u, ready) =>
      if x in s.sessions { FrameRun(s, x, u); } else { NoSession(s, c); }
    case Collection => RunFour(s, Event.Collect, Event.Collect, Event.Collect, Event.Collect);
  }

  // ---------------------------------------------------------------------------
  // The objects

  /** The objects hold what the state machine says. */
  ghost predicate Follows(stats: Stats, sessions: map<Sid, CountingSession>, s: Sys)
    reads stats, sessions.Values
  {
    && stats.Valid() && Holds(stats.holders, stats.retiring) == s.holds && s.sessions.Keys == sessions.Keys
    && (forall x, y :: x in sessions && y in sessions && sessions[x] == sessions[y] ==> x == y)
    && (forall x :: x in sessions ==>
          sessions[x].bot == s.bot && sessions[x].stats == stats
          && s.sessions[x] == DaveSession.Session(sessions[x].known, sessions[x].backend, AtRest, NoFrame))
  }

  method OnOpen(bot: Id, stats: Stats, sessions: map<Sid, CountingSession>, x: Sid, ghost s: Sys)
    returns (more: map<Sid, CountingSession>)
    requires Follows(stats, sessions, s) && s.bot == bot
    ensures Follows(stats, more, DaveSession.Run(s, Expand(Open(x))))
    ensures forall y :: y in more ==> (y in sessions && more[y] == sessions[y]) || fresh(more[y])
  {
    RunFour(s, NewSession(x), Event.Collect, Event.Collect, Event.Collect);
    more := sessions;
    if x !in sessions {
      var session := new CountingSession(bot, stats);
      more := sessions[x := session];
    }
  }

  method OnAdd(stats: Stats, sessions: map<Sid, CountingSession>, x: Sid, u: Id, ghost s: Sys)
    requires Follows(stats, sessions, s)
    modifies stats, sessions.Values
    ensures Follows(stats, sessions, DaveSession.Run(s, Expand(Add(x, u))))
  {
    hide DaveSession.Run, Expand, Holding;
    if x in sessions {
      AddRun(s, x, u);
      sessions[x].AddUser(u);
    } else {
      NoSession(s, Add(x, u));
    }
  }

  method OnRemove(stats: Stats, sessions: map<Sid, CountingSession>, x: Sid, u: Id, ghost s: Sys)
    requires Follows(stats, sessions, s)
    modifies stats, sessions.Values
    ensures Follows(stats, sessions, DaveSession.Run(s, Expand(Remove(x, u))))
  {
    hide DaveSession.Run, Expand, Released;
    if x in sessions {
      RemoveRun(s, x, u);
      sessions[x].RemoveUser(u);
    } else {
      NoSession(s, Remove(x, u));
    }
  }

  datatype Answer = NoSuchSession | Answered(v: Verdict)

  /** A frame's fate between calls. */
  function Fate(calls: seq<Call>, x: Sid, u: Id, ready: bool): Answer {
    if !Opened(calls, x) then NoSuchSession
    else if Added(calls, x, u) then Answered(Delegated)
    else if ready then Answered(Dropped)
    else Answered(PassedThrough)
  }

  method OnFrame(stats: Stats, sessions: map<Sid, CountingSession>, x: Sid, u: Id, ready: bool, ghost s: Sys,
                 ghost calls: seq<Call>)
    returns (a: Answer)
    requires Follows(stats, sessions, s) && Settled(s, calls)
    ensures Follows(stats, sessions, DaveSession.Run(s, Expand(Frame(x, u, ready))))
    ensures a == Fate(calls, x, u, ready)
    ensures a == Answered(Delegated) <==>
              var mid := Next(s, Check(x, u)); x in mid.sessions && mid.sessions[x].frame == Checked(u)
  {
    hide DaveSession.Run;
    assert Expand(Frame(x, u, ready)) == Expand(Frame(x, u, true));
    if x in sessions {
      FrameRun(s, x, u);
      var v := sessions[x].Decrypt(u, ready);
      a := Answered(v);
    } else {
      NoSession(s, Frame(x, u, ready));
      a := NoSuchSession;
    }
  }

  method OnCollection(stats: Stats, ghost sessions: map<Sid, CountingSession>, ghost s: Sys)
    requires Follows(stats, sessions, s)
    modifies stats
    ensures Follows(stats, sessions, DaveSession.Run(s, Expand(Collection)))
  {
    RunFour(s, Event.Collect, Event.Collect, Event.Collect, Event.Collect);
    stats.EvictRetired();
  }

  /** Over every sequence of calls the objects end as the state machine does, a
      sender's holds are the sessions whose last word on it was an add, and each
      frame is delegated exactly if its session's last word on its sender was
      one, and otherwise dropped exactly if the group is encrypted. */
  method Drive(bot: Id, calls: seq<Call>)
    returns (stats: Stats, sessions: map<Sid, CountingSession>, answers: seq<Answer>)
    ensures Follows(stats, sessions, After(bot, calls))
    ensures forall x, u :: x in sessions ==> (u in sessions[x].known <==> Added(calls, x, u))
    ensures forall u :: Get(stats.holders, User(bot, u)) == |Adders(sessions.Keys, calls, u)|
    ensures |answers| == |calls|
    ensures forall i :: 0 <= i < |calls| && calls[i].Frame? ==>
              answers[i] == Fate(calls[..i], calls[i].x, calls[i].u, calls[i].ready)
  {
    hide DaveSession.Run, Expand, Settled, Follows, Fate, Added;
    stats := new Stats();
    sessions, answers := map[], [];
    RunNone(Start(bot));
    ghost var s := Start(bot);
    assert Follows(stats, sessions, s) by { NothingYet(bot, stats); }
    var i := 0;
    while i < |calls|
      invariant i <= |calls| && fresh(stats) && forall x :: x in sessions ==> fresh(sessions[x])
      invariant s == After(bot, calls[..i]) && Follows(stats, sessions, s) && |answers| == i
      invariant forall j :: 0 <= j < i && calls[j].Frame? ==>
                  answers[j] == Fate(calls[..j], calls[j].x, calls[j].u, calls[j].ready)
    {
      assert calls[..i + 1][..i] == calls[..i];
      RunTwice(Start(bot), Trace(calls[..i]), Expand(calls[i]));
      CallsSettle(bot, calls[..i]);
      var a := NoSuchSession;
      match calls[i] {
        case Open(x) => sessions := OnOpen(bot, stats, sessions, x, s);
        case Add(x, u) => OnAdd(stats, sessions, x, u, s);
        case Remove(x, u) => OnRemove(stats, sessions, x, u, s);
        case Frame(x, u, ready) => a := OnFrame(stats, sessions, x, u, ready, s, calls[..i]);
        case Collection => OnCollection(stats, sessions, s);
      }
      answers := answers + [a];
      s := DaveSession.Run(s, Expand(calls[i]));
      i := i + 1;
    }
    assert calls[..i] == calls;
    CallsSettle(bot, calls);
    WhatFollows(bot, calls, stats, sessions);
  }

  lemma NothingYet(bot: Id, stats: Stats)
    requires stats.Valid() && stats.holders == map[] && stats.retiring == {}
    ensures Follows(stats, map[], Start(bot))
  {
  }

  function Adders(xs: set<Sid>, calls: seq<Call>, u: Id): set<Sid> {
    set x | x in xs && Added(calls, x, u)
  }

  lemma {:induction false} WhatFollows(bot: Id, calls: seq<Call>, stats: Stats, sessions: map<Sid, CountingSession>)
    requires Follows(stats, sessions, After(bot, calls))
    ensures forall x, u :: x in sessions ==> (u in sessions[x].known <==> Added(calls, x, u))
    ensures forall u :: Get(stats.holders, User(bot, u)) == |Adders(sessions.Keys, calls, u)|
  {
    hide After, Added;
    CallsSettle(bot, calls);
    KnownAreAdded(After(bot, calls), calls);
    forall u
      ensures Get(stats.holders, User(bot, u)) == |Adders(sessions.Keys, calls, u)|
    {
      HoldsAreAdds(bot, calls, u);
    }
  }

  lemma HoldsAreAdds(bot: Id, calls: seq<Call>, u: Id)
    ensures Get(After(bot, calls).holds.holders, User(bot, u)) == |Adders(After(bot, calls).sessions.Keys, calls, u)|
  {
    CallsSettle(bot, calls);
    HoldersCountSessions(bot, Trace(calls), u);
    assert Knowing(After(bot, calls), u) == Adders(After(bot, calls).sessions.Keys, calls, u);
  }

  lemma {:induction false} KnownAreAdded(s: Sys, calls: seq<Call>)
    requires Settled(s, calls)
    ensures forall x, u :: x in s.sessions ==> (u in s.sessions[x].known <==> Added(calls, x, u))
  {
  }
}
