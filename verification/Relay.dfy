/** The relay between guilds: who is attached to a session, and the order in
    which a guild's channels are detached and closed while others broadcast. */
module Relay {
  type Guild = nat
  type Chan = nat
  type Thread = nat

  /** The fields of a session guarded by its lock. */
  datatype Room = Room(host: Guild, outs: map<Guild, seq<Chan>>, guests: set<Guild>,
                       capturing: set<Guild>, observers: set<Guild>)

  function Attached(r: Room, g: Guild, chs: seq<Chan>): Room {
    r.(outs := r.outs[g := chs], guests := if g == r.host then r.guests else r.guests + {g})
  }

  function Detached(r: Room, g: Guild): Room {
    r.(outs := r.outs - {g}, guests := r.guests - {g}, capturing := r.capturing - {g}, observers := r.observers - {g})
  }

  class Session {
    const host: Guild
    var outs: map<Guild, seq<Chan>>
    var guests: set<Guild>
    var capturing: set<Guild>
    var observers: set<Guild>

    ghost function Abs(): Room
      reads this
    {
      Room(host, outs, guests, capturing, observers)
    }

    constructor (host: Guild)
      ensures Abs() == Room(host, map[], {}, {}, {})
    {
      this.host := host;
      outs, guests, capturing, observers := map[], {}, {}, {};
    }

    /** Returns the guilds whose observers are notified. */
    method AddGuild(g: Guild, chs: seq<Chan>) returns (notified: set<Guild>)
      modifies this
      ensures Abs() == Attached(old(Abs()), g, chs) && notified == observers
    {
      outs := outs[g := chs];
      if g != host {
        guests := guests + {g};
      }
      notified := observers;
    }

    method RemoveGuild(g: Guild) returns (notified: set<Guild>)
      modifies this
      ensures Abs() == Detached(old(Abs()), g) && notified == old(observers) - {g}
    {
      outs := outs - {g};
      guests := guests - {g};
      capturing := capturing - {g};
      observers := observers - {g};
      notified := observers;
    }

    method SetCapturing(g: Guild) returns (notified: set<Guild>)
      modifies this`capturing
      ensures capturing == old(capturing) + {g} && notified == observers
    {
      capturing := capturing + {g};
      notified := observers;
    }

    method SetRouteObserver(g: Guild)
      modifies this`observers
      ensures observers == old(observers) + {g}
    {
      observers := observers + {g};
    }

    method HasCapturingPeers(g: Guild) returns (any: bool)
      ensures any <==> exists id :: id in capturing && id != g
    {
      var todo := capturing;
      while todo != {}
        invariant todo <= capturing
        invariant forall id :: id in capturing && id !in todo ==> id == g
        decreases |todo|
      {
        var id :| id in todo;
        if id != g {
          return true;
        }
        todo := todo - {id};
      }
      return false;
    }

    method GuestGuildIDs() returns (ids: seq<Guild>)
      ensures multiset(ids) == multiset(guests)
    {
      ids := [];
      var todo := guests;
      while todo != {}
        invariant todo <= guests && multiset(ids) == multiset(guests - todo)
        decreases |todo|
      {
        var id :| id in todo;
        assert guests - (todo - {id}) == (guests - todo) + {id};
        ids := ids + [id];
        todo := todo - {id};
      }
      assert guests - todo == guests;
    }
  }

  class HostRelayInputs {
    var chs: seq<Chan>
    var closed: bool

    constructor ()
      ensures chs == [] && !closed
    {
      chs, closed := [], false;
    }

    /** `made` is what the register function makes: nothing when no mixer takes
        relay input. */
    method Register(session: Session, g: Guild, made: seq<Chan>)
      modifies this, session
      ensures old(closed) ==> session.Abs() == old(session.Abs()) && chs == old(chs)
      ensures !old(closed) ==> chs == made
                               && session.Abs() == if made == [] then old(session.Abs()) else Attached(old(session.Abs()), g, made)
      ensures closed == old(closed)
    {
      if !closed {
        if made != [] {
          var notified := session.AddGuild(g, made);
        }
        chs := made;
      }
    }

    /** Returns the channels it closed, in order. */
    method Close(session: Session, g: Guild) returns (shut: seq<Chan>)
      modifies this, session
      ensures closed && chs == old(chs)
      ensures shut == if old(closed) then [] else chs
      ensures session.Abs() == if old(closed) || chs == [] then old(session.Abs()) else Detached(old(session.Abs()), g)
    {
      shut := [];
      if closed {
        return;
      }
      closed := true;
      if |chs| == 0 {
        return;
      }
      var notified := session.RemoveGuild(g);
      for i := 0 to |chs|
        invariant shut == chs[..i] && chs == old(chs)
      {
        shut := shut + [chs[i]];
      }
    }
  }

  // ---------------------------------------------------------------------------
  // Every interleaving, one statement at a time

  /** What the goroutine working on a guild's inputs is doing. */
  datatype Turn = Idle | Adding(made: seq<Chan>) | Added(made: seq<Chan>) | Removing | Closing(left: seq<Chan>)

  /** The owner of a guild's inputs. A guest may join again once it has left; a
      host's inputs close for good. `ever` holds every channel made so far. */
  datatype Owner = Owner(guest: bool, turn: Turn, chs: seq<Chan>, closed: bool, ever: set<Chan>)

  /** A broadcast under the read lock: guilds not visited yet, and the channels
      of the guild it is at. */
  datatype Reader = Reader(exclude: Guild, left: set<Guild>, at: Guild, chs: seq<Chan>)

  datatype Sys = Sys(room: Room, owners: map<Guild, Owner>, readers: map<Thread, Reader>,
                     shut: multiset<Chan>, next: Chan, panicked: bool)

  datatype Event =
    | BeginBroadcast(t: Thread, exclude: Guild)
    | NextGuild(t: Thread, g: Guild)
    | SendOne(t: Thread)
    | FinishBroadcast(t: Thread)
    | SetCapturing(g: Guild)
    | SetRouteObserver(g: Guild)
    | BeginRegister(g: Guild, count: nat)
    | AddStep(g: Guild, attach: bool)
    | StoreStep(g: Guild)
    | BeginClose(g: Guild)
    | RemoveStep(g: Guild)
    | CloseOne(g: Guild)

  function Range(from: nat, count: nat): (r: seq<Chan>)
    ensures |r| == count && forall i :: 0 <= i < count ==> r[i] == from + i
  {
    seq(count, i => from + i)
  }

  function SetOwner(s: Sys, g: Guild, o: Owner): Sys {
    s.(owners := s.owners[g := o])
  }

  function OnOwner(s: Sys, e: Event, o: Owner): Sys
    requires !e.BeginBroadcast? && !e.NextGuild? && !e.SendOne? && !e.FinishBroadcast?
    requires e.g in s.owners && o == s.owners[e.g]
  {
    match e
    case SetCapturing(g) => if s.readers == map[] then s.(room := s.room.(capturing := s.room.capturing + {g})) else s
    case SetRouteObserver(g) => if s.readers == map[] then s.(room := s.room.(observers := s.room.observers + {g})) else s
    case BeginRegister(g, count) =>
      if o.turn != Idle || o.closed || o.chs != [] then s
      else
        var made := Range(s.next, count);
        SetOwner(s, g, o.(turn := Adding(made), ever := o.ever + set c | c in made)).(next := s.next + count)
    case AddStep(g, attach) =>
      if !o.turn.Adding? || s.readers != map[] then s
      else
        var t := SetOwner(s, g, o.(turn := Added(o.turn.made)));
        if (attach && o.guest) || o.turn.made != [] then t.(room := Attached(s.room, g, o.turn.made)) else t
    case StoreStep(g) => if o.turn.Added? then SetOwner(s, g, o.(turn := Idle, chs := o.turn.made)) else s
    case BeginClose(g) =>
      if o.turn != Idle || o.closed then s
      else SetOwner(s, g, o.(closed := true, turn := if o.chs == [] && !o.guest then Idle else Removing))
    case RemoveStep(g) =>
      if o.turn != Removing || s.readers != map[] then s
      else SetOwner(s, g, o.(turn := Closing(o.chs))).(room := Detached(s.room, g))
    case CloseOne(g) =>
      if !o.turn.Closing? then s
      else if o.turn.left == [] then
        SetOwner(s, g, if o.guest then o.(turn := Idle, chs := [], closed := false) else o.(turn := Idle))
      else
        var c := o.turn.left[0];
        SetOwner(s, g, o.(turn := Closing(o.turn.left[1..]))).(shut := s.shut + multiset{c}, panicked := s.panicked || c in s.shut)
  }

  function OnReader(s: Sys, e: Event): Sys
    requires e.BeginBroadcast? || e.NextGuild? || e.SendOne? || e.FinishBroadcast?
  {
    if e.BeginBroadcast? then
      if e.t in s.readers then s else s.(readers := s.readers[e.t := Reader(e.exclude, s.room.outs.Keys, 0, [])])
    else if e.t !in s.readers then s
    else
      var r := s.readers[e.t];
      match e
      case NextGuild(t, g) =>
        if r.chs != [] || g !in r.left || g !in s.room.outs then s
        else s.(readers := s.readers[t := Reader(r.exclude, r.left - {g}, g, if g == r.exclude then [] else s.room.outs[g])])
      case SendOne(t) =>
        if r.chs == [] then s
        else s.(readers := s.readers[t := r.(chs := r.chs[1..])], panicked := s.panicked || r.chs[0] in s.shut)
      case FinishBroadcast(t) =>
        if r.left == {} && r.chs == [] then s.(readers := s.readers - {t}) else s
  }

  function Next(s: Sys, e: Event): Sys {
    if e.BeginBroadcast? || e.NextGuild? || e.SendOne? || e.FinishBroadcast? then OnReader(s, e)
    else if e.g in s.owners then OnOwner(s, e, s.owners[e.g])
    else s
  }

  function Run(s: Sys, es: seq<Event>): Sys {
    if es == [] then s else Next(Run(s, es[..|es| - 1]), es[|es| - 1])
  }

  /** A new session: the host and any number of guests, none attached. */
  function Start(host: Guild, guests: set<Guild>): Sys {
    Sys(Room(host, map[], {}, {}, {}),
        map g | g in guests + {host} :: Owner(g != host, Idle, [], false, {}), map[], multiset{}, 0, false)
  }

  // ---------------------------------------------------------------------------
  // The invariant

  /** The open channels an owner still has to close. */
  function Open(o: Owner): seq<Chan> {
    match o.turn
    case Idle => if o.closed then [] else o.chs
    case Adding(made) => made
    case Added(made) => made
    case Removing => o.chs
    case Closing(left) => left
  }

  predicate OwnerOk(next: Chan, shut: multiset<Chan>, o: Owner) {
    && (forall c :: c in o.ever ==> c < next && (c in Open(o) || c in shut))
    && (forall i :: 0 <= i < |Open(o)| ==> Open(o)[i] in o.ever && Open(o)[i] !in shut)
    && (forall i, j :: 0 <= i < j < |Open(o)| ==> Open(o)[i] != Open(o)[j])
    && (o.turn.Adding? || o.turn.Added? ==> o.chs == [] && !o.closed)
    && (o.turn.Removing? || o.turn.Closing? ==> o.closed)
  }

  predicate Apart(o: Owner, p: Owner) {
    o.ever !! p.ever
  }

  /** A registered guild's channels are open, its owner's, and not yet detached. */
  predicate ListedOk(chs: seq<Chan>, o: Owner) {
    if chs == [] then o.guest
    else chs == Open(o) && (o.turn.Added? || o.turn.Removing? || (o.turn.Idle? && !o.closed))
  }

  predicate ReaderOk(room: Room, r: Reader) {
    r.chs != [] ==> r.at in room.outs && forall i :: 0 <= i < |r.chs| ==> r.chs[i] in room.outs[r.at]
  }

  ghost predicate Inv(s: Sys) {
    && !s.panicked
    && (forall c :: s.shut[c] <= 1 && (c in s.shut ==> c < s.next))
    && (forall g :: g in s.owners ==> OwnerOk(s.next, s.shut, s.owners[g]))
    && (forall g, h :: g in s.owners && h in s.owners && g != h ==> Apart(s.owners[g], s.owners[h]))
    && (forall g :: g in s.room.outs ==> g in s.owners && ListedOk(s.room.outs[g], s.owners[g]))
    && (forall t :: t in s.readers ==> ReaderOk(s.room, s.readers[t]))
  }

  predicate OfReader(e: Event) {
    e.BeginBroadcast? || e.NextGuild? || e.SendOne? || e.FinishBroadcast?
  }

  lemma SendsOnOpen(s: Sys, t: Thread)
    requires Inv(s) && t in s.readers && s.readers[t].chs != []
    ensures s.readers[t].chs[0] !in s.shut
  {
    hide Apart;
    var r := s.readers[t];
    assert ReaderOk(s.room, r) && r.chs[0] in s.room.outs[r.at];
    assert ListedOk(s.room.outs[r.at], s.owners[r.at]) && OwnerOk(s.next, s.shut, s.owners[r.at]);
  }

  lemma ReadersKeepInv(s: Sys, e: Event)
    requires Inv(s) && OfReader(e)
    ensures Inv(Next(s, e))
  {
    hide Apart, ListedOk, Open, OwnerOk, ReaderOk;
    var t := Next(s, e);
    assert t == s.(readers := t.readers, panicked := t.panicked);
    assert !t.panicked by {
      if e.SendOne? && e.t in s.readers && s.readers[e.t].chs != [] {
        SendsOnOpen(s, e.t);
      }
    }
    forall x | x in t.readers
      ensures ReaderOk(t.room, t.readers[x])
    {
      if x in s.readers {
        assert ReaderOk(s.room, s.readers[x]);
      }
      if x == e.t {
        ReaderMoves(s, e);
      }
    }
  }

  lemma ReaderMoves(s: Sys, e: Event)
    requires OfReader(e) && e.t in Next(s, e).readers
    requires e.t in s.readers ==> ReaderOk(s.room, s.readers[e.t])
    ensures ReaderOk(s.room, Next(s, e).readers[e.t])
  {
  }

  /** One owner changes, and with it perhaps its entry in the room. */
  lemma OwnerMoves(s: Sys, t: Sys, g: Guild)
    requires Inv(s) && g in s.owners && g in t.owners && t == s.(owners := s.owners[g := t.owners[g]], room := t.room)
    requires OwnerOk(s.next, s.shut, t.owners[g]) && t.owners[g].ever == s.owners[g].ever
    requires forall h :: h in t.room.outs && h != g ==> h in s.room.outs && t.room.outs[h] == s.room.outs[h]
    requires g in t.room.outs ==> ListedOk(t.room.outs[g], t.owners[g])
    requires t.readers == map[] || t.room.outs == s.room.outs
    ensures Inv(t)
  {
    hide OwnerOk, ListedOk;
    forall a, b | a in t.owners && b in t.owners && a != b
      ensures Apart(t.owners[a], t.owners[b])
    {
      assert Apart(s.owners[a], s.owners[b]);
    }
    forall x | x in t.readers
      ensures ReaderOk(t.room, t.readers[x])
    {
      assert ReaderOk(s.room, s.readers[x]);
    }
  }

  /** An owner whose channels and shut set only grow stays well kept. */
  lemma MadeOk(next: Chan, shut: multiset<Chan>, o: Owner, count: nat)
    requires OwnerOk(next, shut, o) && o.turn == Idle && !o.closed && o.chs == []
    requires forall c :: c in shut ==> c < next
    ensures var made := Range(next, count);
            OwnerOk(next + count, shut, o.(turn := Adding(made), ever := o.ever + set c | c in made))
  {
  }

  lemma LaterOk(next: Chan, shut: multiset<Chan>, o: Owner, more: nat)
    requires OwnerOk(next, shut, o)
    ensures OwnerOk(next + more, shut, o)
  {
  }

  lemma ShutOk(next: Chan, shut: multiset<Chan>, o: Owner, c: Chan)
    requires OwnerOk(next, shut, o) && c !in o.ever
    ensures OwnerOk(next, shut + multiset{c}, o)
  {
  }

  lemma ClosedOk(next: Chan, shut: multiset<Chan>, o: Owner)
    requires OwnerOk(next, shut, o) && o.turn.Closing? && o.turn.left != []
    ensures o.turn.left[0] in o.ever && o.turn.left[0] !in shut
    ensures OwnerOk(next, shut + multiset{o.turn.left[0]}, o.(turn := Closing(o.turn.left[1..])))
  {
    var (left, rest) := (o.turn.left, o.turn.left[1..]);
    forall c | c in o.ever
      ensures c in rest || c in shut + multiset{left[0]}
    {
      assert c in left || c in shut;
    }
  }

  lemma RegisterKeepsInv(s: Sys, g: Guild, count: nat)
    requires Inv(s) && g in s.owners && s.owners[g].turn == Idle && !s.owners[g].closed && s.owners[g].chs == []
    ensures Inv(Next(s, BeginRegister(g, count)))
  {
    hide OwnerOk;
    var t := Next(s, BeginRegister(g, count));
    forall h | h in t.owners
      ensures OwnerOk(t.next, t.shut, t.owners[h])
    {
      if h == g { MadeOk(s.next, s.shut, s.owners[g], count); } else { LaterOk(s.next, s.shut, s.owners[h], count); }
    }
    forall a, b | a in t.owners && b in t.owners && a != b
      ensures Apart(t.owners[a], t.owners[b])
    {
      assert Apart(s.owners[a], s.owners[b]);
      EverBelow(s, a);
      EverBelow(s, b);
    }
  }

  lemma EverBelow(s: Sys, g: Guild)
    requires Inv(s) && g in s.owners
    ensures forall c :: c in s.owners[g].ever ==> c < s.next
  {
    assert OwnerOk(s.next, s.shut, s.owners[g]);
  }

  lemma CloseOneKeepsInv(s: Sys, g: Guild)
    requires Inv(s) && g in s.owners && s.owners[g].turn.Closing? && s.owners[g].turn.left != []
    ensures Inv(Next(s, CloseOne(g)))
  {
    hide OwnerOk;
    var (o, t) := (s.owners[g], Next(s, CloseOne(g)));
    ClosedOk(s.next, s.shut, o);
    EverBelow(s, g);
    forall h | h in t.owners
      ensures OwnerOk(t.next, t.shut, t.owners[h])
    {
      if h != g {
        assert Apart(s.owners[g], s.owners[h]);
        ShutOk(s.next, s.shut, s.owners[h], o.turn.left[0]);
      }
    }
    forall a, b | a in t.owners && b in t.owners && a != b
      ensures Apart(t.owners[a], t.owners[b])
    {
      assert Apart(s.owners[a], s.owners[b]);
    }
  }

  /** Moving on with the same channels. */
  lemma SameChannelsOk(next: Chan, shut: multiset<Chan>, o: Owner, p: Owner)
    requires OwnerOk(next, shut, o) && Open(p) == Open(o) && p.ever == o.ever
    requires p.turn.Adding? || p.turn.Added? ==> p.chs == [] && !p.closed
    requires p.turn.Removing? || p.turn.Closing? ==> p.closed
    ensures OwnerOk(next, shut, p)
  {
  }

  /** The steps that keep the owner's channels as they are. */
  lemma QuietStepKeepsInv(s: Sys, e: Event)
    requires Inv(s) && !OfReader(e) && e.g in s.owners && Next(s, e) != s
    requires !e.BeginRegister? && (e.CloseOne? ==> s.owners[e.g].turn == Closing([]))
    ensures Inv(Next(s, e))
  {
    hide Inv;
    var (g, o, t) := (e.g, s.owners[e.g], Next(s, e));
    InvOwner(s, g);
    SameChannelsOk(s.next, s.shut, o, t.owners[g]);
    OwnerMoves(s, t, g);
  }

  lemma InvOwner(s: Sys, g: Guild)
    requires Inv(s) && g in s.owners
    ensures OwnerOk(s.next, s.shut, s.owners[g])
    ensures g in s.room.outs ==> ListedOk(s.room.outs[g], s.owners[g])
  {
  }

  lemma OwnersKeepInv(s: Sys, e: Event)
    requires Inv(s) && !OfReader(e)
    ensures Inv(Next(s, e))
  {
    hide Inv, OwnerOk, ListedOk;
    if e.g in s.owners && Next(s, e) != s {
      if e.BeginRegister? {
        RegisterKeepsInv(s, e.g, e.count);
      } else if e.CloseOne? && s.owners[e.g].turn != Closing([]) {
        CloseOneKeepsInv(s, e.g);
      } else {
        QuietStepKeepsInv(s, e);
      }
    }
  }

  lemma {:induction false} RunKeepsInv(s: Sys, es: seq<Event>)
    requires Inv(s)
    ensures Inv(Run(s, es))
  {
    hide Inv, Next;
    if es != [] {
      RunKeepsInv(s, es[..|es| - 1]);
      NextKeepsInv(Run(s, es[..|es| - 1]), es[|es| - 1]);
    }
  }

  lemma NextKeepsInv(s: Sys, e: Event)
    requires Inv(s)
    ensures Inv(Next(s, e))
  {
    hide Inv, Next;
    if OfReader(e) {
      ReadersKeepInv(s, e);
    } else {
      OwnersKeepInv(s, e);
    }
  }

  lemma StartInv(host: Guild, guests: set<Guild>)
    ensures Inv(Start(host, guests))
  {
  }

  // ---------------------------------------------------------------------------
  // What every run satisfies

  /** No broadcast sends on a closed channel and no channel is closed twice. */
  lemma {:induction false} NoSendOnClosed(host: Guild, guests: set<Guild>, es: seq<Event>, c: Chan)
    ensures var s := Run(Start(host, guests), es);
            !s.panicked && s.shut[c] <= 1
  {
    StartInv(host, guests);
    RunKeepsInv(Start(host, guests), es);
  }

  predicate Finished(s: Sys, g: Guild) {
    g in s.owners && !s.owners[g].guest && s.owners[g].closed && s.owners[g].turn == Idle
  }

  /** Once a host has finished closing, its guild is detached and every channel
      ever made for it is closed, so no bridge is left running. */
  lemma {:induction false} ClosedLeaksNothing(host: Guild, guests: set<Guild>, es: seq<Event>, g: Guild)
    requires Finished(Run(Start(host, guests), es), g)
    ensures var s := Run(Start(host, guests), es);
            g !in s.room.outs && forall c :: c in s.owners[g].ever ==> c in s.shut
  {
    hide Inv, Next;
    StartInv(host, guests);
    RunKeepsInv(Start(host, guests), es);
    InvOwner(Run(Start(host, guests), es), g);
  }

  /** A guest that has left and not joined again has no channel open either. */
  lemma {:induction false} LeftLeaksNothing(host: Guild, guests: set<Guild>, es: seq<Event>, g: Guild)
    requires g in Run(Start(host, guests), es).owners
    ensures var s := Run(Start(host, guests), es);
            s.owners[g].turn == Idle && s.owners[g].chs == [] ==> forall c :: c in s.owners[g].ever ==> c in s.shut
  {
    hide Inv, Next;
    StartInv(host, guests);
    RunKeepsInv(Start(host, guests), es);
    InvOwner(Run(Start(host, guests), es), g);
  }

  /** A host's inputs, once closed, take no later registration: whatever runs
      after, nothing is made and the guild is not attached. */
  lemma {:induction false} LateRegisterAddsNothing(host: Guild, guests: set<Guild>, es: seq<Event>, more: seq<Event>, g: Guild)
    requires Finished(Run(Start(host, guests), es), g)
    ensures var (s, t) := (Run(Start(host, guests), es), Run(Run(Start(host, guests), es), more));
            Finished(t, g) && t.owners[g] == s.owners[g] && g !in t.room.outs
  {
    StartInv(host, guests);
    RunKeepsInv(Start(host, guests), es);
    FinishedStays(Run(Start(host, guests), es), more, g);
  }

  lemma {:induction false} FinishedStays(s: Sys, more: seq<Event>, g: Guild)
    requires Inv(s) && Finished(s, g)
    ensures Inv(Run(s, more)) && Finished(Run(s, more), g) && Run(s, more).owners[g] == s.owners[g]
    ensures g !in Run(s, more).room.outs
  {
    hide Inv, Next, Finished;
    if more == [] {
      FinishedIsDetached(s, g);
    } else {
      FinishedStays(s, more[..|more| - 1], g);
      var t := Run(s, more[..|more| - 1]);
      NextKeepsInv(t, more[|more| - 1]);
      NextKeepsFinished(t, more[|more| - 1], g);
      FinishedIsDetached(Next(t, more[|more| - 1]), g);
    }
  }

  lemma NextKeepsFinished(s: Sys, e: Event, g: Guild)
    requires Finished(s, g)
    ensures Finished(Next(s, e), g) && Next(s, e).owners[g] == s.owners[g]
  {
  }

  lemma FinishedIsDetached(s: Sys, g: Guild)
    requires Inv(s) && Finished(s, g)
    ensures g !in s.room.outs
  {
  }

  // ---------------------------------------------------------------------------
  // The broadcast table

  /** Attached, and not detached yet. */
  predicate OnAir(o: Owner) {
    || (o.turn.Idle? && !o.closed && o.chs != [])
    || (o.turn.Added? && o.turn.made != [])
    || (o.turn.Removing? && o.chs != [])
  }

  predicate OwnerWired(room: Room, g: Guild, o: Owner) {
    && (OnAir(o) ==> g in room.outs && room.outs[g] == Open(o))
    && (o.turn.Removing? || o.turn.Closing? ==> o.closed)
  }

  /** Every guild on air is in the table with its open channels, and the guests are
      the attached guilds but the host. */
  ghost predicate Wired(s: Sys) {
    && (forall g :: g in s.owners ==> OwnerWired(s.room, g, s.owners[g]))
    && s.room.guests == s.room.outs.Keys - {s.room.host}
  }

  /** The owner that moves stays wired. */
  lemma MoverWired(s: Sys, e: Event)
    requires !OfReader(e) && e.g in s.owners && OwnerWired(s.room, e.g, s.owners[e.g])
    ensures e.g in Next(s, e).owners && OwnerWired(Next(s, e).room, e.g, Next(s, e).owners[e.g])
  {
    hide Range;
  }

  lemma GuestsFollow(s: Sys, e: Event)
    requires s.room.guests == s.room.outs.Keys - {s.room.host}
    ensures Next(s, e).room.guests == Next(s, e).room.outs.Keys - {s.room.host} && Next(s, e).room.host == s.room.host
  {
    hide Range;
  }

  lemma OthersStay(s: Sys, e: Event, g: Guild)
    requires !OfReader(e) && g in s.owners && g != e.g
    ensures var t := Next(s, e);
            && g in t.owners && t.owners[g] == s.owners[g] && (g in t.room.outs <==> g in s.room.outs)
            && (g in s.room.outs ==> t.room.outs[g] == s.room.outs[g])
  {
  }

  lemma NextKeepsWired(s: Sys, e: Event)
    requires Wired(s)
    ensures Wired(Next(s, e)) && Next(s, e).room.host == s.room.host
  {
    GuestsFollow(s, e);
    if !OfReader(e) && e.g in s.owners {
      hide OnAir, Open, Next;
      var t := Next(s, e);
      MoverWired(s, e);
      assert t.owners.Keys == s.owners.Keys by { OwnersStay(s, e); }
      forall g | g in t.owners
        ensures OwnerWired(t.room, g, t.owners[g])
      {
        if g != e.g { OthersStay(s, e, g); }
      }
    }
  }

  lemma OwnersStay(s: Sys, e: Event)
    ensures Next(s, e).owners.Keys == s.owners.Keys
  {
  }

  lemma {:induction false} RunKeepsWired(s: Sys, es: seq<Event>)
    requires Wired(s)
    ensures Wired(Run(s, es)) && Run(s, es).room.host == s.room.host
  {
    hide Wired, Next;
    if es != [] {
      RunKeepsWired(s, es[..|es| - 1]);
      NextKeepsWired(Run(s, es[..|es| - 1]), es[|es| - 1]);
    }
  }

  /** A guild that has finished registering channels and not begun to close them. */
  predicate Registered(s: Sys, g: Guild) {
    g in s.owners && s.owners[g].turn == Idle && !s.owners[g].closed && s.owners[g].chs != []
  }

  /** Over every run, a registered guild is in the broadcast table with exactly its
      channels, and the guests are the guilds in the table but the host. */
  lemma {:induction false} RegisteredIsListed(host: Guild, guests: set<Guild>, es: seq<Event>, g: Guild)
    ensures var s := Run(Start(host, guests), es);
            && (Registered(s, g) ==> g in s.room.outs && s.room.outs[g] == s.owners[g].chs)
            && s.room.guests == s.room.outs.Keys - {host}
  {
    hide Next;
    RunKeepsWired(Start(host, guests), es);
  }

  /** The channels thread `t` sends on over a run, in order. */
  function SentBy(s: Sys, es: seq<Event>, t: Thread): seq<Chan> {
    if es == [] then []
    else
      var u := Run(s, es[..|es| - 1]);
      SentBy(s, es[..|es| - 1], t)
        + if es[|es| - 1] == SendOne(t) && t in u.readers && u.readers[t].chs != [] then [u.readers[t].chs[0]] else []
  }

  /** Nobody's channels but those of `exclude` and of the guilds in `left`. */
  predicate ToReach(outs: map<Guild, seq<Chan>>, exclude: Guild, left: set<Guild>, c: Chan) {
    exists g :: g in outs && g != exclude && g !in left && c in outs[g]
  }

  predicate NoRepeats(chs: seq<Chan>) {
    forall i, j :: 0 <= i < j < |chs| ==> chs[i] != chs[j]
  }

  /** No channel is listed twice. */
  ghost predicate ListedOnce(outs: map<Guild, seq<Chan>>) {
    && (forall g :: g in outs ==> NoRepeats(outs[g]))
    && (forall g, h, c :: g in outs && h in outs && g != h && c in outs[g] ==> c !in outs[h])
  }

  lemma TableListsOnce(s: Sys)
    requires Inv(s)
    ensures ListedOnce(s.room.outs)
  {
    hide Apart;
    forall g | g in s.room.outs
      ensures NoRepeats(s.room.outs[g]) && forall c :: c in s.room.outs[g] ==> c in s.owners[g].ever
    {
      InvOwner(s, g);
    }
    forall g, h, c | g in s.room.outs && h in s.room.outs && g != h && c in s.room.outs[g]
      ensures c !in s.room.outs[h]
    {
      assert Apart(s.owners[g], s.owners[h]) && c in s.owners[g].ever;
      ApartMeans(s.owners[g], s.owners[h], c);
    }
  }

  lemma ApartMeans(o: Owner, p: Owner, c: Chan)
    requires Apart(o, p) && c in o.ever
    ensures c !in p.ever
  {
  }

  /** Half-way through a broadcast that began on `outs`: what was sent and what is
      about to be sent are the channels of the guilds visited. */
  ghost predicate HalfWay(outs: map<Guild, seq<Chan>>, exclude: Guild, u: Sys, t: Thread, sent: seq<Chan>) {
    && t in u.readers && u.room.outs == outs && u.readers[t].exclude == exclude
    && (forall c :: c in sent + u.readers[t].chs <==> ToReach(outs, exclude, u.readers[t].left, c))
    && NoRepeats(sent + u.readers[t].chs)
  }

  lemma BeginsHalfWay(s: Sys, t: Thread, exclude: Guild)
    requires t !in s.readers
    ensures HalfWay(s.room.outs, exclude, Next(s, BeginBroadcast(t, exclude)), t, [])
  {
  }

  lemma NextGuildHalfWay(outs: map<Guild, seq<Chan>>, exclude: Guild, u: Sys, t: Thread, sent: seq<Chan>, g: Guild)
    requires ListedOnce(outs) && HalfWay(outs, exclude, u, t, sent)
    ensures HalfWay(outs, exclude, Next(u, NextGuild(t, g)), t, sent)
  {
    var (r, v) := (u.readers[t], Next(u, NextGuild(t, g)));
    if v != u {
      var chs := v.readers[t].chs;
      assert sent + r.chs == sent;
      forall c ensures c in sent + chs <==> ToReach(outs, exclude, v.readers[t].left, c) {
        assert c in sent <==> ToReach(outs, exclude, r.left, c);
        if c in chs { assert g != exclude && c in outs[g]; }
        if ToReach(outs, exclude, v.readers[t].left, c) {
          var h :| h in outs && h != exclude && h !in v.readers[t].left && c in outs[h];
          assert h == g || h !in r.left;
        }
      }
      forall i, j | 0 <= i < j < |sent + chs|
        ensures (sent + chs)[i] != (sent + chs)[j]
      {
        if i < |sent| <= j {
          assert sent[i] in sent && ToReach(outs, exclude, r.left, sent[i]) && chs[j - |sent|] in outs[g];
        }
      }
    }
  }

  lemma SendHalfWay(outs: map<Guild, seq<Chan>>, exclude: Guild, u: Sys, t: Thread, sent: seq<Chan>)
    requires HalfWay(outs, exclude, u, t, sent) && u.readers[t].chs != []
    ensures HalfWay(outs, exclude, Next(u, SendOne(t)), t, sent + [u.readers[t].chs[0]])
  {
    var chs := u.readers[t].chs;
    assert sent + chs == sent + [chs[0]] + chs[1..];
  }

  /** While a broadcast is under way the table stays, and other steps leave the
      broadcast alone. */
  lemma OthersHalfWay(outs: map<Guild, seq<Chan>>, exclude: Guild, u: Sys, e: Event, t: Thread, sent: seq<Chan>)
    requires HalfWay(outs, exclude, u, t, sent) && t in Next(u, e).readers
    requires !(e.NextGuild? && e.t == t) && !(e == SendOne(t) && u.readers[t].chs != [])
    ensures HalfWay(outs, exclude, Next(u, e), t, sent)
  {
    hide ToReach, NoRepeats;
    assert u.readers != map[];
    assert Next(u, e).room.outs == outs && Next(u, e).readers[t] == u.readers[t];
  }

  lemma {:induction false} StaysHalfWay(s: Sys, t: Thread, exclude: Guild, es: seq<Event>)
    requires ListedOnce(s.room.outs) && t !in s.readers
    requires forall n :: 0 <= n <= |es| ==> t in Run(Next(s, BeginBroadcast(t, exclude)), es[..n]).readers
    ensures var u := Next(s, BeginBroadcast(t, exclude));
            HalfWay(s.room.outs, exclude, Run(u, es), t, SentBy(u, es, t))
  {
    hide ListedOnce, HalfWay, Next;
    var s1 := Next(s, BeginBroadcast(t, exclude));
    if es == [] {
      BeginsHalfWay(s, t, exclude);
    } else {
      var (k, front, e) := (|es| - 1, es[..|es| - 1], es[|es| - 1]);
      forall n | 0 <= n <= k ensures t in Run(s1, front[..n]).readers {
        assert front[..n] == es[..n];
      }
      StaysHalfWay(s, t, exclude, front);
      assert es[..|es|] == es;
      OneStepHalfWay(s.room.outs, exclude, Run(s1, front), e, t, SentBy(s1, front, t));
    }
  }

  lemma OneStepHalfWay(outs: map<Guild, seq<Chan>>, exclude: Guild, u: Sys, e: Event, t: Thread, sent: seq<Chan>)
    requires ListedOnce(outs) && HalfWay(outs, exclude, u, t, sent) && t in Next(u, e).readers
    ensures t in u.readers
    ensures HalfWay(outs, exclude, Next(u, e), t,
                    sent + if e == SendOne(t) && u.readers[t].chs != [] then [u.readers[t].chs[0]] else [])
  {
    hide ListedOnce, Next;
    assert sent + [] == sent;
    if e.NextGuild? && e.t == t {
      NextGuildHalfWay(outs, exclude, u, t, sent, e.g);
    } else if e == SendOne(t) && u.readers[t].chs != [] {
      SendHalfWay(outs, exclude, u, t, sent);
    } else {
      OthersHalfWay(outs, exclude, u, e, t, sent);
    }
  }

  /** However others interleave, a broadcast that runs from its start to its end
      sends exactly once on each channel of each guild in the table but the
      excluded one; so on each channel of every other registered guild. */
  lemma {:induction false} BroadcastReachesAll(host: Guild, guests: set<Guild>, before: seq<Event>, t: Thread, exclude: Guild,
                                               es: seq<Event>)
    requires var s := Run(Start(host, guests), before);
             var u := Next(s, BeginBroadcast(t, exclude));
             && t !in s.readers && (forall n :: 0 <= n <= |es| ==> t in Run(u, es[..n]).readers)
             && t !in Next(Run(u, es), FinishBroadcast(t)).readers
    ensures var s := Run(Start(host, guests), before);
            var sent := SentBy(Next(s, BeginBroadcast(t, exclude)), es, t);
            && (forall c :: c in sent <==> exists g :: g in s.room.outs && g != exclude && c in s.room.outs[g])
            && NoRepeats(sent)
            && (forall g, c :: Registered(s, g) && g != exclude && c in s.owners[g].chs ==> c in sent)
  {
    hide Inv, Next, Wired, ListedOnce;
    var s := Run(Start(host, guests), before);
    StartInv(host, guests);
    RunKeepsInv(Start(host, guests), before);
    TableListsOnce(s);
    StaysHalfWay(s, t, exclude, es);
    var u := Run(Next(s, BeginBroadcast(t, exclude)), es);
    assert es[..|es|] == es;
    FinishingMeans(u, t);
    var sent := SentBy(Next(s, BeginBroadcast(t, exclude)), es, t);
    assert sent + u.readers[t].chs == sent;
    forall c ensures c in sent <==> exists g :: g in s.room.outs && g != exclude && c in s.room.outs[g] {
      assert c in sent <==> ToReach(s.room.outs, exclude, {}, c);
    }
    forall g, c | Registered(s, g) && g != exclude && c in s.owners[g].chs
      ensures c in sent
    {
      RegisteredIsListed(host, guests, before, g);
    }
  }

  lemma FinishingMeans(u: Sys, t: Thread)
    requires t in u.readers && t !in Next(u, FinishBroadcast(t)).readers
    ensures u.readers[t].left == {} && u.readers[t].chs == []
  {
  }
}
