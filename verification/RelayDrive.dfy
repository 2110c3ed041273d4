/** Whole calls on a session's objects, one after the other, are runs of the
    state machine of `Relay`. */
module RelayDrive {
  import opened Relay

  /** A guest joins with the channels its relay inputs make, and leaves by
      detaching first and closing them second. */
  datatype Call =
    | HostRegister(count: nat)
    | HostClose
    | Join(g: Guild, count: nat, attach: bool)
    | Leave(g: Guild)
    | Mark(g: Guild)
    | Watch(g: Guild)

  function Repeat(e: Event, n: nat): seq<Event> {
    seq(n, _ => e)
  }

  function Registering(g: Guild, count: nat, attach: bool): seq<Event> {
    [BeginRegister(g, count), AddStep(g, attach), StoreStep(g)]
  }

  function Closes(g: Guild, channels: nat): seq<Event> {
    [BeginClose(g), RemoveStep(g)] + Repeat(CloseOne(g), channels + 1)
  }

  function ChannelsOf(s: Sys, g: Guild): nat {
    if g in s.owners then |s.owners[g].chs| else 0
  }

  /** The statements a call runs. */
  function Expand(s: Sys, c: Call): seq<Event> {
    match c
    case HostRegister(count) => Registering(s.room.host, count, false)
    case HostClose => Closes(s.room.host, ChannelsOf(s, s.room.host))
    case Join(g, count, attach) => if g == s.room.host then [] else Registering(g, count, attach)
    case Leave(g) => if g == s.room.host then [] else Closes(g, ChannelsOf(s, g))
    case Mark(g) => [SetCapturing(g)]
    case Watch(g) => [SetRouteObserver(g)]
  }

  function Trace(host: Guild, guests: set<Guild>, calls: seq<Call>): seq<Event> {
    if calls == [] then []
    else
      var front := Trace(host, guests, calls[..|calls| - 1]);
      front + Expand(Run(Start(host, guests), front), calls[|calls| - 1])
  }

  lemma {:induction false} RunTwice(s: Sys, a: seq<Event>, b: seq<Event>)
    ensures Run(s, a + b) == Run(Run(s, a), b)
  {
    hide Next;
    if b == [] {
      assert a + b == a;
    } else {
      assert (a + b)[..|a + b| - 1] == a + b[..|b| - 1];
      RunTwice(s, a, b[..|b| - 1]);
    }
  }

  lemma {:induction false} RunMore(s: Sys, es: seq<Event>, e: Event)
    ensures Run(s, es + [e]) == Next(Run(s, es), e)
  {
    assert (es + [e])[..|es|] == es;
  }

  lemma {:induction false} RunOne(s: Sys, e: Event)
    ensures Run(s, [e]) == Next(s, e)
  {
    RunMore(s, [], e);
    assert [] + [e] == [e];
  }

  lemma {:induction false} RunTwo(s: Sys, a: Event, b: Event)
    ensures Run(s, [a, b]) == Next(Next(s, a), b)
  {
    RunOne(s, a);
    RunMore(s, [a], b);
    assert [a] + [b] == [a, b];
  }

  lemma {:induction false} RunThree(s: Sys, a: Event, b: Event, c: Event)
    ensures Run(s, [a, b, c]) == Next(Next(Next(s, a), b), c)
  {
    RunTwo(s, a, b);
    RunMore(s, [a, b], c);
    assert [a, b] + [c] == [a, b, c];
  }

  /** `s` with another owner of `g`, and another room, stock and shut channels. */
  function Put(s: Sys, g: Guild, o: Owner, room: Room, next: Chan, shut: multiset<Chan>, panicked: bool): Sys {
    s.(owners := s.owners[g := o], room := room, next := next, shut := shut, panicked := panicked)
  }

  lemma PutTwice(s: Sys, g: Guild, o: Owner, p: Owner, room: Room, next: Chan, shut: multiset<Chan>, panicked: bool,
                 room': Room, next': Chan, shut': multiset<Chan>, panicked': bool)
    ensures Put(Put(s, g, o, room, next, shut, panicked), g, p, room', next', shut', panicked')
            == Put(s, g, p, room', next', shut', panicked')
  {
    assert s.owners[g := o][g := p] == s.owners[g := p];
  }

  lemma PutBack(s: Sys, g: Guild)
    requires g in s.owners
    ensures Put(s, g, s.owners[g], s.room, s.next, s.shut, s.panicked) == s
  {
    assert s.owners[g := s.owners[g]] == s.owners;
  }

  /** Every call finds the session at rest. */
  ghost predicate AtRest(s: Sys) {
    s.readers == map[] && forall g :: g in s.owners ==> s.owners[g].turn == Idle
  }

  /** An owner with the channels it made. */
  function Stocked(o: Owner, made: seq<Chan>): Owner {
    o.(chs := made, ever := o.ever + set c | c in made)
  }

  /** The room once an owner has added what it made. */
  function Added(s: Sys, g: Guild, made: seq<Chan>, attach: bool): Room
    requires g in s.owners
  {
    if (attach && s.owners[g].guest) || made != [] then Attached(s.room, g, made) else s.room
  }

  lemma {:induction false} RegisterRun(s: Sys, g: Guild, count: nat, attach: bool)
    requires AtRest(s) && g in s.owners
    ensures var o := s.owners[g];
            var made := Range(s.next, count);
            Run(s, Registering(g, count, attach)) ==
              if o.closed || o.chs != [] then s
              else Put(s, g, Stocked(o, made), Added(s, g, made, attach), s.next + count, s.shut, s.panicked)
  {
    RunThree(s, BeginRegister(g, count), AddStep(g, attach), StoreStep(g));
    if !s.owners[g].closed && s.owners[g].chs == [] {
      RegisterOpen(s, g, count, attach);
    } else {
      assert Next(s, BeginRegister(g, count)) == Next(s, AddStep(g, attach)) == Next(s, StoreStep(g)) == s;
    }
  }

  /** After a whole registration the guild holds new channels, as many as asked for,
      and with some, or as a guest that attaches, it is in the table with them. */
  lemma {:induction false} RegisterLists(s: Sys, g: Guild, count: nat, attach: bool)
    requires AtRest(s) && g in s.owners && !s.owners[g].closed && s.owners[g].chs == []
    ensures var t := Run(s, Registering(g, count, attach));
            && g in t.owners && |t.owners[g].chs| == count
            && (forall i :: 0 <= i < count ==> t.owners[g].chs[i] == s.next + i) && t.next == s.next + count
            && (count > 0 ==> Registered(t, g))
            && (count > 0 || (attach && s.owners[g].guest) ==> g in t.room.outs && t.room.outs[g] == t.owners[g].chs)
  {
    hide Run;
    RegisterRun(s, g, count, attach);
  }

  lemma RegisterOpen(s: Sys, g: Guild, count: nat, attach: bool)
    requires AtRest(s) && g in s.owners && !s.owners[g].closed && s.owners[g].chs == []
    ensures var (o, made) := (s.owners[g], Range(s.next, count));
            Next(Next(Next(s, BeginRegister(g, count)), AddStep(g, attach)), StoreStep(g))
            == Put(s, g, Stocked(o, made), Added(s, g, made, attach), s.next + count, s.shut, s.panicked)
  {
    hide Attached, Range;
    var o, made := s.owners[g], Range(s.next, count);
    var p := o.(turn := Adding(made), ever := o.ever + set c | c in made);
    var q := p.(turn := Turn.Added(made));
    var room := Added(s, g, made, attach);
    var a := Put(s, g, p, s.room, s.next + count, s.shut, s.panicked);
    var b := Put(s, g, q, room, s.next + count, s.shut, s.panicked);
    assert Next(s, BeginRegister(g, count)) == a;
    PutTwice(s, g, p, q, s.room, s.next + count, s.shut, s.panicked, room, s.next + count, s.shut, s.panicked);
    assert Next(a, AddStep(g, attach)) == b;
    PutTwice(s, g, q, q.(turn := Idle, chs := made), room, s.next + count, s.shut, s.panicked,
             room, s.next + count, s.shut, s.panicked);
    assert Next(b, StoreStep(g)) == Put(b, g, q.(turn := Idle, chs := made), room, s.next + count, s.shut, s.panicked);
  }

  lemma OneClose(s: Sys, g: Guild)
    requires g in s.owners && s.owners[g].turn.Closing?
    ensures var (o, left, t) := (s.owners[g], s.owners[g].turn.left, Next(s, CloseOne(g)));
            t == if left != []
                 then Put(s, g, o.(turn := Closing(left[1..])), s.room, s.next, s.shut + multiset{left[0]}, t.panicked)
                 else Put(s, g, if o.guest then o.(turn := Idle, chs := [], closed := false) else o.(turn := Idle),
                          s.room, s.next, s.shut, s.panicked)
  {
  }

  lemma {:induction false} CloseRun(s: Sys, g: Guild, n: nat)
    requires g in s.owners && s.owners[g].turn.Closing? && n <= |s.owners[g].turn.left|
    ensures var left := s.owners[g].turn.left;
            var t := Run(s, Repeat(CloseOne(g), n));
            t == Put(s, g, s.owners[g].(turn := Closing(left[n..])), s.room, s.next, s.shut + multiset(left[..n]), t.panicked)
  {
    hide Next;
    var left, e := s.owners[g].turn.left, CloseOne(g);
    if n == 0 {
      assert Repeat(e, 0) == [] && left[0..] == left && left[..0] == [];
      PutBack(s, g);
    } else {
      CloseRun(s, g, n - 1);
      assert Repeat(e, n) == Repeat(e, n - 1) + [e];
      RunMore(s, Repeat(e, n - 1), e);
      OneMoreClosed(s, g, n, Run(s, Repeat(e, n - 1)));
    }
  }

  /** `t` has closed all but one of the first `n` channels. */
  lemma OneMoreClosed(s: Sys, g: Guild, n: nat, t: Sys)
    requires g in s.owners && s.owners[g].turn.Closing? && 0 < n <= |s.owners[g].turn.left|
    requires var left := s.owners[g].turn.left;
             t == Put(s, g, s.owners[g].(turn := Closing(left[n - 1..])), s.room, s.next, s.shut + multiset(left[..n - 1]), t.panicked)
    ensures var (left, u) := (s.owners[g].turn.left, Next(t, CloseOne(g)));
            u == Put(s, g, s.owners[g].(turn := Closing(left[n..])), s.room, s.next, s.shut + multiset(left[..n]), u.panicked)
  {
    hide Next;
    var left := s.owners[g].turn.left;
    OneClose(t, g);
    assert left[n - 1..][1..] == left[n..] && left[..n] == left[..n - 1] + [left[n - 1]];
    assert t.shut + multiset{left[n - 1]} == s.shut + multiset(left[..n]);
    PutTwice(s, g, t.owners[g], t.owners[g].(turn := Closing(left[n..])), s.room, s.next, t.shut, t.panicked,
             s.room, s.next, s.shut + multiset(left[..n]), Next(t, CloseOne(g)).panicked);
  }

  lemma {:induction false} CloseAll(s: Sys, g: Guild)
    requires g in s.owners && s.owners[g].turn.Closing?
    ensures var (o, t) := (s.owners[g], Run(s, Repeat(CloseOne(g), |s.owners[g].turn.left| + 1)));
            t == Put(s, g, if o.guest then o.(turn := Idle, chs := [], closed := false) else o.(turn := Idle),
                     s.room, s.next, s.shut + multiset(o.turn.left), t.panicked)
  {
    hide Next;
    var (o, left, e) := (s.owners[g], s.owners[g].turn.left, CloseOne(g));
    CloseRun(s, g, |left|);
    assert left[..|left|] == left && left[|left|..] == [];
    assert Repeat(e, |left| + 1) == Repeat(e, |left|) + [e];
    RunMore(s, Repeat(e, |left|), e);
    var t := Run(s, Repeat(e, |left|));
    OneClose(t, g);
    PutTwice(s, g, t.owners[g], if o.guest then o.(turn := Idle, chs := [], closed := false) else o.(turn := Idle),
             s.room, s.next, t.shut, t.panicked, s.room, s.next, t.shut, t.panicked);
  }

  lemma {:induction false} NothingToClose(s: Sys, g: Guild, n: nat)
    requires g in s.owners ==> s.owners[g].turn == Idle
    ensures Run(s, Repeat(CloseOne(g), n)) == s
  {
    if n > 0 {
      NothingToClose(s, g, n - 1);
      assert Repeat(CloseOne(g), n) == Repeat(CloseOne(g), n - 1) + [CloseOne(g)];
      RunMore(s, Repeat(CloseOne(g), n - 1), CloseOne(g));
    }
  }

  /** The owner after a whole close. */
  function Left(o: Owner): Owner {
    if o.guest then o.(chs := []) else o.(closed := true)
  }

  /** The whole of a close, on a session at rest. */
  lemma {:induction false} ClosesRun(s: Sys, g: Guild)
    requires AtRest(s) && g in s.owners
    ensures var o := s.owners[g];
            var t := Run(s, Closes(g, |o.chs|));
            if o.closed then t == s
            else if o.chs == [] && !o.guest then t == Put(s, g, Left(o), s.room, s.next, s.shut, s.panicked)
            else t == Put(s, g, Left(o), Detached(s.room, g), s.next, s.shut + multiset(o.chs), t.panicked)
  {
    hide Run, Detached;
    var o := s.owners[g];
    RunTwo(s, BeginClose(g), RemoveStep(g));
    RunTwice(s, [BeginClose(g), RemoveStep(g)], Repeat(CloseOne(g), |o.chs| + 1));
    if o.closed {
      assert Next(s, BeginClose(g)) == s && Next(s, RemoveStep(g)) == s;
      NothingToClose(s, g, |o.chs| + 1);
    } else if o.chs == [] && !o.guest {
      var t := Put(s, g, Left(o), s.room, s.next, s.shut, s.panicked);
      assert Next(s, BeginClose(g)) == t && Next(t, RemoveStep(g)) == t;
      NothingToClose(t, g, |o.chs| + 1);
    } else {
      ClosesOpen(s, g);
    }
  }

  lemma ClosesOpen(s: Sys, g: Guild)
    requires AtRest(s) && g in s.owners && !s.owners[g].closed && (s.owners[g].chs != [] || s.owners[g].guest)
    ensures var o := s.owners[g];
            var t := Run(Next(Next(s, BeginClose(g)), RemoveStep(g)), Repeat(CloseOne(g), |o.chs| + 1));
            t == Put(s, g, Left(o), Detached(s.room, g), s.next, s.shut + multiset(o.chs), t.panicked)
  {
    hide Run, Detached;
    var o := s.owners[g];
    var removing := o.(closed := true, turn := Removing);
    var closing := o.(closed := true, turn := Closing(o.chs));
    var a := Put(s, g, removing, s.room, s.next, s.shut, s.panicked);
    assert Next(s, BeginClose(g)) == a;
    var b := Put(a, g, closing, Detached(s.room, g), s.next, s.shut, s.panicked);
    assert Next(a, RemoveStep(g)) == b;
    PutTwice(s, g, removing, closing, s.room, s.next, s.shut, s.panicked, Detached(s.room, g), s.next, s.shut, s.panicked);
    CloseAll(b, g);
    var t := Run(b, Repeat(CloseOne(g), |o.chs| + 1));
    PutTwice(s, g, closing, Left(o), Detached(s.room, g), s.next, s.shut, s.panicked,
             Detached(s.room, g), s.next, s.shut + multiset(o.chs), t.panicked);
  }

  // ---------------------------------------------------------------------------

  /** The objects hold what the state machine says. */
  ghost predicate Follows(session: Session, inputs: HostRelayInputs, guests: map<Guild, seq<Chan>>, shut: multiset<Chan>,
                          next: Chan, s: Sys)
    reads session, inputs
  {
    && AtRest(s) && session.Abs() == s.room && shut == s.shut && next == s.next
    && s.room.host in s.owners && s.room.host !in guests && s.owners.Keys == guests.Keys + {s.room.host}
    && inputs.chs == s.owners[s.room.host].chs && inputs.closed == s.owners[s.room.host].closed && !s.owners[s.room.host].guest
    && forall g :: g in guests ==> s.owners[g].guest && !s.owners[g].closed && s.owners[g].chs == guests[g]
  }

  method OnHostRegister(session: Session, inputs: HostRelayInputs, ghost guests: map<Guild, seq<Chan>>, ghost shut: multiset<Chan>,
                        next: Chan, count: nat, ghost s: Sys)
    returns (after: Chan)
    requires Follows(session, inputs, guests, shut, next, s)
    modifies session, inputs
    ensures Follows(session, inputs, guests, shut, after, Run(s, Registering(s.room.host, count, false)))
  {
    RegisterRun(s, s.room.host, count, false);
    after := next;
    if inputs.chs == [] {
      var made := Range(next, count);
      inputs.Register(session, session.host, made);
      after := if inputs.closed then next else next + count;
    }
  }

  method OnHostClose(session: Session, inputs: HostRelayInputs, ghost guests: map<Guild, seq<Chan>>, shut0: multiset<Chan>,
                     ghost next: Chan, ghost s: Sys)
    returns (shut: multiset<Chan>)
    requires Follows(session, inputs, guests, shut0, next, s)
    modifies session, inputs
    ensures Follows(session, inputs, guests, shut, next, Run(s, Closes(s.room.host, |s.owners[s.room.host].chs|)))
  {
    ClosesRun(s, s.room.host);
    var closed := inputs.Close(session, session.host);
    shut := shut0 + multiset(closed);
  }

  method OnJoin(session: Session, inputs: HostRelayInputs, guests0: map<Guild, seq<Chan>>, ghost shut: multiset<Chan>,
                next: Chan, g: Guild, count: nat, attach: bool, ghost s: Sys)
    returns (guests: map<Guild, seq<Chan>>, after: Chan)
    requires Follows(session, inputs, guests0, shut, next, s) && g in guests0
    modifies session
    ensures guests.Keys == guests0.Keys && Follows(session, inputs, guests, shut, after, Run(s, Registering(g, count, attach)))
  {
    RegisterRun(s, g, count, attach);
    guests, after := guests0, next;
    if guests[g] == [] {
      var made := Range(next, count);
      if attach || made != [] {
        var notified := session.AddGuild(g, made);
      }
      guests, after := guests[g := made], next + count;
    }
  }

  method OnLeave(session: Session, inputs: HostRelayInputs, guests0: map<Guild, seq<Chan>>, shut0: multiset<Chan>,
                 ghost next: Chan, g: Guild, ghost s: Sys)
    returns (guests: map<Guild, seq<Chan>>, shut: multiset<Chan>)
    requires Follows(session, inputs, guests0, shut0, next, s) && g in guests0
    modifies session
    ensures guests.Keys == guests0.Keys && Follows(session, inputs, guests, shut, next, Run(s, Closes(g, |s.owners[g].chs|)))
  {
    ClosesRun(s, g);
    var notified := session.RemoveGuild(g);
    shut := shut0 + multiset(guests0[g]);
    guests := guests0[g := []];
  }

  /** Over every sequence of calls the objects end as the state machine does, and
      the channels they closed are the ones it closed. */
  method Drive(host: Guild, guestIds: set<Guild>, calls: seq<Call>)
    returns (session: Session, inputs: HostRelayInputs, shut: multiset<Chan>)
    requires host !in guestIds
    ensures fresh(session) && fresh(inputs)
    ensures var s := Run(Start(host, guestIds), Trace(host, guestIds, calls));
            session.Abs() == s.room && shut == s.shut && host in s.owners
            && inputs.chs == s.owners[host].chs && inputs.closed == s.owners[host].closed
  {
    hide Next, Expand, AtRest;
    session := new Session(host);
    inputs := new HostRelayInputs();
    shut := multiset{};
    var guests: map<Guild, seq<Chan>> := map g | g in guestIds :: [];
    var next := 0;
    ghost var s := Start(host, guestIds);
    StartFollows(session, inputs, guestIds, guests);
    var i := 0;
    while i < |calls|
      invariant i <= |calls| && fresh(session) && fresh(inputs)
      invariant s == Run(Start(host, guestIds), Trace(host, guestIds, calls[..i])) && s.room.host == host
      invariant guests.Keys == guestIds && Follows(session, inputs, guests, shut, next, s)
    {
      assert calls[..i + 1][..i] == calls[..i];
      ghost var t := Run(s, Expand(s, calls[i]));
      RunTwice(Start(host, guestIds), Trace(host, guestIds, calls[..i]), Expand(s, calls[i]));
      guests, shut, next := DoCall(session, inputs, guests, shut, next, calls[i], s);
      s := t;
      i := i + 1;
    }
    assert calls[..i] == calls;
  }

  lemma StartFollows(session: Session, inputs: HostRelayInputs, guestIds: set<Guild>, guests: map<Guild, seq<Chan>>)
    requires session.Abs() == Room(session.host, map[], {}, {}, {}) && inputs.chs == [] && !inputs.closed
    requires session.host !in guestIds && guests.Keys == guestIds && forall g :: g in guests ==> guests[g] == []
    ensures Follows(session, inputs, guests, multiset{}, 0, Start(session.host, guestIds))
  {
  }

  method DoCall(session: Session, inputs: HostRelayInputs, guests0: map<Guild, seq<Chan>>, shut0: multiset<Chan>, next0: Chan,
                c: Call, ghost s: Sys)
    returns (guests: map<Guild, seq<Chan>>, shut: multiset<Chan>, next: Chan)
    requires Follows(session, inputs, guests0, shut0, next0, s)
    modifies session, inputs
    ensures guests.Keys == guests0.Keys && Run(s, Expand(s, c)).room.host == s.room.host
    ensures Follows(session, inputs, guests, shut, next, Run(s, Expand(s, c)))
  {
    guests, shut, next := guests0, shut0, next0;
    match c {
      case HostRegister(count) => next := OnHostRegister(session, inputs, guests, shut, next, count, s);
      case HostClose => shut := OnHostClose(session, inputs, guests, shut, next, s);
      case Join(g, count, attach) =>
        if g in guests {
          guests, next := OnJoin(session, inputs, guests, shut, next, g, count, attach, s);
        } else if g != session.host {
          UnknownGuild(s, g, Registering(g, count, attach));
        }
      case Leave(g) =>
        if g in guests {
          guests, shut := OnLeave(session, inputs, guests, shut, next, g, s);
        } else if g != session.host {
          UnknownGuild(s, g, Closes(g, 0));
        }
      case Mark(g) => OnMark(session, inputs, guests, shut, next, g, s);
      case Watch(g) => OnWatch(session, inputs, guests, shut, next, g, s);
    }
  }

  method OnMark(session: Session, inputs: HostRelayInputs, guests: map<Guild, seq<Chan>>, ghost shut: multiset<Chan>,
                ghost next: Chan, g: Guild, ghost s: Sys)
    requires Follows(session, inputs, guests, shut, next, s)
    modifies session
    ensures Follows(session, inputs, guests, shut, next, Run(s, [SetCapturing(g)]))
    ensures Run(s, [SetCapturing(g)]).room.host == s.room.host
  {
    RunOne(s, SetCapturing(g));
    if g in guests || g == session.host {
      var notified := session.SetCapturing(g);
    }
  }

  method OnWatch(session: Session, inputs: HostRelayInputs, guests: map<Guild, seq<Chan>>, ghost shut: multiset<Chan>,
                 ghost next: Chan, g: Guild, ghost s: Sys)
    requires Follows(session, inputs, guests, shut, next, s)
    modifies session
    ensures Follows(session, inputs, guests, shut, next, Run(s, [SetRouteObserver(g)]))
    ensures Run(s, [SetRouteObserver(g)]).room.host == s.room.host
  {
    RunOne(s, SetRouteObserver(g));
    if g in guests || g == session.host {
      session.SetRouteObserver(g);
    }
  }

  lemma {:induction false} UnknownGuild(s: Sys, g: Guild, es: seq<Event>)
    requires g !in s.owners && forall e :: e in es ==> !OfReader(e) && e.g == g
    ensures Run(s, es) == s
  {
    if es != [] {
      assert es[|es| - 1] in es;
      UnknownGuild(s, g, es[..|es| - 1]);
    }
  }

  // ---------------------------------------------------------------------------
  // Who captures

  /** At rest only a host's inputs can be closed. */
  ghost predicate Between(s: Sys) {
    && AtRest(s) && s.room.host in s.owners
    && forall g :: g in s.owners ==> (s.owners[g].guest <==> g != s.room.host) && (g != s.room.host ==> !s.owners[g].closed)
  }

  /** The call detaches the guild. */
  predicate Departs(s: Sys, c: Call, g: Guild) {
    || (c == Leave(g) && g != s.room.host)
    || (c == HostClose && g == s.room.host && g in s.owners && !s.owners[g].closed && s.owners[g].chs != [])
  }

  /** `t` is `s` after the call, as far as captures go. */
  ghost predicate CaptureMoves(s: Sys, c: Call, t: Sys, g: Guild) {
    && Between(t) && t.owners.Keys == s.owners.Keys && t.room.host == s.room.host
    && (g in s.owners ==>
          && (g in t.room.capturing <==> c == Mark(g) || (g in s.room.capturing && !Departs(s, c, g)))
          && (g in t.room.observers <==> c == Watch(g) || (g in s.room.observers && !Departs(s, c, g))))
  }

  lemma PutBetween(s: Sys, h: Guild, o: Owner, room: Room, next: Chan, shut: multiset<Chan>, panicked: bool)
    requires Between(s) && h in s.owners && room.host == s.room.host && o.turn == Idle && o.guest == s.owners[h].guest
    requires h != s.room.host ==> !o.closed
    ensures var t := Put(s, h, o, room, next, shut, panicked);
            Between(t) && t.owners.Keys == s.owners.Keys
  {
  }

  lemma {:induction false} RegisterMoves(s: Sys, c: Call, h: Guild, count: nat, attach: bool, g: Guild)
    requires Between(s) && h in s.owners && !c.Mark? && !c.Watch? && !Departs(s, c, g)
    ensures CaptureMoves(s, c, Run(s, Registering(h, count, attach)), g)
  {
    hide Run, Between, Departs;
    assert AtRest(s) by { BetweenIsAtRest(s); }
    RegisterRun(s, h, count, attach);
    var (o, made) := (s.owners[h], Range(s.next, count));
    BetweenOwner(s, h);
    PutBetween(s, h, Stocked(o, made), Added(s, h, made, attach), s.next + count, s.shut, s.panicked);
  }

  lemma {:induction false} ClosesMoves(s: Sys, c: Call, h: Guild, g: Guild)
    requires Between(s) && h in s.owners && !c.Mark? && !c.Watch?
    requires Departs(s, c, g) <==> g == h && !s.owners[h].closed && (s.owners[h].chs != [] || s.owners[h].guest)
    ensures CaptureMoves(s, c, Run(s, Closes(h, |s.owners[h].chs|)), g)
  {
    hide Run, Between, Departs, CaptureMoves, Put, Left, Detached;
    assert AtRest(s) by { BetweenIsAtRest(s); }
    ClosesRun(s, h);
    BetweenOwner(s, h);
    var o, t := s.owners[h], Run(s, Closes(h, |s.owners[h].chs|));
    if o.closed {
      SameMoves(s, c, g);
    } else if o.chs == [] && !o.guest {
      ClosedMoves(s, c, h, s.room, s.shut, s.panicked, g);
    } else {
      DetachedMoves(s, c, h, s.shut + multiset(o.chs), t.panicked, g);
    }
  }

  lemma SameMoves(s: Sys, c: Call, g: Guild)
    requires Between(s) && !c.Mark? && !c.Watch? && !Departs(s, c, g)
    ensures CaptureMoves(s, c, s, g)
  {
  }

  lemma ClosedMoves(s: Sys, c: Call, h: Guild, room: Room, shut: multiset<Chan>, panicked: bool, g: Guild)
    requires Between(s) && h in s.owners && !c.Mark? && !c.Watch? && !Departs(s, c, g) && room == s.room
    ensures CaptureMoves(s, c, Put(s, h, Left(s.owners[h]), room, s.next, shut, panicked), g)
  {
    hide Departs;
    BetweenOwner(s, h);
    PutBetween(s, h, Left(s.owners[h]), room, s.next, shut, panicked);
  }

  lemma DetachedMoves(s: Sys, c: Call, h: Guild, shut: multiset<Chan>, panicked: bool, g: Guild)
    requires Between(s) && h in s.owners && !c.Mark? && !c.Watch? && (Departs(s, c, g) <==> g == h)
    ensures CaptureMoves(s, c, Put(s, h, Left(s.owners[h]), Detached(s.room, h), s.next, shut, panicked), g)
  {
    hide Departs;
    BetweenOwner(s, h);
    PutBetween(s, h, Left(s.owners[h]), Detached(s.room, h), s.next, shut, panicked);
  }

  lemma BetweenIsAtRest(s: Sys)
    requires Between(s)
    ensures AtRest(s)
  {
  }

  lemma BetweenOwner(s: Sys, h: Guild)
    requires Between(s) && h in s.owners
    ensures s.owners[h].turn == Idle && (s.owners[h].guest <==> h != s.room.host) && (h != s.room.host ==> !s.owners[h].closed)
  {
  }

  lemma {:induction false} CaptureStep(s: Sys, c: Call, g: Guild)
    requires Between(s)
    ensures CaptureMoves(s, c, Run(s, Expand(s, c)), g)
  {
    hide Run, CaptureMoves;
    match c
    case HostRegister(count) => RegisterMoves(s, c, s.room.host, count, false, g);
    case HostClose => ClosesMoves(s, c, s.room.host, g);
    case Join(h, count, attach) =>
      if h != s.room.host && h in s.owners { RegisterMoves(s, c, h, count, attach, g); }
      else { StaysPut(s, c, Expand(s, c), g); }
    case Leave(h) =>
      if h != s.room.host && h in s.owners { ClosesMoves(s, c, h, g); }
      else { StaysPut(s, c, Expand(s, c), g); }
    case Mark(h) => MarkMoves(s, h, g);
    case Watch(h) => WatchMoves(s, h, g);
  }

  lemma {:induction false} StaysPut(s: Sys, c: Call, es: seq<Event>, g: Guild)
    requires Between(s) && (c.Join? || c.Leave?) && es == Expand(s, c) && (c.g == s.room.host || c.g !in s.owners)
    ensures CaptureMoves(s, c, Run(s, es), g)
  {
    if c.g == s.room.host {
      RunNone(s);
    } else {
      UnknownGuild(s, c.g, es);
    }
  }

  lemma {:induction false} MarkMoves(s: Sys, h: Guild, g: Guild)
    requires Between(s)
    ensures CaptureMoves(s, Mark(h), Run(s, [SetCapturing(h)]), g)
  {
    RunOne(s, SetCapturing(h));
  }

  lemma {:induction false} WatchMoves(s: Sys, h: Guild, g: Guild)
    requires Between(s)
    ensures CaptureMoves(s, Watch(h), Run(s, [SetRouteObserver(h)]), g)
  {
    RunOne(s, SetRouteObserver(h));
  }

  lemma {:induction false} RunNone(s: Sys)
    ensures Run(s, []) == s
  {
  }

  function After(host: Guild, guests: set<Guild>, calls: seq<Call>): Sys {
    Run(Start(host, guests), Trace(host, guests, calls))
  }

  lemma AfterMore(host: Guild, guests: set<Guild>, calls: seq<Call>)
    requires calls != []
    ensures var s := After(host, guests, calls[..|calls| - 1]);
            After(host, guests, calls) == Run(s, Expand(s, calls[|calls| - 1]))
  {
    hide Expand, Next;
    var front := calls[..|calls| - 1];
    RunTwice(Start(host, guests), Trace(host, guests, front), Expand(After(host, guests, front), calls[|calls| - 1]));
  }

  /** The guild has not departed since its last such call. */
  ghost predicate Standing(host: Guild, guests: set<Guild>, calls: seq<Call>, c: Call, g: Guild) {
    exists n :: 0 <= n < |calls| && LastOf(host, guests, calls, n, c, g)
  }

  ghost predicate LastOf(host: Guild, guests: set<Guild>, calls: seq<Call>, n: nat, c: Call, g: Guild)
    requires n < |calls|
  {
    calls[n] == c && forall m :: n < m < |calls| ==> !DepartsAt(host, guests, calls, m, g)
  }

  predicate DepartsAt(host: Guild, guests: set<Guild>, calls: seq<Call>, m: nat, g: Guild)
    requires m < |calls|
  {
    Departs(After(host, guests, calls[..m]), calls[m], g)
  }

  /** Over every sequence of calls, a guild counts as capturing, or as watching,
      exactly while its last mark, or watch, is newer than its last departure. */
  lemma {:induction false} CapturingIsMarked(host: Guild, guests: set<Guild>, calls: seq<Call>, g: Guild)
    requires host !in guests && g in guests + {host}
    ensures Between(After(host, guests, calls)) && After(host, guests, calls).owners.Keys == guests + {host}
    ensures After(host, guests, calls).room.host == host
    ensures g in After(host, guests, calls).room.capturing <==> Standing(host, guests, calls, Mark(g), g)
    ensures g in After(host, guests, calls).room.observers <==> Standing(host, guests, calls, Watch(g), g)
  {
    hide Expand, Next, Departs, Between, After, Standing;
    if calls == [] {
      StartIsBetween(host, guests, g);
    } else {
      var (k, front) := (|calls| - 1, calls[..|calls| - 1]);
      CapturingIsMarked(host, guests, front, g);
      AfterMore(host, guests, calls);
      CaptureStep(After(host, guests, front), calls[k], g);
      StandingMore(host, guests, calls, Mark(g), g);
      StandingMore(host, guests, calls, Watch(g), g);
    }
  }

  lemma StartIsBetween(host: Guild, guests: set<Guild>, g: Guild)
    requires host !in guests
    ensures var s := After(host, guests, []);
            Between(s) && s.owners.Keys == guests + {host} && s.room.host == host && s.room.capturing == s.room.observers == {}
    ensures forall c :: !Standing(host, guests, [], c, g)
  {
  }

  lemma StandingMore(host: Guild, guests: set<Guild>, calls: seq<Call>, c: Call, g: Guild)
    requires calls != [] && (c.Mark? || c.Watch?)
    ensures var (k, front) := (|calls| - 1, calls[..|calls| - 1]);
            Standing(host, guests, calls, c, g) <==>
              calls[k] == c || (Standing(host, guests, front, c, g) && !Departs(After(host, guests, front), calls[k], g))
  {
    hide Departs, After;
    var (k, front) := (|calls| - 1, calls[..|calls| - 1]);
    forall m: nat | m < k
      ensures DepartsAt(host, guests, calls, m, g) <==> DepartsAt(host, guests, front, m, g)
    {
      assert front[..m] == calls[..m];
    }
    if calls[k] == c {
      assert LastOf(host, guests, calls, k, c, g);
    } else {
      assert DepartsAt(host, guests, calls, k, g) <==> Departs(After(host, guests, front), calls[k], g);
      assert forall n :: 0 <= n < k ==>
        (LastOf(host, guests, calls, n, c, g) <==> LastOf(host, guests, front, n, c, g) && !DepartsAt(host, guests, calls, k, g));
    }
  }

  /** A guild's relay mixers have to run exactly while some other guild's last
      mark is newer than its last departure. */
  lemma PeersAreMarked(host: Guild, guests: set<Guild>, calls: seq<Call>, g: Guild)
    requires host !in guests && g in guests + {host}
    ensures (exists id :: id in guests + {host} && id != g && id in After(host, guests, calls).room.capturing)
            <==> (exists id :: id in guests + {host} && id != g && Standing(host, guests, calls, Mark(id), id))
  {
    forall id | id in guests + {host}
      ensures id in After(host, guests, calls).room.capturing <==> Standing(host, guests, calls, Mark(id), id)
    {
      CapturingIsMarked(host, guests, calls, id);
    }
  }
}
