/** The voice probe: reads callers and listeners off the voice-state cache. */
module VoiceProbe {
  import opened Routes
  import opened Topology
  import opened Handover
  import opened AutoRouter

  datatype Member = Member(bot: bool, roles: seq<Id>)

  /** The caches at one moment: which channel each user's voice state names, if
      any, and the members known. */
  datatype Cache = Cache(states: map<Id, Presence>, members: map<Id, Member>)

  datatype Presence = Nowhere | In(channel: Id)

  predicate Listening(c: Cache, ch: Id, u: Id) {
    u in c.states && c.states[u] == In(ch) && u in c.members && !c.members[u].bot
  }

  predicate Calling(c: Cache, ch: Id, role: Id, u: Id) {
    Listening(c, ch, u) && role in c.members[u].roles
  }

  method HasRole(roles: seq<Id>, role: Id) returns (has: bool)
    ensures has <==> role in roles
  {
    for n := 0 to |roles|
      invariant role !in roles[..n]
    {
      if roles[n] == role {
        return true;
      }
    }
    has := false;
  }

  lemma NewLast(s: seq<Id>, u: Id)
    requires NoDuplicates(s) && u !in s
    ensures NoDuplicates(s + [u])
  {
  }

  /** Every caller of the channel once, whatever order the cache is walked in. */
  method EnumerateCallers(c: Cache, ch: Id, role: Id) returns (users: seq<Id>)
    ensures NoDuplicates(users) && forall u :: u in users <==> Calling(c, ch, role, u)
  {
    users := [];
    var todo := c.states.Keys;
    while todo != {}
      invariant todo <= c.states.Keys && NoDuplicates(users)
      invariant forall u :: u in users <==> u !in todo && Calling(c, ch, role, u)
      decreases |todo|
    {
      var u :| u in todo;
      todo := todo - {u};
      if c.states[u] != In(ch) {
        continue;
      }
      if u !in c.members || c.members[u].bot {
        continue;
      }
      var has := HasRole(c.members[u].roles, role);
      if has {
        NewLast(users, u);
        users := users + [u];
      }
    }
  }

  method Listeners(c: Cache, ch: Id) returns (users: seq<Id>)
    ensures NoDuplicates(users) && forall u :: u in users <==> Listening(c, ch, u)
  {
    users := [];
    var todo := c.states.Keys;
    while todo != {}
      invariant todo <= c.states.Keys && NoDuplicates(users)
      invariant forall u :: u in users <==> u !in todo && Listening(c, ch, u)
      decreases |todo|
    {
      var u :| u in todo;
      todo := todo - {u};
      if c.states[u] == In(ch) && u in c.members && !c.members[u].bot {
        NewLast(users, u);
        users := users + [u];
      }
    }
  }

  method HasListeners(c: Cache, ch: Id) returns (has: bool)
    ensures has <==> exists u :: Listening(c, ch, u)
  {
    var users := Listeners(c, ch);
    has := |users| > 0;
    if has { assert users[0] in users; }
  }

  /** What the cache said when each channel was asked, in whatever order. */
  type Views = map<Id, Cache>

  ghost predicate Asked(g: Graph, callers: Views, listeners: Views) {
    && (forall i :: 0 <= i < |g.sources| ==> g.sources[i].channel in callers)
    && (forall k :: 0 <= k < |g.dests| ==> g.dests[k].channel in listeners)
  }

  /** The snapshot of one recomputation; the caches may change between two of
      its questions. */
  method Snapshot(g: Graph, callers: Views, listeners: Views, role: Id, relayFed: map<Id, bool>) returns (probe: Probe)
    requires Asked(g, callers, listeners)
    ensures probe.relayFed == relayFed
    ensures forall i :: 0 <= i < |g.sources| ==> Answered(probe, callers, role, g.sources[i].channel)
    ensures forall k :: 0 <= k < |g.dests| && g.dests[k].outs != [] ==>
              (Flag(probe.listeners, g.dests[k].channel) <==>
                exists u :: Listening(listeners[g.dests[k].channel], g.dests[k].channel, u))
  {
    var users: map<Id, seq<Id>>, heard: map<Id, bool> := map[], map[];
    for i := 0 to |g.sources|
      invariant forall ch :: ch in users <==> exists j :: 0 <= j < i && g.sources[j].channel == ch
      invariant forall ch :: ch in users && ch in callers ==> Answered(Probe(users, heard, relayFed), callers, role, ch)
    {
      var ch := g.sources[i].channel;
      if ch !in users {
        var found := EnumerateCallers(callers[ch], ch, role);
        users := users[ch := found];
      }
    }
    for k := 0 to |g.dests|
      invariant forall j :: 0 <= j < k && g.dests[j].outs != [] ==>
                  g.dests[j].channel in heard
                  && (heard[g.dests[j].channel] <==> exists u :: Listening(listeners[g.dests[j].channel], g.dests[j].channel, u))
    {
      if |g.dests[k].outs| > 0 {
        var has := HasListeners(listeners[g.dests[k].channel], g.dests[k].channel);
        heard := heard[g.dests[k].channel := has];
      }
    }
    probe := Probe(users, heard, relayFed);
    forall i | 0 <= i < |g.sources| ensures Answered(probe, callers, role, g.sources[i].channel) {
      assert Answered(Probe(users, map[], relayFed), callers, role, g.sources[i].channel)
             == Answered(probe, callers, role, g.sources[i].channel);
    }
  }

  ghost predicate Answered(probe: Probe, callers: Views, role: Id, ch: Id)
    requires ch in callers
  {
    ch in probe.users && NoDuplicates(probe.users[ch])
    && forall u :: u in probe.users[ch] <==> Calling(callers[ch], ch, role, u)
  }

  /** Off without a caller, mixed with two. */
  ghost predicate ByCallers(g: Graph, callers: Views, role: Id, i: nat, mode: RouteMode)
    requires i < |g.sources| && g.sources[i].channel in callers
  {
    var ch := g.sources[i].channel;
    && (mode == Off <==> forall u :: !Calling(callers[ch], ch, role, u))
    && (forall u, v :: u != v && Calling(callers[ch], ch, role, u) && Calling(callers[ch], ch, role, v) ==> mode == Mix)
  }

  lemma ModeByCallers(g: Graph, probe: Probe, callers: Views, role: Id, i: nat, mode: RouteMode)
    requires i < |g.sources| && g.sources[i].channel in callers && Answered(probe, callers, role, g.sources[i].channel)
    requires ModeByUsers(g, probe, i, mode)
    ensures ByCallers(g, callers, role, i, mode)
  {
    hide Contended, Calling;
    var ch := g.sources[i].channel;
    var users := probe.users[ch];
    if users != [] { assert users[0] in users; }
    forall u, v | u != v && Calling(callers[ch], ch, role, u) && Calling(callers[ch], ch, role, v)
      ensures mode == Mix
    {
      assert u in users && v in users;
    }
  }

  /** Snapshot and apply: by what was seen when its channel was asked about, a
      source is off exactly when there was no caller, two callers are always
      mixed, and a mixed source mixes exactly the callers. */
  method Route(r: Router, callers: Views, listeners: Views, role: Id, relayFed: map<Id, bool>, order: seq<nat>)
    requires r.Valid() && !r.closed && Order(order, |r.g.sources|) && Asked(r.g, callers, listeners)
    modifies r
    ensures r.Valid() && !r.closed && old(r.trace) <= r.trace
    ensures forall i :: 0 <= i < |r.g.sources| ==> i in r.slots && ByCallers(r.g, callers, role, i, r.slots[i].mode)
    ensures forall i, u ::
      0 <= i < |r.g.sources| && i in r.slots && r.slots[i].mode == Mix && r.g.sources[i].installable ==>
        (u in r.slots[i].activeUsers <==> Calling(callers[r.g.sources[i].channel], r.g.sources[i].channel, role, u))
  {
    hide Order, WellFormed, Wired, SlotsMatch, Ledger, SafeHistory, ModeFor, RunsFor, ModeByUsers, ByCallers;
    var probe := Snapshot(r.g, callers, listeners, role, relayFed);
    r.Recompute(probe, order);
    forall i | 0 <= i < |r.g.sources|
      ensures i in r.slots && ByCallers(r.g, callers, role, i, r.slots[i].mode)
    {
      ModeByCallers(r.g, probe, callers, role, i, r.slots[i].mode);
    }
    forall i, u | 0 <= i < |r.g.sources| && i in r.slots && r.slots[i].mode == Mix && r.g.sources[i].installable
      ensures u in r.slots[i].activeUsers <==> Calling(callers[r.g.sources[i].channel], r.g.sources[i].channel, role, u)
    {
      assert r.SourceSettled(probe, i) && Answered(probe, callers, role, r.g.sources[i].channel);
      assert u in Elements(r.slots[i].activeUsers) <==> u in Elements(probe.users[r.g.sources[i].channel]);
    }
  }
}
