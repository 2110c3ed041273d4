/** The auto-router: applies a routing decision to the audio graph one pause, one
    install at a time. */
module AutoRouter {
  import opened Routes
  import opened Topology
  import opened Handover

  const BIT63: nat := 0x8000_0000_0000_0000

  /** The router-managed state of one source slot; an empty `teardown` is a
      closure that detaches nothing. */
  datatype Slot = Slot(mode: RouteMode, teardown: set<MixerRef>, activeUsers: seq<Id>, synthIDs: map<Id, Id>)

  /** The part of the graph that audio sees at one instant: the pause flag of
      every mixer and the install of every source handle. */
  datatype Wiring = Wiring(paused: map<Id, bool>, installs: map<nat, Install>)

  /** What a voice probe answered: the callers of a channel, whether a channel
      has a listener, and whether a destination is fed by another guild. */
  datatype Probe = Probe(users: map<Id, seq<Id>>, listeners: map<Id, bool>, relayFed: map<Id, bool>)

  function UsersIn(users: map<Id, seq<Id>>, ch: Id): seq<Id> {
    if ch in users then users[ch] else []
  }

  /** The keys a map iteration ranges over, in no particular order. */
  function Positions(n: nat): (ps: set<nat>)
    ensures forall k :: k in ps <==> 0 <= k < n
  {
    if n == 0 then {} else Positions(n - 1) + {n - 1}
  }

  // ---------------------------------------------------------------------------
  // Safety of one instant, and single steps between instants

  /** No output queue is written both by a raw writer and by a running mixer. */
  ghost predicate Safe(g: Graph, w: Wiring) {
    forall i, k :: i in w.installs && 0 <= k < |g.dests| && g.dests[k].hasMixer && !Flag(w.paused, g.dests[k].channel)
                   ==> Disjoint(w.installs[i].opusTargets, g.dests[k].outs)
  }

  ghost predicate PauseStep(a: Wiring, b: Wiring, ch: Id) {
    ch in a.paused && ch in b.paused && b == a.(paused := a.paused[ch := b.paused[ch]])
  }

  ghost predicate InstallStep(a: Wiring, b: Wiring, i: nat) {
    i in b.installs && b == a.(installs := a.installs[i := b.installs[i]])
  }

  /** One `SetPaused` or one `Install`. */
  ghost predicate OneStep(a: Wiring, b: Wiring) {
    (exists ch :: PauseStep(a, b, ch)) || (exists i :: InstallStep(a, b, i))
  }

  ghost predicate SafeHistory(g: Graph, trace: seq<Wiring>) {
    && (forall n :: 0 <= n < |trace| ==> Safe(g, trace[n]))
    && (forall n :: 0 < n < |trace| ==> OneStep(trace[n - 1], trace[n]))
  }

  // ---------------------------------------------------------------------------
  // Synthetic input ids

  /** Bit 63 of a 64-bit id is set; only the low bits come from the counter. */
  function SynthID(seed: nat): Id {
    if seed < BIT63 then BIT63 + seed else BIT63 + seed % BIT63
  }

  /** The ids and the counter after binding `users` in order. */
  function Bound(synths: map<Id, Id>, seed: nat, users: seq<Id>): (r: (map<Id, Id>, nat))
    ensures seed <= r.1
    ensures forall u :: u in r.0 <==> u in synths || u in users
    ensures forall u :: u in synths ==> r.0[u] == synths[u]
  {
    if users == [] then (synths, seed)
    else
      var n := |users| - 1;
      assert users == users[..n] + [users[n]];
      var (before, at) := Bound(synths, seed, users[..n]);
      if users[n] in before then (before, at)
      else (before[users[n] := SynthID(at + 1)], at + 1)
  }

  /** Ids in use are distinct, above every real id, and already counted. */
  ghost predicate Distinct(slots: map<nat, Slot>, seed: nat) {
    && (forall i, u :: i in slots && u in slots[i].synthIDs ==> BIT63 < slots[i].synthIDs[u] <= BIT63 + seed)
    && (forall i, u, j, v ::
          i in slots && u in slots[i].synthIDs && j in slots && v in slots[j].synthIDs
          ==> slots[i].synthIDs[u] == slots[j].synthIDs[v] ==> i == j && u == v)
  }

  lemma {:induction false} BoundFresh(synths: map<Id, Id>, seed: nat, users: seq<Id>)
    requires Bound(synths, seed, users).1 < BIT63
    ensures var (ids, at) := Bound(synths, seed, users);
            && (forall u :: u in ids && u !in synths ==> BIT63 + seed < ids[u] <= BIT63 + at)
            && (forall u, v :: u in ids && v in ids && u !in synths && v !in synths && ids[u] == ids[v] ==> u == v)
  {
    if users != [] {
      var n := |users| - 1;
      BoundFresh(synths, seed, users[..n]);
    }
  }

  /** One binding of a session: the ids a source still has, after whatever
      pruning, and the users to bind. */
  datatype Binding = Binding(synths: map<Id, Id>, users: seq<Id>)

  /** The counter before the `k`th binding of a session. */
  function SeedAt(bindings: seq<Binding>, k: nat): (seed: nat)
    requires k <= |bindings|
  {
    if k == 0 then 0 else Bound(bindings[k - 1].synths, SeedAt(bindings, k - 1), bindings[k - 1].users).1
  }

  /** The `k`th binding gave out this id. */
  predicate GivenOut(bindings: seq<Binding>, k: nat, id: Id)
    requires k < |bindings|
  {
    var ids := Bound(bindings[k].synths, SeedAt(bindings, k), bindings[k].users).0;
    exists u :: u in ids && u !in bindings[k].synths && ids[u] == id
  }

  lemma {:induction false} SeedGrows(bindings: seq<Binding>, j: nat, k: nat)
    requires j <= k <= |bindings|
    ensures SeedAt(bindings, j) <= SeedAt(bindings, k)
  {
    hide Bound;
    if j < k {
      SeedGrows(bindings, j, k - 1);
    }
  }

  /** Over a whole session no two bindings give out the same id, however the
      sources' ids were pruned in between. */
  lemma {:induction false} NeverReused(bindings: seq<Binding>, j: nat, k: nat, id: Id)
    requires j < k < |bindings| && SeedAt(bindings, |bindings|) < BIT63
    requires GivenOut(bindings, j, id)
    ensures !GivenOut(bindings, k, id)
  {
    hide GivenOut, SeedAt;
    SeedGrows(bindings, j + 1, k);
    SeedGrows(bindings, k, k + 1);
    SeedGrows(bindings, k + 1, |bindings|);
    GivenOutIsNew(bindings, j, id);
    if GivenOut(bindings, k, id) {
      GivenOutIsNew(bindings, k, id);
    }
  }

  lemma GivenOutIsNew(bindings: seq<Binding>, k: nat, id: Id)
    requires k < |bindings| && SeedAt(bindings, k + 1) < BIT63 && GivenOut(bindings, k, id)
    ensures BIT63 + SeedAt(bindings, k) < id <= BIT63 + SeedAt(bindings, k + 1)
  {
    hide Bound;
    BoundFresh(bindings[k].synths, SeedAt(bindings, k), bindings[k].users);
  }

  // ---------------------------------------------------------------------------
  // Reinstalling one source, on values

  predicate SameUsers(a: seq<Id>, b: seq<Id>) {
    |a| == |b| && forall u :: u in b ==> u in a
  }

  /** The bindings handed to the install builder: none outside mix mode. */
  function Bindings(slot: Slot, seed: nat, mode: RouteMode, users: seq<Id>): (map<Id, Id>, nat) {
    if mode == Mix then Bound(slot.synthIDs, seed, users) else (slot.synthIDs, seed)
  }

  /** The slot after a reinstall. */
  function Reinstalled(g: Graph, i: nat, slot: Slot, seed: nat, mode: RouteMode, users: seq<Id>): Slot
    requires ValidFeeds(g) && i < |g.sources|
  {
    if !g.sources[i].installable then
      Slot(mode, {}, [], Restrict(slot.synthIDs, users))
    else
      var ids := Restrict(Bindings(slot, seed, mode, users).0, users);
      Slot(mode, RefsFor(g, i, mode, ids), if mode == Mix then users else [], ids)
  }

  /** Each slot's teardown names exactly the inputs its install registered, and
      its mixed users all have an id. */
  ghost predicate SlotsMatch(g: Graph, slots: map<nat, Slot>)
    requires ValidFeeds(g)
  {
    && (forall i :: i in slots <==> 0 <= i < |g.sources|)
    && (forall i :: i in slots ==>
          && slots[i].teardown == RefsFor(g, i, slots[i].mode, Restrict(slots[i].synthIDs, slots[i].activeUsers))
          && (forall u :: u in slots[i].activeUsers ==>
                slots[i].mode == Mix && u in slots[i].synthIDs && g.sources[i].installable))
  }

  /** Apart from relay feeds, the mixers' inputs are exactly what the slots'
      installs registered. */
  ghost predicate InputsExact(slots: map<nat, Slot>, inputs: set<MixerRef>) {
    && (forall r :: r in inputs && r.input != RELAY_INPUT ==> exists i :: i in slots && r in slots[i].teardown)
    && (forall i, r :: i in slots && r in slots[i].teardown ==> r in inputs)
  }

  /** Bookkeeping holds as long as the 63-bit counter has not wrapped. */
  ghost predicate Ledger(slots: map<nat, Slot>, inputs: set<MixerRef>, seed: nat) {
    seed < BIT63 ==> Distinct(slots, seed) && InputsExact(slots, inputs)
  }

  lemma TeardownsDisjoint(g: Graph, slots: map<nat, Slot>, seed: nat, i: nat, j: nat, r: MixerRef)
    requires ValidFeeds(g) && SlotsMatch(g, slots) && Distinct(slots, seed)
    requires i in slots && j in slots && r in slots[i].teardown && r in slots[j].teardown
    ensures i == j
  {
    RefsForMember(g, i, slots[i].mode, Restrict(slots[i].synthIDs, slots[i].activeUsers), r);
    RefsForMember(g, j, slots[j].mode, Restrict(slots[j].synthIDs, slots[j].activeUsers), r);
  }

  lemma RefsAreSynthetic(g: Graph, slots: map<nat, Slot>, seed: nat, i: nat, r: MixerRef)
    requires ValidFeeds(g) && SlotsMatch(g, slots) && Distinct(slots, seed)
    requires i in slots && r in slots[i].teardown
    ensures r.input > BIT63
  {
    RefsForMember(g, i, slots[i].mode, Restrict(slots[i].synthIDs, slots[i].activeUsers), r);
  }

  /** The counter after a reinstall. */
  function SeedAfter(g: Graph, i: nat, slot: Slot, seed: nat, mode: RouteMode, users: seq<Id>): nat
    requires i < |g.sources|
  {
    if g.sources[i].installable then Bindings(slot, seed, mode, users).1 else seed
  }

  lemma ReinstallMatches(g: Graph, slots: map<nat, Slot>, seed: nat, i: nat, mode: RouteMode, users: seq<Id>)
    requires ValidFeeds(g) && SlotsMatch(g, slots) && i in slots
    ensures SlotsMatch(g, slots[i := Reinstalled(g, i, slots[i], seed, mode, users)])
  {
    var slot' := Reinstalled(g, i, slots[i], seed, mode, users);
    var active := Restrict(slot'.synthIDs, slot'.activeUsers);
    if g.sources[i].installable && mode == Mix {
      assert active == slot'.synthIDs;
    } else {
      assert active == map[];
      forall r ensures r !in RefsFor(g, i, mode, active) {
        RefsForMember(g, i, mode, active, r);
      }
      if g.sources[i].installable {
        forall r ensures r !in slot'.teardown {
          RefsForMember(g, i, mode, slot'.synthIDs, r);
        }
      }
    }
  }

  lemma ReinstallDistinct(g: Graph, slots: map<nat, Slot>, seed: nat, i: nat, mode: RouteMode, users: seq<Id>)
    requires ValidFeeds(g) && i < |g.sources| && i in slots && Distinct(slots, seed)
    requires SeedAfter(g, i, slots[i], seed, mode, users) < BIT63
    ensures Distinct(slots[i := Reinstalled(g, i, slots[i], seed, mode, users)], SeedAfter(g, i, slots[i], seed, mode, users))
  {
    if mode == Mix && g.sources[i].installable {
      BoundFresh(slots[i].synthIDs, seed, users);
    }
  }

  lemma ReinstallInputs(g: Graph, slots: map<nat, Slot>, inputs: set<MixerRef>, seed: nat, i: nat, slot': Slot)
    requires ValidFeeds(g) && SlotsMatch(g, slots) && i in slots
    requires Distinct(slots, seed) && InputsExact(slots, inputs)
    ensures InputsExact(slots[i := slot'], inputs - slots[i].teardown + slot'.teardown)
  {
    var slots' := slots[i := slot'];
    var inputs' := inputs - slots[i].teardown + slot'.teardown;
    forall j, r | j in slots' && r in slots'[j].teardown
      ensures r in inputs'
    {
      if j != i && r in slots[i].teardown {
        TeardownsDisjoint(g, slots, seed, i, j, r);
      }
    }
    forall r | r in inputs' && r.input != RELAY_INPUT
      ensures exists j :: j in slots' && r in slots'[j].teardown
    {
      if r in slot'.teardown {
        assert i in slots' && r in slots'[i].teardown;
      } else {
        var j :| j in slots && r in slots[j].teardown;
        assert j in slots' && r in slots'[j].teardown;
      }
    }
  }

  /** Replacing one slot by its reinstalled form and its old inputs by its new
      ones keeps ids distinct and the inputs exact. */
  lemma ReinstallKeepsLedger(g: Graph, slots: map<nat, Slot>, inputs: set<MixerRef>, seed: nat,
                             i: nat, mode: RouteMode, users: seq<Id>)
    requires ValidFeeds(g) && SlotsMatch(g, slots) && i in slots && Ledger(slots, inputs, seed)
    ensures var slot' := Reinstalled(g, i, slots[i], seed, mode, users);
            && SlotsMatch(g, slots[i := slot'])
            && Ledger(slots[i := slot'], inputs - slots[i].teardown + slot'.teardown, SeedAfter(g, i, slots[i], seed, mode, users))
  {
    ReinstallMatches(g, slots, seed, i, mode, users);
    if SeedAfter(g, i, slots[i], seed, mode, users) < BIT63 {
      ReinstallDistinct(g, slots, seed, i, mode, users);
      ReinstallInputs(g, slots, inputs, seed, i, Reinstalled(g, i, slots[i], seed, mode, users));
    }
  }

  // ---------------------------------------------------------------------------
  // Which installs a decision allows while which mixers run

  /** What the cascade guarantees about a decision, whatever snapshot it was
      computed from. */
  ghost predicate Coherent(g: Graph, modes: map<Id, RouteMode>, destMix: map<Id, bool>)
    requires ValidFeeds(g)
  {
    && modes.Keys == (set i | 0 <= i < |g.sources| :: g.sources[i].id)
    && forall i, k :: 0 <= i < |g.sources| && 0 <= k < |g.dests| && k in g.sources[i].feeds ==>
         && (modes[g.sources[i].id] == Copy ==> !Flag(destMix, g.dests[k].channel))
         && (modes[g.sources[i].id] == Mix ==> Flag(destMix, g.dests[k].channel))
         && forall j :: 0 <= j < |g.sources| && k in g.sources[j].feeds && modes[g.sources[i].id] == modes[g.sources[j].id] == Copy
                        ==> i == j
  }

  predicate ShouldRun(d: DestSlot, destMix: map<Id, bool>, listeners: map<Id, bool>) {
    Flag(destMix, d.channel) && (d.outs == [] || Flag(listeners, d.channel))
  }

  lemma ShouldRunAlike(g: Graph, destMix: map<Id, bool>, listeners: map<Id, bool>, k: nat)
    requires WellFormed(g) && k < |g.dests|
    ensures forall j :: 0 <= j < |g.dests| && g.dests[j].channel == g.dests[k].channel ==>
              g.dests[j].hasMixer == g.dests[k].hasMixer
              && (ShouldRun(g.dests[j], destMix, listeners) <==> ShouldRun(g.dests[k], destMix, listeners))
  {
    assert forall j :: 0 <= j < |g.dests| ==> Alike(g.dests[j], g.dests[k]);
  }

  lemma RunsWhenHeard(d: DestSlot, destMix: map<Id, bool>, listeners: map<Id, bool>)
    ensures ShouldRun(d, destMix, listeners) ==
              if Flag(destMix, d.channel) && |d.outs| > 0 && !Flag(listeners, d.channel) then false else Flag(destMix, d.channel)
  {
  }

  /** Every installed source publishes the install of its mode and bindings. */
  ghost predicate Wired(g: Graph, slots: map<nat, Slot>, installs: map<nat, Install>)
    requires ValidFeeds(g) && SlotsMatch(g, slots)
  {
    && (forall i :: i in installs ==> i in slots && g.sources[i].installable)
    && (forall i :: i in slots && g.sources[i].installable ==>
          if i in installs
          then installs[i] == InstallFor(g, i, slots[i].mode, Restrict(slots[i].synthIDs, slots[i].activeUsers))
          else slots[i].mode == Off)
  }

  function InstallsAfter(g: Graph, installs: map<nat, Install>, i: nat, mode: RouteMode, ids: map<Id, Id>): map<nat, Install>
    requires ValidFeeds(g) && i < |g.sources|
  {
    if g.sources[i].installable then installs[i := InstallFor(g, i, mode, ids)] else installs
  }

  lemma WiredAfterReinstall(g: Graph, slots: map<nat, Slot>, installs: map<nat, Install>, seed: nat,
                            i: nat, mode: RouteMode, users: seq<Id>)
    requires ValidFeeds(g) && SlotsMatch(g, slots) && Wired(g, slots, installs) && i in slots
    ensures var slot' := Reinstalled(g, i, slots[i], seed, mode, users);
            && SlotsMatch(g, slots[i := slot'])
            && Wired(g, slots[i := slot'], InstallsAfter(g, installs, i, mode, slot'.synthIDs))
  {
    hide InstallFor, SlotsMatch, Reinstalled, Restrict;
    ReinstallMatches(g, slots, seed, i, mode, users);
    SlotsAreSources(g, slots);
    ReinstalledInstall(g, i, slots[i], seed, mode, users);
  }

  lemma SlotsAreSources(g: Graph, slots: map<nat, Slot>)
    requires ValidFeeds(g) && SlotsMatch(g, slots)
    ensures forall i :: i in slots ==> i < |g.sources|
  {
  }

  /** The new slot asks for the install that is published. */
  lemma ReinstalledInstall(g: Graph, i: nat, slot: Slot, seed: nat, mode: RouteMode, users: seq<Id>)
    requires ValidFeeds(g) && i < |g.sources|
    ensures var slot' := Reinstalled(g, i, slot, seed, mode, users);
            slot'.mode == mode
            && (g.sources[i].installable ==>
                  InstallFor(g, i, mode, slot'.synthIDs) == InstallFor(g, i, mode, Restrict(slot'.synthIDs, slot'.activeUsers)))
  {
    hide InstallFor, RefsFor;
    var slot' := Reinstalled(g, i, slot, seed, mode, users);
    if mode == Mix && g.sources[i].installable {
      assert Restrict(slot'.synthIDs, slot'.activeUsers) == slot'.synthIDs;
    }
    if mode != Mix {
      IdsOnlyMatterMixed(g, i, mode, slot'.synthIDs, Restrict(slot'.synthIDs, slot'.activeUsers));
    }
  }

  lemma IdsOnlyMatterMixed(g: Graph, i: nat, mode: RouteMode, a: map<Id, Id>, b: map<Id, Id>)
    requires ValidFeeds(g) && i < |g.sources| && mode != Mix
    ensures InstallFor(g, i, mode, a) == InstallFor(g, i, mode, b)
  {
  }

  lemma SafeAfterInstall(g: Graph, w: Wiring, i: nat, install: Install)
    requires Safe(g, w)
    requires forall k :: 0 <= k < |g.dests| && g.dests[k].hasMixer && !Flag(w.paused, g.dests[k].channel)
                         ==> Disjoint(install.opusTargets, g.dests[k].outs)
    ensures Safe(g, w.(installs := w.installs[i := install]))
  {
  }

  /** No install writes into the queues of destination `k`. */
  ghost predicate Quiet(g: Graph, installs: map<nat, Install>, k: nat)
    requires k < |g.dests|
  {
    forall i :: i in installs ==> Disjoint(installs[i].opusTargets, g.dests[k].outs)
  }

  /** A source may write raw into a destination's queues only if the decision
      leaves that destination's mixer stopped. */
  lemma InstallIsQuiet(g: Graph, i: nat, mode: RouteMode, k: nat, destMix: map<Id, bool>)
    requires WellFormed(g) && i < |g.sources| && k < |g.dests|
    requires mode == Copy && k in g.sources[i].feeds ==> !Flag(destMix, g.dests[k].channel)
    requires Flag(destMix, g.dests[k].channel)
    ensures Disjoint(OpusTargets(g, i, mode), g.dests[k].outs)
  {
    if mode == Copy && g.sources[i].rawTargets == [] {
      CopyTouches(g, i, k);
    }
  }

  /** Copy and mix agree with the running mixers once a decision is fully applied. */
  lemma AppliedIsQuiet(g: Graph, slots: map<nat, Slot>, installs: map<nat, Install>,
                       modes: map<Id, RouteMode>, destMix: map<Id, bool>, users: map<Id, seq<Id>>, k: nat)
    requires WellFormed(g) && SlotsMatch(g, slots) && Wired(g, slots, installs) && Coherent(g, modes, destMix)
    requires forall i :: 0 <= i < |g.sources| ==> RunsAsDecided(g, slots, modes, users, i)
    requires k < |g.dests| && Flag(destMix, g.dests[k].channel)
    ensures Quiet(g, installs, k)
  {
    forall i | i in installs ensures Disjoint(installs[i].opusTargets, g.dests[k].outs) {
      assert RunsAsDecided(g, slots, modes, users, i);
      InstallIsQuiet(g, i, slots[i].mode, k, destMix);
    }
  }

  lemma AllQuiet(g: Graph, slots: map<nat, Slot>, installs: map<nat, Install>, modes: map<Id, RouteMode>, destMix: map<Id, bool>,
                 users: map<Id, seq<Id>>, listeners: map<Id, bool>)
    requires WellFormed(g) && SlotsMatch(g, slots) && Wired(g, slots, installs) && Coherent(g, modes, destMix)
    requires forall i :: 0 <= i < |g.sources| ==> RunsAsDecided(g, slots, modes, users, i)
    ensures forall k :: 0 <= k < |g.dests| && ShouldRun(g.dests[k], destMix, listeners) ==> Quiet(g, installs, k)
  {
    hide RunsAsDecided, WellFormed, Quiet, Wired, SlotsMatch, Coherent;
    forall k | 0 <= k < |g.dests| && ShouldRun(g.dests[k], destMix, listeners)
      ensures Quiet(g, installs, k)
    {
      AppliedIsQuiet(g, slots, installs, modes, destMix, users, k);
    }
  }

  /** Source `i` runs in its decided mode, mixing exactly the users present. */
  ghost predicate RunsAsDecided(g: Graph, slots: map<nat, Slot>, modes: map<Id, RouteMode>, users: map<Id, seq<Id>>, i: nat)
    requires i < |g.sources| && g.sources[i].id in modes
  {
    && i in slots
    && slots[i].mode == modes[g.sources[i].id]
    && (slots[i].mode == Mix && g.sources[i].installable && NoDuplicates(UsersIn(users, g.sources[i].channel)) ==>
          Elements(slots[i].activeUsers) == Elements(UsersIn(users, g.sources[i].channel)))
  }

  lemma DecidedMode(g: Graph, slots: map<nat, Slot>, modes: map<Id, RouteMode>, users: map<Id, seq<Id>>, i: nat)
    requires i < |g.sources| && g.sources[i].id in modes && RunsAsDecided(g, slots, modes, users, i)
    ensures i in slots && slots[i].mode == ModeOf(modes, g.sources[i].id)
    ensures slots[i].mode == Mix && g.sources[i].installable && NoDuplicates(UsersIn(users, g.sources[i].channel)) ==>
              Elements(slots[i].activeUsers) == Elements(UsersIn(users, g.sources[i].channel))
  {
  }

  lemma OthersRunAsBefore(g: Graph, before: map<nat, Slot>, after: map<nat, Slot>, modes: map<Id, RouteMode>,
                          users: map<Id, seq<Id>>, i: nat, j: nat)
    requires j < |g.sources| && g.sources[j].id in modes && i != j
    requires i in after && after == before[i := after[i]]
    requires RunsAsDecided(g, before, modes, users, j)
    ensures RunsAsDecided(g, after, modes, users, j)
  {
  }

  // ---------------------------------------------------------------------------
  // The skip test for an unchanged user set

  predicate NoDuplicates(s: seq<Id>) {
    forall i, j :: 0 <= i < j < |s| ==> s[i] != s[j]
  }

  method SameUserSet(a: seq<Id>, b: seq<Id>) returns (same: bool)
    ensures same == SameUsers(a, b)
  {
    if |a| != |b| {
      return false;
    }
    var seen := {};
    for n := 0 to |a|
      invariant seen == set u | u in a[..n]
    {
      assert a[..n + 1] == a[..n] + [a[n]];
      seen := seen + {a[n]};
    }
    assert a[..|a|] == a;
    for n := 0 to |b|
      invariant forall u :: u in b[..n] ==> u in a
    {
      assert b[..n + 1] == b[..n] + [b[n]];
      if b[n] !in seen {
        return false;
      }
    }
    assert b[..|b|] == b;
    same := true;
  }

  function Elements(s: seq<Id>): (r: set<Id>)
    ensures forall u :: u in r <==> u in s
  {
    if s == [] then {}
    else
      assert s == s[..|s| - 1] + [s[|s| - 1]];
      Elements(s[..|s| - 1]) + {s[|s| - 1]}
  }

  lemma LastIsNew(s: seq<Id>, n: nat)
    requires |s| == n + 1
    ensures NoDuplicates(s) <==> NoDuplicates(s[..n]) && s[n] !in s[..n]
  {
    var t := s[..n];
    if s[n] in t {
      var j :| 0 <= j < n && t[j] == s[n];
      assert s[j] == s[n];
    }
    if NoDuplicates(s) {
      forall i, j | 0 <= i < j < n ensures t[i] != t[j] {
        assert s[i] != s[j];
      }
    }
    if NoDuplicates(t) && s[n] !in t {
      forall i, j | 0 <= i < j < |s| ensures s[i] != s[j] {
        assert t[i] == s[i];
        if j < n { assert t[j] == s[j]; }
      }
    }
  }

  lemma {:induction false} DistinctCount(s: seq<Id>)
    ensures |Elements(s)| <= |s|
    ensures |Elements(s)| == |s| <==> NoDuplicates(s)
  {
    if s != [] {
      hide NoDuplicates, Elements;
      var n := |s| - 1;
      var front := s[..n];
      DistinctCount(front);
      LastIsNew(s, n);
      ElementsOf(s, n);
      OneMoreElement(Elements(front), s[n]);
    }
  }

  lemma {:induction false} ElementsOf(s: seq<Id>, n: nat)
    requires |s| == n + 1
    ensures Elements(s) == Elements(s[..n]) + {s[n]}
  {
  }

  lemma OneMoreElement(s: set<Id>, x: Id)
    ensures |s + {x}| == |s| + if x in s then 0 else 1
  {
    if x in s { assert s + {x} == s; }
  }

  /** The test answers right about `b` against every list it can be compared with. */
  ghost predicate Decides(b: seq<Id>) {
    forall a :: NoDuplicates(a) ==> (SameUsers(a, b) <==> Elements(a) == Elements(b))
  }

  /** No skip is wrong: whoever the test calls unchanged is unchanged. */
  ghost predicate SkipsRightly(b: seq<Id>) {
    forall a :: NoDuplicates(a) && SameUsers(a, b) ==> Elements(a) == Elements(b)
  }

  /** The skip test is set equality exactly for lists that name nobody twice; for
      any other there is a source it would wrongly leave alone. */
  lemma SameUsersIsSetEquality(b: seq<Id>)
    ensures NoDuplicates(b) <==> Decides(b)
    ensures NoDuplicates(b) <==> SkipsRightly(b)
  {
    DistinctCount(b);
    if NoDuplicates(b) {
      forall a | NoDuplicates(a)
        ensures SameUsers(a, b) <==> Elements(a) == Elements(b)
      {
        DistinctCount(a);
        if SameUsers(a, b) { SubsetOfSameSize(Elements(b), Elements(a)); }
      }
    } else {
      var a := Padded(b);
      DistinctCount(a);
      assert NoDuplicates(a) && SameUsers(a, b) && |Elements(a)| > |Elements(b)|;
    }
  }

  lemma {:induction false} SkipIsRight(a: seq<Id>, b: seq<Id>)
    ensures NoDuplicates(b) && SameUsers(a, b) ==> Elements(a) == Elements(b)
    ensures NoDuplicates(a) && NoDuplicates(b) && Elements(a) == Elements(b) ==> SameUsers(a, b)
  {
    DistinctCount(a);
    DistinctCount(b);
    if NoDuplicates(b) && SameUsers(a, b) { SubsetOfSameSize(Elements(b), Elements(a)); }
    if Elements(a) == Elements(b) {
      forall u | u in b ensures u in a {
        assert u in Elements(b);
      }
    }
  }

  /** The source already has its mode and, when mixing, exactly the users listed. */
  ghost predicate Unchanged(slot: Slot, mode: RouteMode, users: seq<Id>) {
    && slot.mode == mode
    && (mode == Mix ==> NoDuplicates(slot.activeUsers) && NoDuplicates(users) && Elements(slot.activeUsers) == Elements(users))
  }

  lemma {:induction false} UnchangedIsSame(slot: Slot, mode: RouteMode, users: seq<Id>)
    requires Unchanged(slot, mode, users)
    ensures slot.mode == mode && (mode == Mix ==> SameUsers(slot.activeUsers, users))
  {
    SkipIsRight(slot.activeUsers, users);
  }

  /** As many users as `b` names, all different and everybody in `b` among them. */
  function Padded(b: seq<Id>): (a: seq<Id>)
    ensures |a| == |b| && NoDuplicates(a) && forall u :: u in b ==> u in a
  {
    if b == [] then []
    else
      var (front, last) := (b[..|b| - 1], b[|b| - 1]);
      var rest := Padded(front);
      assert b == front + [last];
      var a := rest + [if last in rest then Unused(rest) else last];
      LastIsNew(a, |rest|);
      a
  }

  function Unused(s: seq<Id>): (id: Id)
    ensures forall u :: u in s ==> u < id
  {
    if s == [] then 0
    else
      var (front, last) := (s[..|s| - 1], s[|s| - 1]);
      assert s == front + [last];
      if Unused(front) > last then Unused(front) else last + 1
  }

  lemma SubsetOfSameSize(small: set<Id>, big: set<Id>)
    requires small <= big && |big| <= |small|
    ensures small == big
  {
    assert big == small + (big - small);
    assert |big| == |small| + |big - small|;
  }

  // ---------------------------------------------------------------------------
  // From a probe to a coherent decision

  function SourcesOf(g: Graph): seq<RouteSource> {
    seq(|g.sources|, i requires 0 <= i < |g.sources| => RouteSource(g.sources[i].id, g.sources[i].channel))
  }

  function DestsOf(g: Graph): seq<RouteDest> {
    seq(|g.dests|, k requires 0 <= k < |g.dests| => RouteDest(g.dests[k].channel, g.dests[k].sources))
  }

  function CountsOf(probe: Probe): map<Id, int> {
    map ch | ch in probe.users :: |probe.users[ch]|
  }

  function BaselineFor(g: Graph, probe: Probe): map<Id, RouteMode> {
    Baseline(SourcesOf(g), CountsOf(probe))
  }

  /** The mode the cascade gives a source on one probe. */
  function ModeFor(g: Graph, probe: Probe, i: nat): RouteMode
    requires i < |g.sources|
  {
    FinalMode(BaselineFor(g, probe), DestsOf(g), probe.relayFed, g.sources[i].id)
  }

  /** The cascade gives the destination's mixer something to mix. */
  predicate MixFor(g: Graph, probe: Probe, k: nat)
    requires k < |g.dests|
  {
    FinalDestMix(BaselineFor(g, probe), DestsOf(g), probe.relayFed, g.dests[k].channel)
  }

  predicate RunsFor(g: Graph, probe: Probe, k: nat)
    requires k < |g.dests|
  {
    MixFor(g, probe, k) && (g.dests[k].outs == [] || Flag(probe.listeners, g.dests[k].channel))
  }

  predicate Listed(ids: seq<Id>, id: Id, twice: bool) {
    if twice then exists a, b :: 0 <= a < b < |ids| && ids[a] == ids[b] == id else id in ids
  }

  /** Some destination the source feeds is fed from elsewhere too: by another
      guild, by a source whose channel has a caller, or by this one once more. */
  ghost predicate Contended(g: Graph, probe: Probe, i: nat)
    requires i < |g.sources|
  {
    exists k :: 0 <= k < |g.dests| && k in g.sources[i].feeds && ContendedAt(g, probe, i, k)
  }

  ghost predicate ContendedAt(g: Graph, probe: Probe, i: nat, k: nat)
    requires i < |g.sources| && k < |g.dests|
  {
    || Flag(probe.relayFed, g.dests[k].channel)
    || Listed(g.dests[k].sources, g.sources[i].id, true)
    || exists j :: 0 <= j < |g.sources| && j != i && k in g.sources[j].feeds
                                                  && g.sources[j].channel in probe.users && probe.users[g.sources[j].channel] != []
  }

  /** The mode a source has to have, told by the users the probe lists: off
      without a caller, mixed with two, or with one where somebody else is heard
      at a destination too. */
  ghost predicate ModeByUsers(g: Graph, probe: Probe, i: nat, mode: RouteMode)
    requires i < |g.sources|
  {
    var ch := g.sources[i].channel;
    var users := if ch in probe.users then probe.users[ch] else [];
    && (mode == Off <==> users == [])
    && (mode == Mix <==> |users| >= 2 || (|users| == 1 && Contended(g, probe, i)))
  }

  /** A mixer has something to mix if another guild feeds its destination or some
      source that feeds it is mixed. */
  ghost predicate Needed(g: Graph, probe: Probe, modes: Modes, k: nat)
    requires k < |g.dests|
  {
    || Flag(probe.relayFed, g.dests[k].channel)
    || exists i :: 0 <= i < |g.sources| && k in g.sources[i].feeds && i in modes && modes[i] == Mix
  }

  lemma {:induction false} CallersAreUsers(g: Graph, probe: Probe, i: nat)
    requires WellFormed(g) && i < |g.sources|
    ensures var base := ModeOf(BaselineFor(g, probe), g.sources[i].id);
            var users := UsersIn(probe.users, g.sources[i].channel);
            (base == Off <==> users == []) && (base == Copy <==> |users| == 1)
  {
    assert SourcesOf(g)[i].id == g.sources[i].id;
    assert UniqueSources(SourcesOf(g));
    BaselineOf(SourcesOf(g), CountsOf(probe), i);
  }

  /** What seeds a destination for a source that copies. */
  lemma {:induction false} SeededIffContended(g: Graph, probe: Probe, i: nat, k: nat)
    requires WellFormed(g) && i < |g.sources| && k < |g.dests| && k in g.sources[i].feeds
    requires ModeOf(BaselineFor(g, probe), g.sources[i].id) == Copy
    ensures Seeded(BaselineFor(g, probe), DestsOf(g)[k], probe.relayFed) <==> ContendedAt(g, probe, i, k)
  {
    hide Baseline, Seeded, CountsOf;
    var base, ids, id := BaselineFor(g, probe), g.dests[k].sources, g.sources[i].id;
    assert DestsOf(g)[k].sourceIds == ids && id in ids;
    SeededForCopy(base, DestsOf(g)[k], probe.relayFed, id);
    if AnotherLive(base, DestsOf(g)[k], id) {
      AnotherContends(g, probe, i, k);
    }
    if Listed(ids, id, true) {
      var a, b :| 0 <= a < b < |ids| && ids[a] == ids[b] == id;
      assert Live(base, ids[b]);
    }
    if j :| 0 <= j < |g.sources| && j != i && k in g.sources[j].feeds && UsersIn(probe.users, g.sources[j].channel) != [] {
      CallersAreUsers(g, probe, j);
      var a :| 0 <= a < |ids| && ids[a] == id;
      assert g.sources[j].id in ids;
      var b :| 0 <= b < |ids| && ids[b] == g.sources[j].id;
      assert a != b && Live(base, ids[b]);
    }
  }

  lemma {:induction false} AnotherContends(g: Graph, probe: Probe, i: nat, k: nat)
    requires WellFormed(g) && i < |g.sources| && k < |g.dests| && k in g.sources[i].feeds
    requires AnotherLive(BaselineFor(g, probe), DestsOf(g)[k], g.sources[i].id)
    ensures ContendedAt(g, probe, i, k)
  {
    hide Baseline, CountsOf;
    var base, ids, id := BaselineFor(g, probe), g.dests[k].sources, g.sources[i].id;
    assert DestsOf(g)[k].sourceIds == ids;
    var a, b :| 0 <= a < |ids| && 0 <= b < |ids| && a != b && ids[a] == id && Live(base, ids[b]);
    if ids[b] == id {
      assert Listed(ids, id, true) by { if a < b { assert ids[a] == ids[b] == id; } else { assert ids[b] == ids[a] == id; } }
    } else {
      var j := SourceNamed(g, k, ids[b]);
      CallersAreUsers(g, probe, j);
    }
  }

  lemma {:induction false} SourceNamed(g: Graph, k: nat, id: Id) returns (j: nat)
    requires WellFormed(g) && k < |g.dests| && id in g.dests[k].sources
    ensures j < |g.sources| && g.sources[j].id == id && k in g.sources[j].feeds
  {
    j :| 0 <= j < |g.sources| && g.sources[j].id == id;
  }

  /** The cascade decides by the users listed. */
  lemma {:induction false} DecidedByUsers(g: Graph, probe: Probe, i: nat)
    requires WellFormed(g) && i < |g.sources|
    ensures ModeByUsers(g, probe, i, ModeFor(g, probe, i))
  {
    hide Baseline, Seeded, CountsOf, ContendedAt;
    var base, id := BaselineFor(g, probe), g.sources[i].id;
    CallersAreUsers(g, probe, i);
    if ModeOf(base, id) == Copy {
      forall k | 0 <= k < |g.dests|
        ensures id in DestsOf(g)[k].sourceIds <==> k in g.sources[i].feeds
        ensures k in g.sources[i].feeds ==> (Seeded(base, DestsOf(g)[k], probe.relayFed) <==> ContendedAt(g, probe, i, k))
      {
        assert DestsOf(g)[k].sourceIds == g.dests[k].sources;
        if k in g.sources[i].feeds { SeededIffContended(g, probe, i, k); }
      }
    }
  }

  lemma {:induction false} DestNeeded(g: Graph, probe: Probe, modes: Modes, k: nat)
    requires WellFormed(g) && k < |g.dests| && Covers(g, modes)
    requires forall i :: 0 <= i < |g.sources| ==> modes[i] == ModeFor(g, probe, i)
    ensures MixFor(g, probe, k) <==> Needed(g, probe, modes, k)
  {
    hide Baseline, CountsOf;
    var base, ids := BaselineFor(g, probe), g.dests[k].sources;
    assert DestsOf(g)[k].sourceIds == ids;
    AgreeingDests(g);
    if MixFor(g, probe, k) && !Flag(probe.relayFed, g.dests[k].channel) {
      var id := LiveFeeder(g, base, probe.relayFed, k);
      var i := SourceNamed(g, k, id);
      EdgeAgreement(base, DestsOf(g), probe.relayFed, k, id);
      assert modes[i] == Mix;
    }
    if Flag(probe.relayFed, g.dests[k].channel) {
      assert NeedsMix(base, DestsOf(g), probe.relayFed, DestsOf(g)[k]);
    }
    if i :| 0 <= i < |g.sources| && k in g.sources[i].feeds && i in modes && modes[i] == Mix {
      assert g.sources[i].id in DestsOf(g)[k].sourceIds;
      EdgeAgreement(base, DestsOf(g), probe.relayFed, k, g.sources[i].id);
    }
  }

  lemma {:induction false} LiveFeeder(g: Graph, base: map<Id, RouteMode>, relayFed: map<Id, bool>, k: nat) returns (id: Id)
    requires WellFormed(g) && k < |g.dests| && FinalDestMix(base, DestsOf(g), relayFed, g.dests[k].channel)
    requires !Flag(relayFed, g.dests[k].channel)
    ensures id in g.dests[k].sources && FinalMode(base, DestsOf(g), relayFed, id) != Off
  {
    var d :| 0 <= d < |DestsOf(g)| && DestsOf(g)[d].channel == g.dests[k].channel
             && NeedsMix(base, DestsOf(g), relayFed, DestsOf(g)[d]);
    assert Alike(g.dests[d], g.dests[k]);
    var ids := DestsOf(g)[d].sourceIds;
    assert ids == g.dests[k].sources;
    if Seeded(base, DestsOf(g)[d], relayFed) {
      if TwoLive(base, ids) {
        var a, b :| 0 <= a < b < |ids| && Live(base, ids[a]) && Live(base, ids[b]);
        id := ids[a];
      } else {
        var a :| 0 <= a < |ids| && ModeOf(base, ids[a]) == Mix;
        id := ids[a];
      }
    } else {
      var a :| 0 <= a < |ids| && FinalMode(base, DestsOf(g), relayFed, ids[a]) == Mix;
      id := ids[a];
    }
  }

  lemma {:induction false} CascadeIsCoherent(g: Graph, probe: Probe, modes: map<Id, RouteMode>, destMix: map<Id, bool>)
    requires WellFormed(g)
    requires modes.Keys == set i | 0 <= i < |SourcesOf(g)| :: SourcesOf(g)[i].id
    requires forall s :: ModeOf(modes, s) == FinalMode(BaselineFor(g, probe), DestsOf(g), probe.relayFed, s)
    requires forall ch :: Flag(destMix, ch) <==> FinalDestMix(BaselineFor(g, probe), DestsOf(g), probe.relayFed, ch)
    ensures Coherent(g, modes, destMix)
  {
    assert forall i :: 0 <= i < |g.sources| ==> SourcesOf(g)[i].id == g.sources[i].id;
    AgreeingDests(g);
    forall i, k | 0 <= i < |g.sources| && 0 <= k < |g.dests| && k in g.sources[i].feeds
      ensures ModeOf(modes, g.sources[i].id) == Copy ==> !Flag(destMix, g.dests[k].channel)
      ensures ModeOf(modes, g.sources[i].id) == Mix ==> Flag(destMix, g.dests[k].channel)
    {
      assert g.sources[i].id in DestsOf(g)[k].sourceIds;
      if ModeOf(modes, g.sources[i].id) != Off {
        EdgeAgreement(BaselineFor(g, probe), DestsOf(g), probe.relayFed, k, g.sources[i].id);
      }
    }
    forall i, j, k | 0 <= i < |g.sources| && 0 <= k < |g.dests| && k in g.sources[i].feeds
                     && 0 <= j < |g.sources| && k in g.sources[j].feeds
                     && ModeOf(modes, g.sources[i].id) == ModeOf(modes, g.sources[j].id) == Copy
      ensures i == j
    {
      OneCopyPerDest(g, BaselineFor(g, probe), probe.relayFed, i, j, k);
    }
  }

  lemma OneCopyPerDest(g: Graph, base: map<Id, RouteMode>, relayFed: map<Id, bool>, i: nat, j: nat, k: nat)
    requires WellFormed(g) && i < |g.sources| && j < |g.sources| && k < |g.dests|
    requires k in g.sources[i].feeds && k in g.sources[j].feeds
    requires FinalMode(base, DestsOf(g), relayFed, g.sources[i].id) == Copy
    requires FinalMode(base, DestsOf(g), relayFed, g.sources[j].id) == Copy
    ensures i == j
  {
    var ids := g.dests[k].sources;
    assert DestsOf(g)[k].sourceIds == ids;
    AgreeingDests(g);
    EdgeAgreement(base, DestsOf(g), relayFed, k, g.sources[i].id);
    var a :| 0 <= a < |ids| && ids[a] == g.sources[i].id;
    var b :| 0 <= b < |ids| && ids[b] == g.sources[j].id;
    assert Live(base, ids[a]) && Live(base, ids[b]);
  }

  // ---------------------------------------------------------------------------
  // What an applied decision means

  /** The inputs of the mixers, relay feeds apart, are exactly the ids of the
      users whose mixed source feeds that mixer. */
  lemma InputsAreActiveUsers(g: Graph, slots: map<nat, Slot>, inputs: set<MixerRef>, r: MixerRef)
    requires ValidFeeds(g) && SlotsMatch(g, slots) && InputsExact(slots, inputs) && r.input != RELAY_INPUT
    ensures r in inputs <==>
              exists i, u :: i in slots && slots[i].mode == Mix && u in slots[i].activeUsers && slots[i].synthIDs[u] == r.input
                             && FeedsMixer(g, g.sources[i].feeds, r.channel)
  {
    forall i | i in slots
      ensures r in slots[i].teardown <==>
                slots[i].mode == Mix && (exists u :: u in slots[i].activeUsers && slots[i].synthIDs[u] == r.input)
                && FeedsMixer(g, g.sources[i].feeds, r.channel)
    {
      var ids := Restrict(slots[i].synthIDs, slots[i].activeUsers);
      RefsForMember(g, i, slots[i].mode, ids, r);
      if r in slots[i].teardown {
        var u :| u in ids && ids[u] == r.input;
        assert u in slots[i].activeUsers && slots[i].synthIDs[u] == r.input;
      }
      if u :| u in slots[i].activeUsers && slots[i].synthIDs[u] == r.input {
        assert u in ids && ids[u] == r.input;
      }
    }
  }

  /** Copy mode is an optimisation: once a probe's decision is applied, a live
      source reaches the destinations it feeds and no others, each by exactly
      one route, the raw one exactly when nothing is mixed there. Fixed raw
      targets are written in both live modes and never belong to a destination. */
  lemma AppliedRoutes(g: Graph, probe: Probe, slots: map<nat, Slot>, installs: map<nat, Install>, i: nat, k: nat, u: Id)
    requires WellFormed(g) && SlotsMatch(g, slots) && Wired(g, slots, installs)
    requires i < |g.sources| && k < |g.dests| && g.sources[i].installable && slots[i].mode == ModeFor(g, probe, i) != Off
    requires slots[i].mode == Mix ==> u in slots[i].activeUsers
    ensures i in installs
    ensures var (s, d) := (g.sources[i], g.dests[k]);
            && (RawTouches(installs[i], d) <==> s.rawTargets == [] && k in s.feeds && d.outs != [] && !MixFor(g, probe, k))
            && (RawTouches(installs[i], d) ==> RawReaches(installs[i], d))
            && (MixReaches(installs[i], d, u) <==> k in s.feeds && d.hasMixer && MixFor(g, probe, k))
            && (s.rawTargets != [] ==> installs[i].opusTargets == s.rawTargets && Disjoint(s.rawTargets, d.outs))
            && (installs[i].callback <==> s.ally && slots[i].mode == Copy)
  {
    var ids := Restrict(slots[i].synthIDs, slots[i].activeUsers);
    OneRoute(g, i, k, slots[i].mode, ids);
    if k in g.sources[i].feeds {
      assert DestsOf(g)[k].sourceIds == g.dests[k].sources;
      AgreeingDests(g);
      EdgeAgreement(BaselineFor(g, probe), DestsOf(g), probe.relayFed, k, g.sources[i].id);
    }
  }

  /** A relaying source is heard by the other guilds by exactly one of its
      broadcast and the mixer that feeds the relay. */
  lemma AllyHearsOnce(g: Graph, probe: Probe, slots: map<nat, Slot>, installs: map<nat, Install>, paused: map<Id, bool>,
                      i: nat, k: nat, u: Id)
    requires WellFormed(g) && SlotsMatch(g, slots) && Wired(g, slots, installs)
    requires i < |g.sources| && k < |g.dests| && g.sources[i].installable && slots[i].mode == ModeFor(g, probe, i) != Off
    requires slots[i].mode == Mix ==> u in slots[i].activeUsers
    requires g.sources[i].ally && k in g.sources[i].feeds && g.dests[k].hasMixer && g.dests[k].outs == []
    requires Flag(paused, g.dests[k].channel) <==> !RunsFor(g, probe, k)
    ensures i in installs
    ensures installs[i].callback <==> !(MixReaches(installs[i], g.dests[k], u) && !Flag(paused, g.dests[k].channel))
  {
    AppliedRoutes(g, probe, slots, installs, i, k, u);
    assert DestsOf(g)[k].sourceIds == g.dests[k].sources;
    AgreeingDests(g);
    EdgeAgreement(BaselineFor(g, probe), DestsOf(g), probe.relayFed, k, g.sources[i].id);
  }

  /** Source `i` mixes user `u` into the mixer of destination `k`. */
  predicate Mixes(g: Graph, slots: map<nat, Slot>, k: nat, u: Id, i: nat)
    requires k < |g.dests|
  {
    && i < |g.sources| && i in slots && slots[i].mode == Mix && u in slots[i].activeUsers && u in slots[i].synthIDs
    && k in g.sources[i].feeds && g.dests[k].hasMixer
  }

  /** An input of that mixer that carries the user. */
  ghost predicate Carries(g: Graph, slots: map<nat, Slot>, k: nat, u: Id, r: MixerRef)
    requires k < |g.dests|
  {
    exists i :: Mixes(g, slots, k, u, i) && r == MixerRef(g.dests[k].channel, slots[i].synthIDs[u])
  }

  ghost predicate HeardTwice(g: Graph, slots: map<nat, Slot>, inputs: set<MixerRef>, k: nat, u: Id)
    requires k < |g.dests|
  {
    exists r, q :: r in inputs && q in inputs && r != q && Carries(g, slots, k, u, r) && Carries(g, slots, k, u, q)
  }

  lemma MixedIsInput(g: Graph, slots: map<nat, Slot>, inputs: set<MixerRef>, k: nat, u: Id, i: nat)
    requires WellFormed(g) && SlotsMatch(g, slots) && InputsExact(slots, inputs) && k < |g.dests| && Mixes(g, slots, k, u, i)
    ensures MixerRef(g.dests[k].channel, slots[i].synthIDs[u]) in inputs
  {
    var ids, feeds := Restrict(slots[i].synthIDs, slots[i].activeUsers), g.sources[i].feeds;
    var r := MixerRef(g.dests[k].channel, slots[i].synthIDs[u]);
    var n :| 0 <= n < |feeds| && feeds[n] == k;
    assert FeedsMixer(g, feeds, r.channel);
    assert u in ids && ids[u] == r.input;
    RefsForMember(g, i, Mix, ids, r);
  }

  /** A user enters a mixer more than once exactly if more than one source mixes
      it there. */
  lemma HeardTwiceIffMixedTwice(g: Graph, slots: map<nat, Slot>, inputs: set<MixerRef>, seed: nat, k: nat, u: Id)
    requires WellFormed(g) && SlotsMatch(g, slots) && InputsExact(slots, inputs) && Distinct(slots, seed) && k < |g.dests|
    ensures HeardTwice(g, slots, inputs, k, u) <==> exists i, j :: i != j && Mixes(g, slots, k, u, i) && Mixes(g, slots, k, u, j)
  {
    hide WellFormed, SlotsMatch, InputsExact;
    if i, j :| i != j && Mixes(g, slots, k, u, i) && Mixes(g, slots, k, u, j) {
      MixedIsInput(g, slots, inputs, k, u, i);
      MixedIsInput(g, slots, inputs, k, u, j);
      var r := MixerRef(g.dests[k].channel, slots[i].synthIDs[u]);
      var q := MixerRef(g.dests[k].channel, slots[j].synthIDs[u]);
      assert Carries(g, slots, k, u, r) && Carries(g, slots, k, u, q);
    }
  }

  /** A live source of the channel feeds the destination. */
  predicate Sends(g: Graph, probe: Probe, k: nat, ch: Id, i: nat)
    requires k < |g.dests|
  {
    && i < |g.sources| && g.sources[i].installable && g.sources[i].channel == ch && ModeFor(g, probe, i) != Off
    && k in g.sources[i].feeds
  }

  /** Once a probe's decision is applied, someone who calls in one channel is
      heard twice by a destination's mixer exactly if it mixes and two live
      sources of that channel feed it. */
  lemma CallerHeardTwice(g: Graph, probe: Probe, slots: map<nat, Slot>, inputs: set<MixerRef>, seed: nat, k: nat, u: Id, ch: Id)
    requires WellFormed(g) && SlotsMatch(g, slots) && InputsExact(slots, inputs) && Distinct(slots, seed)
    requires k < |g.dests| && forall c :: u in UsersIn(probe.users, c) <==> c == ch
    requires forall i :: 0 <= i < |g.sources| ==> slots[i].mode == ModeFor(g, probe, i)
    requires forall i :: 0 <= i < |g.sources| && g.sources[i].installable && slots[i].mode == Mix ==>
               Elements(slots[i].activeUsers) == Elements(UsersIn(probe.users, g.sources[i].channel))
    ensures HeardTwice(g, slots, inputs, k, u) <==>
              g.dests[k].hasMixer && MixFor(g, probe, k)
              && exists i, j :: i != j && Sends(g, probe, k, ch, i) && Sends(g, probe, k, ch, j)
  {
    hide HeardTwice, InputsExact, Distinct, Elements;
    HeardTwiceIffMixedTwice(g, slots, inputs, seed, k, u);
    forall i: nat
      ensures Mixes(g, slots, k, u, i) <==> g.dests[k].hasMixer && MixFor(g, probe, k) && Sends(g, probe, k, ch, i)
    {
      if i < |g.sources| { MixesWhatSends(g, probe, slots, k, u, ch, i); }
    }
  }

  lemma MixesWhatSends(g: Graph, probe: Probe, slots: map<nat, Slot>, k: nat, u: Id, ch: Id, i: nat)
    requires WellFormed(g) && SlotsMatch(g, slots) && k < |g.dests| && i < |g.sources|
    requires forall c :: u in UsersIn(probe.users, c) <==> c == ch
    requires slots[i].mode == ModeFor(g, probe, i)
    requires g.sources[i].installable && slots[i].mode == Mix ==>
               Elements(slots[i].activeUsers) == Elements(UsersIn(probe.users, g.sources[i].channel))
    ensures Mixes(g, slots, k, u, i) <==> g.dests[k].hasMixer && MixFor(g, probe, k) && Sends(g, probe, k, ch, i)
  {
    if k in g.sources[i].feeds && ModeFor(g, probe, i) != Off {
      assert DestsOf(g)[k].sourceIds == g.dests[k].sources;
      AgreeingDests(g);
      EdgeAgreement(BaselineFor(g, probe), DestsOf(g), probe.relayFed, k, g.sources[i].id);
    }
    if g.sources[i].installable && slots[i].mode == Mix {
      assert u in slots[i].activeUsers <==> u in Elements(slots[i].activeUsers);
    }
  }

  lemma AgreeingDests(g: Graph)
    requires WellFormed(g)
    ensures AgreeingChannels(DestsOf(g))
  {
    forall i, j | 0 <= i < j < |g.dests| && g.dests[i].channel == g.dests[j].channel
      ensures g.dests[i].sources == g.dests[j].sources
    {
      assert Alike(g.dests[i], g.dests[j]);
    }
  }

  // ---------------------------------------------------------------------------
  // The instants of an apply

  function SlotModes(slots: map<nat, Slot>): Modes {
    map i | i in slots :: slots[i].mode
  }

  /** A decision by position. */
  function Decided(g: Graph, modes: map<Id, RouteMode>): Modes {
    map i | i in Positions(|g.sources|) && g.sources[i].id in modes :: modes[g.sources[i].id]
  }

  lemma WiredInstalled(g: Graph, slots: map<nat, Slot>, installs: map<nat, Install>)
    requires ValidFeeds(g) && SlotsMatch(g, slots) && Wired(g, slots, installs)
    ensures Covers(g, SlotModes(slots)) && Installed(g, SlotModes(slots), installs)
  {
  }

  lemma CoherentOneCopy(g: Graph, modes: map<Id, RouteMode>, destMix: map<Id, bool>, i: nat, j: nat, k: nat)
    requires ValidFeeds(g) && Coherent(g, modes, destMix) && i < |g.sources| && j < |g.sources|
    requires k in g.sources[i].feeds && k in g.sources[j].feeds
    requires g.sources[i].id in modes && g.sources[j].id in modes && modes[g.sources[i].id] == modes[g.sources[j].id] == Copy
    ensures i == j
  {
    var n :| 0 <= n < |g.sources[i].feeds| && g.sources[i].feeds[n] == k;
    var d := g.dests[k];
    assert modes[g.sources[i].id] == Copy ==> !Flag(destMix, d.channel);
  }

  /** Outside an apply a queue has two raw writers exactly if two live sources
      share it as a fixed raw target. */
  lemma SharedWriters(g: Graph, slots: map<nat, Slot>, installs: map<nat, Install>, o: Out)
    requires WellFormed(g) && SlotsMatch(g, slots) && Wired(g, slots, installs) && OneCopy(g, SlotModes(slots))
    ensures TwoWriters(installs, o) <==> SharedTarget(g, SlotModes(slots), o)
  {
    hide WellFormed, OneCopy, SlotModes, Wired, SlotsMatch;
    WellFormedFeeds(g);
    WiredInstalled(g, slots, installs);
    InstalledWriters(g, SlotModes(slots), installs, o);
    SettledWriters(g, SlotModes(slots), o);
  }

  lemma DecidedOneCopy(g: Graph, modes: map<Id, RouteMode>, destMix: map<Id, bool>)
    requires WellFormed(g) && Coherent(g, modes, destMix)
    ensures Covers(g, Decided(g, modes)) && OneCopy(g, Decided(g, modes))
  {
    forall i | 0 <= i < |g.sources| ensures g.sources[i].id in modes {
      assert g.sources[i].id in modes.Keys;
    }
    forall i: nat, j: nat, k: nat | Copying(g, Decided(g, modes), i, k) && Copying(g, Decided(g, modes), j, k)
      ensures i == j
    {
      CoherentOneCopy(g, modes, destMix, i, j, k);
    }
  }

  lemma EndsAsDecided(g: Graph, slots: map<nat, Slot>, modes: map<Id, RouteMode>, users: map<Id, seq<Id>>)
    requires ValidFeeds(g) && SlotsMatch(g, slots) && forall i :: 0 <= i < |g.sources| ==> g.sources[i].id in modes
    requires forall i :: 0 <= i < |g.sources| ==> RunsAsDecided(g, slots, modes, users, i)
    ensures SlotModes(slots) == Decided(g, modes)
  {
    forall i | 0 <= i < |g.sources| ensures i in slots && slots[i].mode == modes[g.sources[i].id] {
      assert RunsAsDecided(g, slots, modes, users, i);
    }
  }

  /** The handles dispatch as after the first `t` visits. */
  ghost predicate At(g: Graph, before: Modes, after: Modes, order: seq<nat>, t: int, installs: map<nat, Install>)
    requires ValidFeeds(g)
  {
    0 <= t <= |order| && Covers(g, ModesAt(before, after, order, t)) && Installed(g, ModesAt(before, after, order, t), installs)
  }

  /** From `from` on the history shows the first `t` visits and nothing else. */
  ghost predicate Follows(g: Graph, before: Modes, after: Modes, order: seq<nat>, t: nat, trace: seq<Wiring>, from: nat)
    requires ValidFeeds(g)
  {
    && (forall n :: from <= n < |trace| ==> AtSome(g, before, after, order, t, trace[n].installs))
    && (forall s :: 0 <= s <= t ==> Shown(g, before, after, order, s, trace, from))
  }

  ghost predicate AtSome(g: Graph, before: Modes, after: Modes, order: seq<nat>, t: nat, installs: map<nat, Install>)
    requires ValidFeeds(g)
  {
    exists s :: s <= t && At(g, before, after, order, s, installs)
  }

  ghost predicate Shown(g: Graph, before: Modes, after: Modes, order: seq<nat>, s: int, trace: seq<Wiring>, from: nat)
    requires ValidFeeds(g)
  {
    exists n :: from <= n < |trace| && At(g, before, after, order, s, trace[n].installs)
  }

  ghost predicate TwoWritersDuring(trace: seq<Wiring>, from: nat, o: Out) {
    exists n :: from <= n < |trace| && TwoWriters(trace[n].installs, o)
  }

  lemma NothingVisited(g: Graph, slots: map<nat, Slot>, installs: map<nat, Install>, after: Modes, order: seq<nat>,
                       trace: seq<Wiring>)
    requires ValidFeeds(g) && SlotsMatch(g, slots) && Wired(g, slots, installs)
    requires |trace| > 0 && trace[|trace| - 1].installs == installs
    ensures SlotModes(slots) == ModesAt(SlotModes(slots), after, order, 0)
    ensures Follows(g, SlotModes(slots), after, order, 0, trace, |trace| - 1)
  {
    hide SlotsMatch, Wired, SlotModes, Installed, Covers;
    WiredInstalled(g, slots, installs);
    NoneVisited(SlotModes(slots), after, order);
    assert At(g, SlotModes(slots), after, order, 0, trace[|trace| - 1].installs);
  }

  lemma NoneVisited(before: Modes, after: Modes, order: seq<nat>)
    ensures ModesAt(before, after, order, 0) == before
  {
  }

  lemma OneVisited(g: Graph, slots0: map<nat, Slot>, slots: map<nat, Slot>, modes: map<Id, RouteMode>, users: map<Id, seq<Id>>,
                   before: Modes, order: seq<nat>, t: nat)
    requires t < |order| && order[t] < |g.sources| && g.sources[order[t]].id in modes
    requires order[t] in slots && order[t] in slots0 && slots == slots0[order[t] := slots[order[t]]]
    requires RunsAsDecided(g, slots, modes, users, order[t])
    requires SlotModes(slots0) == ModesAt(before, Decided(g, modes), order, t)
    ensures SlotModes(slots) == ModesAt(before, Decided(g, modes), order, t + 1)
  {
    var after := Decided(g, modes);
    var (m, n) := (ModesAt(before, after, order, t), ModesAt(before, after, order, t + 1));
    assert order[..t + 1] == order[..t] + [order[t]];
    assert m.Keys == before.Keys && slots0.Keys == m.Keys by { assert SlotModes(slots0).Keys == slots0.Keys; }
    assert slots.Keys == slots0.Keys;
    forall i | i in slots ensures n[i] == slots[i].mode {
      if i != order[t] {
        assert slots[i] == slots0[i] && SlotModes(slots0)[i] == m[i] == n[i];
      }
    }
  }

  lemma StillAt(g: Graph, slots: map<nat, Slot>, installs: map<nat, Install>, before: Modes, after: Modes, order: seq<nat>, t: nat)
    requires ValidFeeds(g) && SlotsMatch(g, slots) && Wired(g, slots, installs)
    requires t <= |order| && SlotModes(slots) == ModesAt(before, after, order, t)
    ensures At(g, before, after, order, t, installs)
  {
    WiredInstalled(g, slots, installs);
  }

  lemma FollowsStep(g: Graph, before: Modes, after: Modes, order: seq<nat>, t: nat, trace: seq<Wiring>,
                    next: seq<Wiring>, from: nat)
    requires ValidFeeds(g) && Follows(g, before, after, order, t, trace, from) && from < |trace|
    requires next == trace || (trace <= next && |next| == |trace| + 1)
    requires At(g, before, after, order, t + 1, next[|next| - 1].installs)
    ensures Follows(g, before, after, order, t + 1, next, from)
  {
    hide At;
    forall s | 0 <= s <= t + 1
      ensures Shown(g, before, after, order, s, next, from)
    {
      if s <= t {
        assert Shown(g, before, after, order, s, trace, from);
        var n :| from <= n < |trace| && At(g, before, after, order, s, trace[n].installs);
        assert At(g, before, after, order, s, next[n].installs);
      }
    }
    forall n | from <= n < |next|
      ensures AtSome(g, before, after, order, t + 1, next[n].installs)
    {
      if n < |trace| {
        assert AtSome(g, before, after, order, t, trace[n].installs);
        var s :| s <= t && At(g, before, after, order, s, trace[n].installs);
        assert At(g, before, after, order, s, next[n].installs);
      }
    }
  }

  /** Pausing before and resuming after changes no install. */
  lemma FollowsAround(g: Graph, before: Modes, after: Modes, order: seq<nat>, t: nat, trace: seq<Wiring>, all: seq<Wiring>,
                      from: nat, start: nat)
    requires ValidFeeds(g) && from <= start < |trace| && trace <= all
    requires Follows(g, before, after, order, t, trace, start)
    requires forall n :: from <= n <= start ==> all[n].installs == all[start].installs
    requires forall n :: |trace| <= n < |all| ==> all[n].installs == all[|trace| - 1].installs
    ensures Follows(g, before, after, order, t, all, from)
  {
    hide At;
    forall s | 0 <= s <= t
      ensures Shown(g, before, after, order, s, all, from)
    {
      assert Shown(g, before, after, order, s, trace, start);
      var n :| start <= n < |trace| && At(g, before, after, order, s, trace[n].installs);
      assert At(g, before, after, order, s, all[n].installs);
    }
    forall n | from <= n < |all|
      ensures AtSome(g, before, after, order, t, all[n].installs)
    {
      var m := if n < start then start else if n < |trace| then n else |trace| - 1;
      assert AtSome(g, before, after, order, t, trace[m].installs);
      var s :| s <= t && At(g, before, after, order, s, trace[m].installs);
      assert At(g, before, after, order, s, all[n].installs);
    }
  }

  lemma FollowsMeets(g: Graph, before: Modes, after: Modes, order: seq<nat>, trace: seq<Wiring>, from: nat, o: Out)
    requires ValidFeeds(g) && Follows(g, before, after, order, |order|, trace, from)
    ensures TwoWritersDuring(trace, from, o) <==> Meets(g, before, after, order, o)
  {
    hide Installed, TwoWriters, TwoSources, ModesAt;
    forall n, s | from <= n < |trace| && At(g, before, after, order, s, trace[n].installs)
      ensures TwoWriters(trace[n].installs, o) <==> TwoSources(g, ModesAt(before, after, order, s), o)
    {
      InstalledWriters(g, ModesAt(before, after, order, s), trace[n].installs, o);
    }
    if Meets(g, before, after, order, o) {
      var s :| 0 <= s <= |order| && TwoSources(g, ModesAt(before, after, order, s), o);
      assert Shown(g, before, after, order, s, trace, from);
      var n :| from <= n < |trace| && At(g, before, after, order, s, trace[n].installs);
      assert TwoWriters(trace[n].installs, o);
    }
  }

  /** What a reader of the history sees of one apply: a destination's queue has
      two raw writers at some instant exactly if a new copy source was visited
      before the old one. */
  ghost predicate ShowsHandovers(g: Graph, before: Modes, after: Modes, order: seq<nat>, trace: seq<Wiring>, from: nat) {
    forall k, o :: 0 <= k < |g.dests| && o in g.dests[k].outs ==>
      (TwoWritersDuring(trace, from, o) <==> HandedOver(g, before, after, order, k))
  }

  lemma ApplyShows(g: Graph, before: Modes, slots: map<nat, Slot>, modes: map<Id, RouteMode>, destMix: map<Id, bool>,
                   users: map<Id, seq<Id>>, order: seq<nat>, trace: seq<Wiring>, from: nat)
    requires WellFormed(g) && SlotsMatch(g, slots) && Coherent(g, modes, destMix) && Order(order, |g.sources|)
    requires forall i :: 0 <= i < |g.sources| ==> RunsAsDecided(g, slots, modes, users, i)
    requires Covers(g, before) && Follows(g, before, Decided(g, modes), order, |order|, trace, from)
    ensures OneCopy(g, SlotModes(slots))
    ensures OneCopy(g, before) ==> ShowsHandovers(g, before, SlotModes(slots), order, trace, from)
  {
    hide Follows, OneCopy, Covers, ShowsHandovers, RunsAsDecided, SlotModes;
    DecidedOneCopy(g, modes, destMix);
    EndsAsDecided(g, slots, modes, users);
    if OneCopy(g, before) {
      FollowedShowsHandovers(g, before, Decided(g, modes), order, trace, from);
    }
  }

  lemma FollowedShowsHandovers(g: Graph, before: Modes, after: Modes, order: seq<nat>, trace: seq<Wiring>, from: nat)
    requires WellFormed(g) && Covers(g, before) && Covers(g, after) && OneCopy(g, before) && OneCopy(g, after)
    requires Order(order, |g.sources|) && Follows(g, before, after, order, |order|, trace, from)
    ensures ShowsHandovers(g, before, after, order, trace, from)
  {
    hide WellFormed, Covers, OneCopy, Order, Follows, Meets, HandedOver, TwoWritersDuring;
    WellFormedFeeds(g);
    forall k, o | 0 <= k < |g.dests| && o in g.dests[k].outs
      ensures TwoWritersDuring(trace, from, o) <==> HandedOver(g, before, after, order, k)
    {
      FollowsMeets(g, before, after, order, trace, from, o);
      MeetsWhenHandedOver(g, before, after, order, k, o);
    }
  }

  /** No source outside `todo` registered this input. */
  ghost predicate StillAttached(slots: map<nat, Slot>, todo: set<nat>, r: MixerRef) {
    forall i :: i in slots && i !in todo ==> r !in slots[i].teardown
  }

  /** Every source outside `todo` has an empty install. */
  ghost predicate Silenced(g: Graph, installs: map<nat, Install>, todo: set<nat>) {
    forall i :: i in installs ==> 0 <= i < |g.sources| && g.sources[i].installable && (i in todo || installs[i] == EMPTY_INSTALL)
  }

  lemma SilencedWithout(g: Graph, installs: map<nat, Install>, todo: set<nat>, i: nat)
    requires Silenced(g, installs, todo) && i < |g.sources|
    ensures Silenced(g, if g.sources[i].installable then installs[i := EMPTY_INSTALL] else installs, todo - {i})
  {
  }

  lemma AllAttached(slots: map<nat, Slot>, todo: set<nat>)
    requires forall i :: i in slots ==> i in todo
    ensures forall r :: StillAttached(slots, todo, r)
  {
  }

  lemma StillAttachedWithout(slots: map<nat, Slot>, todo: set<nat>, i: nat)
    requires i in slots && i in todo
    ensures forall r :: StillAttached(slots, todo - {i}, r) <==> StillAttached(slots, todo, r) && r !in slots[i].teardown
  {
  }

  lemma OnlyRelayLeft(g: Graph, slots: map<nat, Slot>, inputs: set<MixerRef>, left: set<MixerRef>, seed: nat)
    requires ValidFeeds(g) && SlotsMatch(g, slots) && Ledger(slots, inputs, seed)
    requires forall r :: r in left <==> r in inputs && StillAttached(slots, {}, r)
    ensures seed < BIT63 ==> left == set r | r in inputs && r.input == RELAY_INPUT
  {
    if seed < BIT63 {
      forall r | r in inputs ensures r in left <==> r.input == RELAY_INPUT {
        if r.input == RELAY_INPUT {
          forall i | i in slots ensures r !in slots[i].teardown {
            if r in slots[i].teardown { RefsAreSynthetic(g, slots, seed, i, r); }
          }
        }
      }
    }
  }

  // ---------------------------------------------------------------------------

  lemma {:induction false} RoutesByUsers(g: Graph, probe: Probe, slots: map<nat, Slot>)
    requires WellFormed(g) && forall i :: 0 <= i < |g.sources| ==> i in slots && slots[i].mode == ModeFor(g, probe, i)
    ensures forall i :: 0 <= i < |g.sources| ==> ModeByUsers(g, probe, i, slots[i].mode)
    ensures forall k :: 0 <= k < |g.dests| ==> (MixFor(g, probe, k) <==> Needed(g, probe, SlotModes(slots), k))
  {
    hide WellFormed, ModeByUsers, Needed, ModeFor, MixFor;
    forall i | 0 <= i < |g.sources|
      ensures ModeByUsers(g, probe, i, slots[i].mode)
    {
      DecidedByUsers(g, probe, i);
    }
    forall k | 0 <= k < |g.dests|
      ensures MixFor(g, probe, k) <==> Needed(g, probe, SlotModes(slots), k)
    {
      DestNeeded(g, probe, SlotModes(slots), k);
    }
  }

  /** Every mixer's pause flag before the first apply. */
  function AllRunning(dests: seq<DestSlot>): (paused: map<Id, bool>)
    ensures forall k :: 0 <= k < |dests| && dests[k].hasMixer ==> dests[k].channel in paused
    ensures forall ch :: ch in paused ==> !paused[ch]
  {
    if dests == [] then map[]
    else
      var rest := AllRunning(dests[..|dests| - 1]);
      if dests[|dests| - 1].hasMixer then rest[dests[|dests| - 1].channel := false] else rest
  }

  lemma StartIsSafe(g: Graph, paused: map<Id, bool>)
    ensures SafeHistory(g, [Wiring(paused, map[])])
  {
  }

  /** Every source's slot before the first apply. */
  function AllOff(n: nat): map<nat, Slot> {
    map i | i in Positions(n) :: Slot(Off, {}, [], map[])
  }

  lemma StartMatches(g: Graph)
    requires ValidFeeds(g)
    ensures var slots := AllOff(|g.sources|);
            SlotsMatch(g, slots) && Ledger(slots, {}, 0) && Wired(g, slots, map[])
  {
  }

  class Router {
    const g: Graph
    var slots: map<nat, Slot>
    var installs: map<nat, Install>
    var paused: map<Id, bool>
    var inputs: set<MixerRef>
    var synthSeed: nat
    var closed: bool
    /** Every instant the audio goroutines could have observed so far. */
    ghost var trace: seq<Wiring>

    /** The history so far is safe and ends at the present. */
    ghost predicate TraceValid()
      reads this`trace, this`paused, this`installs
    {
      && (forall k :: 0 <= k < |g.dests| && g.dests[k].hasMixer ==> g.dests[k].channel in paused)
      && |trace| > 0 && trace[|trace| - 1] == Wiring(paused, installs) && SafeHistory(g, trace)
    }

    ghost predicate Valid()
      reads this
    {
      && WellFormed(g) && TraceValid()
      && (!closed ==> SlotsMatch(g, slots) && Ledger(slots, inputs, synthSeed) && Wired(g, slots, installs))
      && (closed && synthSeed < BIT63 ==> forall r :: r in inputs ==> r.input == RELAY_INPUT)
      && (closed ==> forall i :: i in installs ==> installs[i] == EMPTY_INSTALL)
    }

    constructor (g: Graph)
      requires WellFormed(g)
      ensures Valid() && !closed && this.g == g && trace == [Wiring(paused, map[])]
      ensures forall k :: 0 <= k < |g.dests| && g.dests[k].hasMixer ==> !Flag(paused, g.dests[k].channel)
    {
      this.g := g;
      slots := AllOff(|g.sources|);
      installs := map[];
      paused := AllRunning(g.dests);
      inputs, synthSeed, closed := {}, 0, false;
      trace := [Wiring(AllRunning(g.dests), map[])];
      new;
      hide SafeHistory, SlotsMatch, Ledger, Wired, WellFormed, AllOff, AllRunning;
      WellFormedFeeds(g);
      StartIsSafe(g, paused);
      StartMatches(g);
    }

    method SetPaused(k: nat, value: bool)
      requires Valid() && !closed && k < |g.dests| && g.dests[k].hasMixer
      requires !value ==> forall j :: 0 <= j < |g.dests| && g.dests[j].channel == g.dests[k].channel ==> Quiet(g, installs, j)
      modifies this`paused, this`trace
      ensures Valid() && paused == old(paused)[g.dests[k].channel := value]
      ensures trace == old(trace) + [Wiring(paused, installs)]
    {
      paused := paused[g.dests[k].channel := value];
      trace := trace + [Wiring(paused, installs)];
      var a, b := trace[|trace| - 2], trace[|trace| - 1];
      assert PauseStep(a, b, g.dests[k].channel);
      forall i, j | i in b.installs && 0 <= j < |g.dests| && g.dests[j].hasMixer && !Flag(b.paused, g.dests[j].channel)
        ensures Disjoint(b.installs[i].opusTargets, g.dests[j].outs)
      {
        assert g.dests[j].channel == g.dests[k].channel ==> !value;
      }
    }

    /** Drives the mixers toward the decision, only stopping them or only
        resuming them, in any order. */
    method SetDestPaused(destMix: map<Id, bool>, listeners: map<Id, bool>, pausing: bool)
      requires Valid() && !closed
      requires !pausing ==> forall k :: 0 <= k < |g.dests| && ShouldRun(g.dests[k], destMix, listeners) ==> Quiet(g, installs, k)
      modifies this`paused, this`trace
      ensures Valid() && Idled(old(trace))
      ensures forall k :: 0 <= k < |g.dests| && g.dests[k].hasMixer ==>
                Flag(paused, g.dests[k].channel) ==
                  if ShouldRun(g.dests[k], destMix, listeners) != pausing then pausing
                  else Flag(old(paused), g.dests[k].channel)
    {
      hide SafeHistory, SlotsMatch, Ledger, Wired, Quiet, Dual, SeparateOuts, ValidFeeds, DistinctSources, ShouldRun, Alike;
      var todo := Positions(|g.dests|);
      ghost var seen: set<Id> := {};
      while todo != {}
        invariant Valid() && Idled(old(trace))
        invariant forall k :: k in todo ==> 0 <= k < |g.dests|
        invariant forall k :: 0 <= k < |g.dests| && k !in todo ==> g.dests[k].channel in seen
        invariant forall k :: 0 <= k < |g.dests| && g.dests[k].hasMixer ==>
                    Flag(paused, g.dests[k].channel) ==
                      if g.dests[k].channel in seen && ShouldRun(g.dests[k], destMix, listeners) != pausing then pausing
                      else Flag(old(paused), g.dests[k].channel)
        decreases |todo|
      {
        var k :| k in todo;
        todo := todo - {k};
        seen := seen + {g.dests[k].channel};
        var d := g.dests[k];
        ShouldRunAlike(g, destMix, listeners, k);
        if d.hasMixer {
          var shouldRun := Flag(destMix, d.channel);
          if shouldRun && |d.outs| > 0 && !Flag(listeners, d.channel) {
            shouldRun := false;
          }
          assert shouldRun == ShouldRun(d, destMix, listeners) by { RunsWhenHeard(d, destMix, listeners); }
          if shouldRun != pausing {
            SetPaused(k, !shouldRun);
          }
        }
      }
    }

    /** Since `before` ended only pause flags have moved. */
    ghost predicate Idled(before: seq<Wiring>)
      reads this`trace, this`installs
    {
      0 < |before| && before <= trace && forall n :: |before| - 1 <= n < |trace| ==> trace[n].installs == installs
    }

    /** Allocates the input ids of a source's users. */
    method BindUsers(i: nat, users: seq<Id>)
      requires i in slots
      modifies this`slots, this`synthSeed
      ensures slots == old(slots)[i := old(slots)[i].(synthIDs := Bound(old(slots)[i].synthIDs, old(synthSeed), users).0)]
      ensures synthSeed == Bound(old(slots)[i].synthIDs, old(synthSeed), users).1
    {
      for n := 0 to |users|
        invariant i in slots
        invariant slots == old(slots)[i := old(slots)[i].(synthIDs := Bound(old(slots)[i].synthIDs, old(synthSeed), users[..n]).0)]
        invariant synthSeed == Bound(old(slots)[i].synthIDs, old(synthSeed), users[..n]).1
      {
        assert users[..n + 1][..n] == users[..n];
        if users[n] !in slots[i].synthIDs {
          synthSeed := synthSeed + 1;
          slots := slots[i := slots[i].(synthIDs := slots[i].synthIDs[users[n] := SynthID(synthSeed)])];
        }
      }
      assert users[..|users|] == users;
    }

    /** The atomic swap of one source's dispatch state. */
    method Publish(i: nat, install: Install)
      requires TraceValid()
      requires forall k :: 0 <= k < |g.dests| && g.dests[k].hasMixer && !Flag(paused, g.dests[k].channel)
                           ==> Disjoint(install.opusTargets, g.dests[k].outs)
      modifies this`installs, this`trace
      ensures TraceValid() && trace == old(trace) + [Wiring(paused, installs)]
      ensures installs == old(installs)[i := install]
    {
      SafeAfterInstall(g, Wiring(paused, installs), i, install);
      installs := installs[i := install];
      trace := trace + [Wiring(paused, installs)];
      assert InstallStep(trace[|trace| - 2], trace[|trace| - 1], i);
    }

    /** Detaches source `i` from its mixers, binds its users and builds the next
        install, registering that install's inputs. */
    method Rebuild(i: nat, mode: RouteMode, users: seq<Id>) returns (install: Install)
      requires ValidFeeds(g) && i in slots && i < |g.sources| && g.sources[i].installable
      modifies this`slots, this`inputs, this`synthSeed
      ensures var (ids, at) := Bindings(old(slots)[i], old(synthSeed), mode, users);
              var refs := RefsFor(g, i, mode, Restrict(ids, users));
              && synthSeed == at
              && slots == old(slots)[i := Slot(old(slots)[i].mode, refs, if mode == Mix then users else [], ids)]
              && inputs == old(inputs) - old(slots)[i].teardown + refs
              && install == InstallFor(g, i, mode, Restrict(ids, users))
    {
      inputs := inputs - slots[i].teardown;
      slots := slots[i := slots[i].(teardown := {}, activeUsers := [])];
      if mode == Mix && |users| > 0 {
        BindUsers(i, users);
      }
      var teardown, grown;
      install, teardown, grown := BuildInstall(g, i, mode, users, slots[i].synthIDs, inputs);
      inputs := grown;
      slots := slots[i := slots[i].(teardown := teardown, activeUsers := if mode == Mix then users else [])];
    }

    /** Replaces the install of source `i` and forgets the ids of absent users. */
    method Reinstall(i: nat, mode: RouteMode, users: seq<Id>)
      requires Valid() && !closed && i in slots
      requires forall k :: 0 <= k < |g.dests| && g.dests[k].hasMixer && !Flag(paused, g.dests[k].channel)
                           ==> Disjoint(OpusTargets(g, i, mode), g.dests[k].outs)
      modifies this`slots, this`installs, this`inputs, this`synthSeed, this`trace
      ensures Valid() && Stepped(old(trace), old(installs))
      ensures slots == old(slots)[i := Reinstalled(g, i, old(slots)[i], old(synthSeed), mode, users)]
      ensures installs == InstallsAfter(g, old(installs), i, mode, slots[i].synthIDs)
    {
      ghost var slots0, inputs0, seed0, installs0 := slots, inputs, synthSeed, installs;
      Replace(i, mode, users);
      ReinstallKeepsLedger(g, slots0, inputs0, seed0, i, mode, users);
      WiredAfterReinstall(g, slots0, installs0, seed0, i, mode, users);
    }

    /** Nothing observable, or one install, has happened since `before`. */
    ghost predicate Stepped(before: seq<Wiring>, installs0: map<nat, Install>)
      reads this`trace, this`paused, this`installs
    {
      (trace == before && installs == installs0) || trace == before + [Wiring(paused, installs)]
    }

    /** The statements of a reinstall. */
    method Replace(i: nat, mode: RouteMode, users: seq<Id>)
      requires WellFormed(g) && TraceValid() && i in slots && i < |g.sources|
      requires forall k :: 0 <= k < |g.dests| && g.dests[k].hasMixer && !Flag(paused, g.dests[k].channel)
                           ==> Disjoint(OpusTargets(g, i, mode), g.dests[k].outs)
      modifies this`slots, this`installs, this`inputs, this`synthSeed, this`trace
      ensures TraceValid() && Stepped(old(trace), old(installs))
      ensures slots == old(slots)[i := Reinstalled(g, i, old(slots)[i], old(synthSeed), mode, users)]
      ensures inputs == old(inputs) - old(slots)[i].teardown + slots[i].teardown
      ensures synthSeed == SeedAfter(g, i, old(slots)[i], old(synthSeed), mode, users)
      ensures installs == InstallsAfter(g, old(installs), i, mode, slots[i].synthIDs)
    {
      if g.sources[i].installable {
        var install := Rebuild(i, mode, users);
        Publish(i, install);
      } else {
        inputs := inputs - slots[i].teardown;
        slots := slots[i := slots[i].(teardown := {}, activeUsers := [])];
      }
      slots := slots[i := slots[i].(mode := mode, synthIDs := Restrict(slots[i].synthIDs, users))];
      assert slots[i] == Reinstalled(g, i, old(slots)[i], old(synthSeed), mode, users);
    }

    /** Applies a decision: stop mixers first, reinstall sources in the order the
        map is walked in, resume mixers last. Any coherent decision may be
        applied, however stale the snapshot it came from. */
    method ApplyModes(order: seq<nat>, modes: map<Id, RouteMode>, destMix: map<Id, bool>, users: map<Id, seq<Id>>,
                      listeners: map<Id, bool>)
      requires Valid() && !closed && Coherent(g, modes, destMix) && Order(order, |g.sources|)
      modifies this`slots, this`installs, this`paused, this`inputs, this`synthSeed, this`trace
      ensures Valid() && old(trace) <= trace
      ensures forall i :: 0 <= i < |g.sources| ==> RunsAsDecided(g, slots, modes, users, i)
      ensures forall k :: 0 <= k < |g.dests| && g.dests[k].hasMixer ==>
                (Flag(paused, g.dests[k].channel) <==> !ShouldRun(g.dests[k], destMix, listeners))
      ensures OneCopy(g, SlotModes(slots))
      ensures old(OneCopy(g, SlotModes(slots))) ==>
                ShowsHandovers(g, old(SlotModes(slots)), SlotModes(slots), order, trace, |old(trace)| - 1)
    {
      hide SafeHistory, Safe, Ledger, RunsAsDecided, Follows, OneCopy, Covers, ShowsHandovers, WellFormed, Coherent, Wired,
        SlotsMatch, Quiet, ShouldRun, Order, SlotModes, Decided;
      WellFormedFeeds(g);
      ghost var before, start := SlotModes(slots), trace;
      WiredInstalled(g, slots, installs);
      SetDestPaused(destMix, listeners, true);
      ghost var stopped := trace;
      ApplyInstalls(order, modes, destMix, users, listeners);
      ghost var installed := trace;
      AllQuiet(g, slots, installs, modes, destMix, users, listeners);
      SetDestPaused(destMix, listeners, false);
      FollowsAround(g, before, Decided(g, modes), order, |order|, installed, trace, |start| - 1, |stopped| - 1);
      ApplyShows(g, before, slots, modes, destMix, users, order, trace, |start| - 1);
    }

    method ApplyInstalls(order: seq<nat>, modes: map<Id, RouteMode>, destMix: map<Id, bool>, users: map<Id, seq<Id>>,
                         ghost listeners: map<Id, bool>)
      requires Valid() && !closed && Coherent(g, modes, destMix) && Order(order, |g.sources|)
      requires OnlyDecidedRun(destMix, listeners)
      modifies this`slots, this`installs, this`inputs, this`synthSeed, this`trace
      ensures Valid() && old(trace) <= trace
      ensures forall i :: 0 <= i < |g.sources| ==> RunsAsDecided(g, slots, modes, users, i)
      ensures Follows(g, old(SlotModes(slots)), Decided(g, modes), order, |order|, trace, |old(trace)| - 1)
    {
      hide SafeHistory, Safe, Ledger, Wired, RunsAsDecided, Follows, At, ModesAt, Decided;
      ghost var before, after := SlotModes(slots), Decided(g, modes);
      NothingVisited(g, slots, installs, after, order, trace);
      var t := 0;
      while t < |order|
        invariant t <= |order| && Valid() && old(trace) <= trace
        invariant forall i :: 0 <= i < |g.sources| && i in order[..t] ==> RunsAsDecided(g, slots, modes, users, i)
        invariant SlotModes(slots) == ModesAt(before, after, order, t)
        invariant Follows(g, before, after, order, t, trace, |old(trace)| - 1)
      {
        var i := order[t];
        ghost var slots0, trace0 := slots, trace;
        assert i in order;
        ApplyInstall(i, modes, destMix, users, listeners);
        OneVisited(g, slots0, slots, modes, users, before, order, t);
        StillAt(g, slots, installs, before, after, order, t + 1);
        FollowsStep(g, before, after, order, t, trace0, trace, |old(trace)| - 1);
        assert order[..t + 1] == order[..t] + [i];
        forall j | 0 <= j < |g.sources| && j in order[..t + 1]
          ensures RunsAsDecided(g, slots, modes, users, j)
        {
          if j != i { OthersRunAsBefore(g, slots0, slots, modes, users, i, j); }
        }
        t := t + 1;
      }
      assert order[..t] == order;
    }

    /** The mixers that still run are among those the decision lets run. */
    ghost predicate OnlyDecidedRun(destMix: map<Id, bool>, listeners: map<Id, bool>)
      reads this`paused
    {
      forall k :: 0 <= k < |g.dests| && g.dests[k].hasMixer && !Flag(paused, g.dests[k].channel)
                  ==> ShouldRun(g.dests[k], destMix, listeners)
    }

    method ApplyInstall(i: nat, modes: map<Id, RouteMode>, destMix: map<Id, bool>, users: map<Id, seq<Id>>,
                        ghost listeners: map<Id, bool>)
      requires Valid() && !closed && Coherent(g, modes, destMix) && i < |g.sources|
      requires OnlyDecidedRun(destMix, listeners)
      modifies this`slots, this`installs, this`inputs, this`synthSeed, this`trace
      ensures Valid() && Stepped(old(trace), old(installs))
      ensures old(i in slots && Unchanged(slots[i], modes[g.sources[i].id], UsersIn(users, g.sources[i].channel))) ==>
                slots == old(slots) && installs == old(installs) && inputs == old(inputs) && trace == old(trace)
      ensures i in slots && slots == old(slots)[i := slots[i]]
      ensures RunsAsDecided(g, slots, modes, users, i)
    {
      hide SafeHistory, Safe, Ledger, Wired, Unchanged, Elements, NoDuplicates;
      var s := g.sources[i];
      var mode, present := modes[s.id], UsersIn(users, s.channel);
      if Unchanged(slots[i], mode, present) { UnchangedIsSame(slots[i], mode, present); }
      var needInstall := slots[i].mode != mode;
      if !needInstall && mode == Mix {
        var same := SameUserSet(slots[i].activeUsers, present);
        needInstall := !same;
      }
      if needInstall {
        forall k | 0 <= k < |g.dests| && g.dests[k].hasMixer && !Flag(paused, g.dests[k].channel)
          ensures Disjoint(OpusTargets(g, i, mode), g.dests[k].outs)
        {
          InstallIsQuiet(g, i, mode, k, destMix);
        }
        Reinstall(i, mode, present);
      }
      SkipIsRight(slots[i].activeUsers, present);
    }

    /** Runs the cascade over one probe of the voice state. */
    method Decide(probe: Probe) returns (modes: map<Id, RouteMode>, destMix: map<Id, bool>)
      requires WellFormed(g)
      ensures Coherent(g, modes, destMix)
      ensures forall s :: ModeOf(modes, s) == FinalMode(BaselineFor(g, probe), DestsOf(g), probe.relayFed, s)
      ensures forall ch :: Flag(destMix, ch) <==> FinalDestMix(BaselineFor(g, probe), DestsOf(g), probe.relayFed, ch)
      ensures forall i :: 0 <= i < |g.sources| ==> ModeByUsers(g, probe, i, ModeOf(modes, g.sources[i].id))
    {
      hide ModeByUsers;
      ghost var passes;
      modes, destMix, passes := ComputeRoutes(SourcesOf(g), DestsOf(g), CountsOf(probe), probe.relayFed);
      CascadeIsCoherent(g, probe, modes, destMix);
      forall i | 0 <= i < |g.sources|
        ensures ModeByUsers(g, probe, i, ModeOf(modes, g.sources[i].id))
      {
        DecidedByUsers(g, probe, i);
      }
    }

    /** Probes, decides and applies. An open router ends as the probe asks, and
        the history in between shows two raw writers on a destination's queue
        exactly where one copy source took over from another too early. */
    method Recompute(probe: Probe, order: seq<nat>)
      requires Valid() && Order(order, |g.sources|)
      modifies this`slots, this`installs, this`paused, this`inputs, this`synthSeed, this`trace
      ensures Valid() && old(trace) <= trace
      ensures closed ==> unchanged(this)
      ensures !closed ==> Settled(probe) && OneCopy(g, SlotModes(slots))
      ensures !closed ==> Routed(probe)
      ensures !closed && old(OneCopy(g, SlotModes(slots))) ==>
                ShowsHandovers(g, old(SlotModes(slots)), SlotModes(slots), order, trace, |old(trace)| - 1)
    {
      if closed {
        return;
      }
      hide SafeHistory, Safe, Ledger, Wired, SlotsMatch, WellFormed, Coherent, RunsAsDecided, FinalMode, FinalDestMix, OneCopy,
        ShowsHandovers, SlotModes, ModeByUsers, ShouldRun, Router.Routed, Router.Settled, ModeOf, Flag, BaselineFor, DestsOf,
        Order, Router.OnlyDecidedRun;
      var modes, destMix := Decide(probe);
      ApplyModes(order, modes, destMix, probe.users, probe.listeners);
      AppliedIsSettled(probe, modes, destMix);
    }

    lemma {:induction false} AppliedIsSettled(probe: Probe, modes: map<Id, RouteMode>, destMix: map<Id, bool>)
      requires forall i :: 0 <= i < |g.sources| ==> g.sources[i].id in modes && RunsAsDecided(g, slots, modes, probe.users, i)
      requires forall s :: ModeOf(modes, s) == FinalMode(BaselineFor(g, probe), DestsOf(g), probe.relayFed, s)
      requires forall ch :: Flag(destMix, ch) <==> FinalDestMix(BaselineFor(g, probe), DestsOf(g), probe.relayFed, ch)
      requires forall k :: 0 <= k < |g.dests| && g.dests[k].hasMixer ==>
                 (Flag(paused, g.dests[k].channel) <==> !ShouldRun(g.dests[k], destMix, probe.listeners))
      requires WellFormed(g)
      ensures Settled(probe) && Routed(probe)
    {
      hide WellFormed, RunsAsDecided, FinalMode, FinalDestMix, Router.Routed;
      forall i | 0 <= i < |g.sources|
        ensures SourceSettled(probe, i)
      {
        DecidedMode(g, slots, modes, probe.users, i);
      }
      assert Settled(probe);
      SettledIsRouted(probe);
    }

    /** Every source runs in the mode its users call for, and a mixer runs exactly
        if another guild or a mixed source feeds it and somebody listens, where
        there are queues to listen to. */
    ghost predicate Routed(probe: Probe)
      reads this`slots, this`paused
    {
      && (forall i :: 0 <= i < |g.sources| ==> i in slots && ModeByUsers(g, probe, i, slots[i].mode))
      && (forall k :: 0 <= k < |g.dests| && g.dests[k].hasMixer ==>
            (!Flag(paused, g.dests[k].channel) <==>
              Needed(g, probe, SlotModes(slots), k) && (g.dests[k].outs == [] || Flag(probe.listeners, g.dests[k].channel))))
    }

    lemma {:induction false} SettledIsRouted(probe: Probe)
      requires WellFormed(g) && Settled(probe)
      ensures Routed(probe)
    {
      hide WellFormed, ModeByUsers, Needed, ModeFor, MixFor, SlotModes;
      forall i | 0 <= i < |g.sources|
        ensures i in slots && slots[i].mode == ModeFor(g, probe, i)
      {
        assert SourceSettled(probe, i);
      }
      RoutesByUsers(g, probe, slots);
    }

    /** Source `i` runs in the probe's mode and, when it mixes, mixes exactly the
        callers the probe found. */
    ghost predicate SourceSettled(probe: Probe, i: nat)
      requires i < |g.sources|
      reads this`slots
    {
      && i in slots && slots[i].mode == ModeFor(g, probe, i)
      && (slots[i].mode == Mix && g.sources[i].installable && NoDuplicates(UsersIn(probe.users, g.sources[i].channel)) ==>
            Elements(slots[i].activeUsers) == Elements(UsersIn(probe.users, g.sources[i].channel)))
    }

    ghost predicate Settled(probe: Probe)
      reads this`slots, this`paused
    {
      && (forall i :: 0 <= i < |g.sources| ==> SourceSettled(probe, i))
      && (forall k :: 0 <= k < |g.dests| && g.dests[k].hasMixer ==> (Flag(paused, g.dests[k].channel) <==> !RunsFor(g, probe, k)))
    }

    /** A relay bridge attaches to, or detaches from, one mixer at any time. */
    method SetRelayInput(k: nat, attached: bool)
      requires Valid() && k < |g.dests|
      modifies this`inputs
      ensures Valid()
      ensures forall r :: r != MixerRef(g.dests[k].channel, RELAY_INPUT) ==> (r in inputs <==> r in old(inputs))
      ensures MixerRef(g.dests[k].channel, RELAY_INPUT) in inputs <==> attached
    {
      var relay := MixerRef(g.dests[k].channel, RELAY_INPUT);
      if !closed && synthSeed < BIT63 {
        forall i | i in slots ensures relay !in slots[i].teardown {
          if relay in slots[i].teardown { RefsAreSynthetic(g, slots, synthSeed, i, relay); }
        }
      }
      inputs := if attached then inputs + {relay} else inputs - {relay};
    }

    /** Empties the dispatch of one source and detaches it from its mixers. */
    method Silence(i: nat)
      requires TraceValid() && i in slots && i < |g.sources|
      modifies this`slots, this`installs, this`inputs, this`trace
      ensures TraceValid() && old(trace) <= trace
      ensures slots == old(slots)[i := old(slots)[i].(teardown := {})]
      ensures installs == if g.sources[i].installable then old(installs)[i := EMPTY_INSTALL] else old(installs)
      ensures inputs == old(inputs) - old(slots)[i].teardown
    {
      hide SafeHistory, Safe;
      if g.sources[i].installable {
        Publish(i, EMPTY_INSTALL);
      }
      inputs := inputs - slots[i].teardown;
      slots := slots[i := slots[i].(teardown := {})];
    }

    /** Silences and detaches every source, in any order. */
    method SilenceAll()
      requires WellFormed(g) && TraceValid() && SlotsMatch(g, slots) && Wired(g, slots, installs)
      modifies this`slots, this`installs, this`inputs, this`trace
      ensures TraceValid() && old(trace) <= trace
      ensures Silenced(g, installs, {})
      ensures forall r :: r in inputs <==> r in old(inputs) && StillAttached(old(slots), {}, r)
    {
      hide SafeHistory, Safe, StillAttached, WellFormed;
      ghost var slots0 := slots;
      AllAttached(slots0, Positions(|g.sources|));
      var todo := Positions(|g.sources|);
      while todo != {}
        invariant TraceValid() && old(trace) <= trace
        invariant forall i :: i in todo ==> 0 <= i < |g.sources| && i in slots && slots[i] == slots0[i]
        invariant Silenced(g, installs, todo)
        invariant forall r :: r in inputs <==> r in old(inputs) && StillAttached(slots0, todo, r)
        decreases |todo|
      {
        var i :| i in todo;
        StillAttachedWithout(slots0, todo, i);
        SilencedWithout(g, installs, todo, i);
        todo := todo - {i};
        Silence(i);
      }
    }

    /** Silences every source and releases every mixer input but the relay's. */
    method Close()
      requires Valid() && !closed
      modifies this
      ensures Valid() && closed && old(trace) <= trace
      ensures forall i :: i in installs ==> installs[i] == EMPTY_INSTALL
      ensures old(synthSeed) < BIT63 ==> inputs == set r | r in old(inputs) && r.input == RELAY_INPUT
    {
      hide SafeHistory, Safe, Ledger, Wired;
      closed := true;
      ghost var slots0, inputs0 := slots, inputs;
      SilenceAll();
      OnlyRelayLeft(g, slots0, inputs0, inputs, synthSeed);
    }
  }

  /** One recomputation: what the probe saw and the order the map was walked in. */
  datatype Round = Round(probe: Probe, order: seq<nat>)

  /** A run of recomputations ends as its last probe asks. */
  method Recomputes(r: Router, rounds: seq<Round>)
    requires r.Valid() && !r.closed && |rounds| > 0
    requires forall n :: 0 <= n < |rounds| ==> Order(rounds[n].order, |r.g.sources|)
    modifies r
    ensures r.Valid() && !r.closed && old(r.trace) <= r.trace
    ensures r.Settled(rounds[|rounds| - 1].probe) && OneCopy(r.g, SlotModes(r.slots))
  {
    hide OneCopy, SlotModes, ShowsHandovers, Order, SafeHistory, Wired, SlotsMatch, Ledger, WellFormed;
    var n := 0;
    while n < |rounds|
      invariant n <= |rounds| && r.Valid() && !r.closed && old(r.trace) <= r.trace
      invariant n > 0 ==> r.Settled(rounds[n - 1].probe) && OneCopy(r.g, SlotModes(r.slots))
    {
      r.Recompute(rounds[n].probe, rounds[n].order);
      n := n + 1;
    }
  }

  /** Any run of recomputations, closing included, passes through safe instants
      only, one pause or install at a time. */
  method Run(r: Router, rounds: seq<Round>)
    requires r.Valid() && forall n :: 0 <= n < |rounds| ==> Order(rounds[n].order, |r.g.sources|)
    modifies r
    ensures r.Valid() && r.closed && old(r.trace) <= r.trace
    ensures SafeHistory(r.g, r.trace)
  {
    if !r.closed {
      if |rounds| > 0 {
        Recomputes(r, rounds);
      }
      r.Close();
    }
  }
}
