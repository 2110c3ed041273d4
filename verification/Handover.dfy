/** Raw writers of a queue: after an apply, and at every instant in the middle of
    one, as sources are reinstalled one by one. */
module Handover {
  import opened Routes
  import opened Topology

  /** The modes of a graph's sources, by position. */
  type Modes = map<nat, RouteMode>

  predicate Covers(g: Graph, modes: Modes) {
    forall i :: 0 <= i < |g.sources| ==> i in modes
  }

  /** Two handles write raw packets into one queue. */
  ghost predicate TwoWriters(installs: map<nat, Install>, o: Out) {
    exists i, j :: i in installs && j in installs && i != j && o in installs[i].opusTargets && o in installs[j].opusTargets
  }

  predicate Writes(g: Graph, modes: Modes, i: nat, o: Out)
    requires ValidFeeds(g)
  {
    i < |g.sources| && i in modes && g.sources[i].installable && o in OpusTargets(g, i, modes[i])
  }

  ghost predicate TwoSources(g: Graph, modes: Modes, o: Out)
    requires ValidFeeds(g)
  {
    exists i, j :: i != j && Writes(g, modes, i, o) && Writes(g, modes, j, o)
  }

  /** The handles dispatch as their sources' modes say; a handle never installed
      dispatches nothing. */
  ghost predicate Installed(g: Graph, modes: Modes, installs: map<nat, Install>)
    requires ValidFeeds(g) && Covers(g, modes)
  {
    && (forall i :: i in installs ==> i < |g.sources| && g.sources[i].installable)
    && (forall i :: 0 <= i < |g.sources| && g.sources[i].installable ==>
          (if i in installs then installs[i].opusTargets else []) == OpusTargets(g, i, modes[i]))
  }

  lemma InstalledWriters(g: Graph, modes: Modes, installs: map<nat, Install>, o: Out)
    requires ValidFeeds(g) && Covers(g, modes) && Installed(g, modes, installs)
    ensures TwoWriters(installs, o) <==> TwoSources(g, modes, o)
  {
    hide OpusTargets;
    assert forall i: nat :: Writes(g, modes, i, o) <==> i in installs && o in installs[i].opusTargets;
  }

  predicate Copying(g: Graph, modes: Modes, i: nat, k: nat) {
    i < |g.sources| && i in modes && modes[i] == Copy && k in g.sources[i].feeds
  }

  /** No destination has two sources in copy mode. */
  ghost predicate OneCopy(g: Graph, modes: Modes) {
    forall i, j, k :: Copying(g, modes, i, k) && Copying(g, modes, j, k) ==> i == j
  }

  predicate CopiesInto(g: Graph, modes: Modes, i: nat, k: nat) {
    Copying(g, modes, i, k) && g.sources[i].installable && g.sources[i].rawTargets == []
  }

  lemma WritesQueue(g: Graph, modes: Modes, i: nat, k: nat, o: Out)
    requires WellFormed(g) && k < |g.dests| && o in g.dests[k].outs
    ensures Writes(g, modes, i, o) <==> CopiesInto(g, modes, i, k)
  {
    if i < |g.sources| {
      assert Disjoint(g.sources[i].rawTargets, g.dests[k].outs);
      if g.sources[i].rawTargets == [] { CopyTouches(g, i, k); }
    }
  }

  // ---------------------------------------------------------------------------
  // After an apply

  /** Two live sources have the queue among their fixed raw targets. */
  ghost predicate SharedTarget(g: Graph, modes: Modes, o: Out) {
    exists i, j :: i != j && LiveTarget(g, modes, i, o) && LiveTarget(g, modes, j, o)
  }

  predicate LiveTarget(g: Graph, modes: Modes, i: nat, o: Out) {
    i < |g.sources| && i in modes && g.sources[i].installable && modes[i] != Off && o in g.sources[i].rawTargets
  }

  /** Copy mode never gives a queue two raw writers; shared raw targets do. */
  lemma SettledWriters(g: Graph, modes: Modes, o: Out)
    requires WellFormed(g) && OneCopy(g, modes)
    ensures TwoSources(g, modes, o) <==> SharedTarget(g, modes, o)
  {
    if TwoSources(g, modes, o) {
      var i, j :| i != j && Writes(g, modes, i, o) && Writes(g, modes, j, o);
      if k :| 0 <= k < |g.dests| && o in g.dests[k].outs {
        WritesQueue(g, modes, i, k, o);
        WritesQueue(g, modes, j, k, o);
        assert false;
      }
      assert LiveTarget(g, modes, i, o) && LiveTarget(g, modes, j, o);
    }
    if SharedTarget(g, modes, o) {
      var i, j :| i != j && LiveTarget(g, modes, i, o) && LiveTarget(g, modes, j, o);
      assert Writes(g, modes, i, o) && Writes(g, modes, j, o);
    }
  }

  // ---------------------------------------------------------------------------
  // In the middle of an apply

  /** Every position once. */
  ghost predicate Order(order: seq<nat>, n: nat) {
    && (forall i :: i in order <==> 0 <= i < n)
    && (forall a, b :: 0 <= a < b < |order| ==> order[a] != order[b])
  }

  /** The modes once the first `t` sources of the order have been visited. */
  function ModesAt(before: Modes, after: Modes, order: seq<nat>, t: nat): Modes
    requires t <= |order|
  {
    map i | i in before :: if i in order[..t] && i in after then after[i] else before[i]
  }

  /** The queue has two raw writers at some instant of the apply. */
  ghost predicate Meets(g: Graph, before: Modes, after: Modes, order: seq<nat>, o: Out)
    requires ValidFeeds(g)
  {
    exists t :: 0 <= t <= |order| && TwoSources(g, ModesAt(before, after, order, t), o)
  }

  /** Some source starts copying into the destination before another has been
      told to stop. */
  predicate HandedOver(g: Graph, before: Modes, after: Modes, order: seq<nat>, k: nat) {
    exists a, b :: 0 <= a < b < |order| && CopiesInto(g, after, order[a], k) && CopiesInto(g, before, order[b], k)
  }

  /** Between two decisions that each allow one copy source, a queue has two raw
      writers for a while exactly if the newcomer is visited first. */
  lemma MeetsWhenHandedOver(g: Graph, before: Modes, after: Modes, order: seq<nat>, k: nat, o: Out)
    requires WellFormed(g) && Covers(g, before) && Covers(g, after) && OneCopy(g, before) && OneCopy(g, after)
    requires Order(order, |g.sources|) && k < |g.dests| && o in g.dests[k].outs
    ensures Meets(g, before, after, order, o) <==> HandedOver(g, before, after, order, k)
  {
    hide WellFormed, Writes;
    if HandedOver(g, before, after, order, k) {
      var a, b :| 0 <= a < b < |order| && CopiesInto(g, after, order[a], k) && CopiesInto(g, before, order[b], k);
      var modes := ModesAt(before, after, order, a + 1);
      assert order[..a + 1][a] == order[a];
      assert CopiesInto(g, modes, order[a], k) && CopiesInto(g, modes, order[b], k);
      WritesQueue(g, modes, order[a], k, o);
      WritesQueue(g, modes, order[b], k, o);
      assert ValidFeeds(g) by { WellFormedFeeds(g); }
      assert TwoSources(g, modes, o);
    }
    assert ValidFeeds(g) by { WellFormedFeeds(g); }
    if Meets(g, before, after, order, o) {
      var t :| 0 <= t <= |order| && TwoSources(g, ModesAt(before, after, order, t), o);
      var i, j :| i != j && Writes(g, ModesAt(before, after, order, t), i, o) && Writes(g, ModesAt(before, after, order, t), j, o);
      WritesQueue(g, ModesAt(before, after, order, t), i, k, o);
      WritesQueue(g, ModesAt(before, after, order, t), j, k, o);
      NewcomerFirst(g, before, after, order, t, i, j, k);
    }
  }

  lemma WellFormedFeeds(g: Graph)
    requires WellFormed(g)
    ensures ValidFeeds(g)
  {
  }

  lemma NewcomerFirst(g: Graph, before: Modes, after: Modes, order: seq<nat>, t: nat, i: nat, j: nat, k: nat)
    requires Covers(g, before) && Covers(g, after) && OneCopy(g, before) && OneCopy(g, after)
    requires Order(order, |g.sources|) && t <= |order| && i != j
    requires CopiesInto(g, ModesAt(before, after, order, t), i, k) && CopiesInto(g, ModesAt(before, after, order, t), j, k)
    ensures HandedOver(g, before, after, order, k)
  {
    if i !in order[..t] {
      assert CopiesInto(g, before, i, k);
      assert j !in order[..t] ==> Copying(g, before, j, k);
      FirstOfTwo(g, before, after, order, t, j, i, k);
    } else {
      assert CopiesInto(g, after, i, k);
      assert j in order[..t] ==> Copying(g, after, j, k);
      FirstOfTwo(g, before, after, order, t, i, j, k);
    }
  }

  lemma FirstOfTwo(g: Graph, before: Modes, after: Modes, order: seq<nat>, t: nat, i: nat, j: nat, k: nat)
    requires t <= |order| && i in order[..t] && j !in order[..t] && j in order
    requires CopiesInto(g, after, i, k) && CopiesInto(g, before, j, k)
    ensures HandedOver(g, before, after, order, k)
  {
    var a :| 0 <= a < t && order[..t][a] == i;
    var b :| 0 <= b < |order| && order[b] == j;
    assert forall c :: 0 <= c < t ==> order[c] == order[..t][c];
    assert order[a] == i && b >= t;
  }
}
