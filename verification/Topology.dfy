/** The static graph an auto-routed session is built from: sources, destination
    mixers, and the install a source publishes in each mode. */
module Topology {
  import opened Routes

  /** An output queue: the channel one speaker bot plays from. */
  type Out = nat

  const RELAY_INPUT: Id := 1
  const RELAY_DEST: Id := 2

  /** `feeds` holds positions in `Graph.dests`; an empty `rawTargets` is the nil
      slice. `installable` says the slot has a handle and an install builder. */
  datatype SourceSlot = SourceSlot(id: Id, channel: Id, installable: bool, feeds: seq<nat>, ally: bool, rawTargets: seq<Out>)

  datatype DestSlot = DestSlot(channel: Id, hasMixer: bool, outs: seq<Out>, sources: seq<Id>)

  datatype Graph = Graph(sources: seq<SourceSlot>, dests: seq<DestSlot>)

  /** A mixer input: the mixer of a destination channel and an input id. */
  datatype MixerRef = MixerRef(channel: Id, input: Id)

  /** What a `FanoutHandle` dispatches to. */
  datatype Install = Install(opusTargets: seq<Out>, callback: bool, sourceTargets: map<Id, seq<MixerRef>>)

  const EMPTY_INSTALL := Install([], false, map[])

  // ---------------------------------------------------------------------------
  // Well-formed graphs

  predicate ValidFeeds(g: Graph) {
    forall i, n :: 0 <= i < |g.sources| && 0 <= n < |g.sources[i].feeds| ==> g.sources[i].feeds[n] < |g.dests|
  }

  predicate DistinctSources(g: Graph) {
    forall i, j :: 0 <= i < j < |g.sources| ==> g.sources[i].id != g.sources[j].id
  }

  /** Destinations of one channel share its mixer, so the same sources feed them
      and both are heard or neither is. */
  predicate Alike(d: DestSlot, e: DestSlot) {
    d.channel == e.channel ==> d.hasMixer == e.hasMixer && d.sources == e.sources && (d.outs == [] <==> e.outs == [])
  }

  predicate AlikeDests(g: Graph) {
    forall i, j :: 0 <= i < |g.dests| && 0 <= j < |g.dests| ==> Alike(g.dests[i], g.dests[j])
  }

  /** `Feeds` and `Sources` are two views of one edge set. */
  predicate Dual(g: Graph) {
    && (forall i, k :: 0 <= i < |g.sources| && 0 <= k < |g.dests| ==>
          (k in g.sources[i].feeds <==> g.sources[i].id in g.dests[k].sources))
    && (forall k, s :: 0 <= k < |g.dests| && s in g.dests[k].sources ==>
          exists i :: 0 <= i < |g.sources| && g.sources[i].id == s)
  }

  predicate Disjoint(a: seq<Out>, b: seq<Out>) {
    forall o :: o in a ==> o !in b
  }

  /** No queue belongs to two destinations, and none that a mixer plays into is
      also a fixed raw target. */
  predicate SeparateOuts(g: Graph) {
    && (forall i, j :: 0 <= i < j < |g.dests| ==> Disjoint(g.dests[i].outs, g.dests[j].outs))
    && (forall i, k :: 0 <= i < |g.sources| && 0 <= k < |g.dests| ==> Disjoint(g.sources[i].rawTargets, g.dests[k].outs))
  }

  predicate WellFormed(g: Graph) {
    ValidFeeds(g) && DistinctSources(g) && AlikeDests(g) && Dual(g) && SeparateOuts(g)
  }

  // ---------------------------------------------------------------------------
  // Installs

  function FeedOuts(g: Graph, feeds: seq<nat>): (outs: seq<Out>)
    requires forall n :: 0 <= n < |feeds| ==> feeds[n] < |g.dests|
    ensures forall o :: o in outs <==> exists n :: 0 <= n < |feeds| && o in g.dests[feeds[n]].outs
  {
    if feeds == [] then []
    else
      assert feeds == feeds[..|feeds| - 1] + [feeds[|feeds| - 1]];
      FeedOuts(g, feeds[..|feeds| - 1]) + g.dests[feeds[|feeds| - 1]].outs
  }

  /** The mixer inputs of one user: one per fed destination that has a mixer. */
  function FeedRefs(g: Graph, feeds: seq<nat>, synth: Id): (refs: seq<MixerRef>)
    requires forall n :: 0 <= n < |feeds| ==> feeds[n] < |g.dests|
    ensures forall r :: r in refs <==> exists n :: 0 <= n < |feeds| && g.dests[feeds[n]].hasMixer
                                                   && r == MixerRef(g.dests[feeds[n]].channel, synth)
  {
    if feeds == [] then []
    else
      var n := |feeds| - 1;
      var d := g.dests[feeds[n]];
      assert feeds == feeds[..n] + [feeds[n]];
      FeedRefs(g, feeds[..n], synth) + if d.hasMixer then [MixerRef(d.channel, synth)] else []
  }

  function CopyTargets(g: Graph, i: nat): seq<Out>
    requires ValidFeeds(g) && i < |g.sources|
  {
    if g.sources[i].rawTargets != [] then g.sources[i].rawTargets else FeedOuts(g, g.sources[i].feeds)
  }

  /** The queues source `i` writes raw packets into. */
  function OpusTargets(g: Graph, i: nat, mode: RouteMode): seq<Out>
    requires ValidFeeds(g) && i < |g.sources|
  {
    match mode
    case Off => []
    case Copy => CopyTargets(g, i)
    case Mix => g.sources[i].rawTargets
  }

  predicate AnyMixer(g: Graph, feeds: seq<nat>)
    requires forall n :: 0 <= n < |feeds| ==> feeds[n] < |g.dests|
  {
    exists n :: 0 <= n < |feeds| && g.dests[feeds[n]].hasMixer
  }

  /** The install source `i` publishes, given the synthetic input id of every
      user it mixes. */
  function InstallFor(g: Graph, i: nat, mode: RouteMode, synths: map<Id, Id>): Install
    requires ValidFeeds(g) && i < |g.sources|
  {
    var s := g.sources[i];
    match mode
    case Off => EMPTY_INSTALL
    case Copy => Install(OpusTargets(g, i, Copy), s.ally, map[])
    case Mix => Install(OpusTargets(g, i, Mix), false,
                        map u | u in synths && AnyMixer(g, s.feeds) :: FeedRefs(g, s.feeds, synths[u]))
  }

  /** Every mixer input that install registers. */
  function RefsFor(g: Graph, i: nat, mode: RouteMode, synths: map<Id, Id>): set<MixerRef>
    requires ValidFeeds(g) && i < |g.sources|
  {
    if mode != Mix then {}
    else set u, r | u in synths && r in FeedRefs(g, g.sources[i].feeds, synths[u]) :: r
  }

  predicate FeedsMixer(g: Graph, feeds: seq<nat>, ch: Id)
    requires forall n :: 0 <= n < |feeds| ==> feeds[n] < |g.dests|
  {
    exists n :: 0 <= n < |feeds| && g.dests[feeds[n]].hasMixer && g.dests[feeds[n]].channel == ch
  }

  lemma RefsForMember(g: Graph, i: nat, mode: RouteMode, synths: map<Id, Id>, r: MixerRef)
    requires ValidFeeds(g) && i < |g.sources|
    ensures r in RefsFor(g, i, mode, synths) <==>
              mode == Mix && FeedsMixer(g, g.sources[i].feeds, r.channel) && exists u :: u in synths && synths[u] == r.input
  {
    if mode == Mix {
      if r in RefsFor(g, i, mode, synths) {
        var u :| u in synths && r in FeedRefs(g, g.sources[i].feeds, synths[u]);
      }
      if u :| FeedsMixer(g, g.sources[i].feeds, r.channel) && u in synths && synths[u] == r.input {
        assert r in FeedRefs(g, g.sources[i].feeds, synths[u]);
      }
    }
  }

  /** The bindings of `users`, as the map the install is a function of. */
  function Restrict(synths: map<Id, Id>, users: seq<Id>): map<Id, Id> {
    map u | u in synths && u in users :: synths[u]
  }

  method UnionOuts(g: Graph, feeds: seq<nat>) returns (outs: seq<Out>)
    requires forall n :: 0 <= n < |feeds| ==> feeds[n] < |g.dests|
    ensures outs == FeedOuts(g, feeds)
  {
    outs := [];
    for n := 0 to |feeds|
      invariant outs == FeedOuts(g, feeds[..n])
    {
      assert feeds[..n + 1][..n] == feeds[..n];
      outs := outs + g.dests[feeds[n]].outs;
    }
    assert feeds[..|feeds|] == feeds;
  }

  /** Registers one user with every fed mixer. */
  method AddUserInputs(g: Graph, feeds: seq<nat>, synth: Id, inputs0: set<MixerRef>)
    returns (refs: seq<MixerRef>, inputs: set<MixerRef>)
    requires forall n :: 0 <= n < |feeds| ==> feeds[n] < |g.dests|
    ensures refs == FeedRefs(g, feeds, synth)
    ensures inputs == inputs0 + set r | r in refs
  {
    refs, inputs := [], inputs0;
    for n := 0 to |feeds|
      invariant refs == FeedRefs(g, feeds[..n], synth)
      invariant inputs == inputs0 + set r | r in refs
    {
      assert feeds[..n + 1][..n] == feeds[..n];
      var d := g.dests[feeds[n]];
      if !d.hasMixer {
        continue;
      }
      var ref := MixerRef(d.channel, synth);
      inputs := inputs + {ref};
      refs := refs + [ref];
    }
    assert feeds[..|feeds|] == feeds;
  }

  lemma {:induction false} FeedRefsEmpty(g: Graph, feeds: seq<nat>, synth: Id)
    requires forall n :: 0 <= n < |feeds| ==> feeds[n] < |g.dests|
    ensures FeedRefs(g, feeds, synth) != [] <==> AnyMixer(g, feeds)
  {
    var refs := FeedRefs(g, feeds, synth);
    if refs != [] { assert refs[0] in refs; }
    if n :| 0 <= n < |feeds| && g.dests[feeds[n]].hasMixer {
      assert MixerRef(g.dests[feeds[n]].channel, synth) in refs;
    }
  }

  lemma {:induction false} RefsGrow(g: Graph, i: nat, ids: map<Id, Id>, u: Id, synth: Id)
    requires ValidFeeds(g) && i < |g.sources| && (u in ids ==> ids[u] == synth)
    ensures RefsFor(g, i, Mix, ids[u := synth]) == RefsFor(g, i, Mix, ids) + set r | r in FeedRefs(g, g.sources[i].feeds, synth)
  {
    var feeds := g.sources[i].feeds;
    var grown := ids[u := synth];
    forall r | r in RefsFor(g, i, Mix, ids) || r in FeedRefs(g, feeds, synth)
      ensures r in RefsFor(g, i, Mix, grown)
    {
      if r in FeedRefs(g, feeds, synth) {
        assert u in grown && r in FeedRefs(g, feeds, grown[u]);
      } else {
        var v :| v in ids && r in FeedRefs(g, feeds, ids[v]);
        assert v in grown && r in FeedRefs(g, feeds, grown[v]);
      }
    }
  }

  lemma {:induction false} TargetsGrow(g: Graph, i: nat, ids: map<Id, Id>, u: Id, synth: Id)
    requires ValidFeeds(g) && i < |g.sources| && (u in ids ==> ids[u] == synth)
    ensures var refs := FeedRefs(g, g.sources[i].feeds, synth);
            var targets := InstallFor(g, i, Mix, ids).sourceTargets;
            InstallFor(g, i, Mix, ids[u := synth]).sourceTargets == if refs != [] then targets[u := refs] else targets
  {
    FeedRefsEmpty(g, g.sources[i].feeds, synth);
  }

  /** The per-user mix install: one input per user and fed mixer, with the
      teardown that detaches them again. */
  method BuildPerUserMix(g: Graph, i: nat, users: seq<Id>, synths: map<Id, Id>, inputs0: set<MixerRef>)
    returns (targets: map<Id, seq<MixerRef>>, teardown: set<MixerRef>, inputs: set<MixerRef>)
    requires ValidFeeds(g) && i < |g.sources|
    requires forall u :: u in users ==> u in synths
    ensures targets == InstallFor(g, i, Mix, Restrict(synths, users)).sourceTargets
    ensures teardown == RefsFor(g, i, Mix, Restrict(synths, users))
    ensures inputs == inputs0 + teardown
  {
    var feeds := g.sources[i].feeds;
    targets, teardown, inputs := map[], {}, inputs0;
    for n := 0 to |users|
      invariant targets == InstallFor(g, i, Mix, Restrict(synths, users[..n])).sourceTargets
      invariant teardown == RefsFor(g, i, Mix, Restrict(synths, users[..n]))
      invariant inputs == inputs0 + teardown
    {
      var refs, grown := AddUserInputs(g, feeds, synths[users[n]], inputs);
      RefsGrow(g, i, Restrict(synths, users[..n]), users[n], synths[users[n]]);
      TargetsGrow(g, i, Restrict(synths, users[..n]), users[n], synths[users[n]]);
      if |refs| > 0 {
        targets := targets[users[n] := refs];
      }
      inputs := grown;
      teardown := teardown + set r | r in refs;
      assert Restrict(synths, users[..n + 1]) == Restrict(synths, users[..n])[users[n] := synths[users[n]]];
    }
    assert users[..|users|] == users;
  }

  /** The install closure of every topology. */
  method BuildInstall(g: Graph, i: nat, mode: RouteMode, users: seq<Id>, synths: map<Id, Id>, inputs0: set<MixerRef>)
    returns (install: Install, teardown: set<MixerRef>, inputs: set<MixerRef>)
    requires ValidFeeds(g) && i < |g.sources|
    requires mode == Mix ==> forall u :: u in users ==> u in synths
    ensures install == InstallFor(g, i, mode, Restrict(synths, users))
    ensures teardown == RefsFor(g, i, mode, Restrict(synths, users))
    ensures inputs == inputs0 + teardown
  {
    var s := g.sources[i];
    match mode {
      case Off =>
        install, teardown, inputs := EMPTY_INSTALL, {}, inputs0;
      case Copy =>
        var outs := s.rawTargets;
        if outs == [] {
          outs := UnionOuts(g, s.feeds);
        }
        install, teardown, inputs := Install(outs, s.ally, map[]), {}, inputs0;
      case Mix =>
        var targets;
        targets, teardown, inputs := BuildPerUserMix(g, i, users, synths, inputs0);
        install := Install(s.rawTargets, false, targets);
    }
  }

  // ---------------------------------------------------------------------------
  // Copy mode preserves meaning

  /** Packets of the install reach every queue of `d` unmixed. */
  predicate RawReaches(install: Install, d: DestSlot) {
    d.outs != [] && forall o :: o in d.outs ==> o in install.opusTargets
  }

  /** Some packet of the install reaches a queue of `d` unmixed. */
  predicate RawTouches(install: Install, d: DestSlot) {
    exists o :: o in d.outs && o in install.opusTargets
  }

  /** Frames of user `u` reach the mixer of `d`. */
  predicate MixReaches(install: Install, d: DestSlot, u: Id) {
    u in install.sourceTargets && exists r :: r in install.sourceTargets[u] && r.channel == d.channel
  }

  /** Queues of `d` are touched by a copy install iff the source feeds `d`. */
  lemma CopyTouches(g: Graph, i: nat, k: nat)
    requires WellFormed(g) && i < |g.sources| && k < |g.dests| && g.sources[i].rawTargets == []
    ensures k in g.sources[i].feeds ==> forall o :: o in g.dests[k].outs ==> o in CopyTargets(g, i)
    ensures k !in g.sources[i].feeds ==> Disjoint(CopyTargets(g, i), g.dests[k].outs)
  {
    var feeds := g.sources[i].feeds;
    if k in feeds {
      var n :| 0 <= n < |feeds| && feeds[n] == k;
    } else {
      forall o | o in CopyTargets(g, i) ensures o !in g.dests[k].outs {
        var n :| 0 <= n < |feeds| && o in g.dests[feeds[n]].outs;
        if feeds[n] < k { assert Disjoint(g.dests[feeds[n]].outs, g.dests[k].outs); }
        if k < feeds[n] { assert Disjoint(g.dests[k].outs, g.dests[feeds[n]].outs); }
      }
    }
  }

  /** A mixed user reaches the mixers its source feeds and no other. */
  lemma MixReachesFed(g: Graph, i: nat, k: nat, synths: map<Id, Id>, u: Id)
    requires WellFormed(g) && i < |g.sources| && k < |g.dests| && u in synths
    ensures MixReaches(InstallFor(g, i, Mix, synths), g.dests[k], u) <==> k in g.sources[i].feeds && g.dests[k].hasMixer
  {
    var feeds := g.sources[i].feeds;
    var install := InstallFor(g, i, Mix, synths);
    if k in feeds && g.dests[k].hasMixer {
      var n :| 0 <= n < |feeds| && feeds[n] == k;
      assert MixerRef(g.dests[k].channel, synths[u]) in FeedRefs(g, feeds, synths[u]);
    }
    if MixReaches(install, g.dests[k], u) {
      var r :| r in install.sourceTargets[u] && r.channel == g.dests[k].channel;
      var n :| 0 <= n < |feeds| && g.dests[feeds[n]].hasMixer && r == MixerRef(g.dests[feeds[n]].channel, synths[u]);
      SameFeeds(g, i, feeds[n], k);
    }
  }

  lemma SameFeeds(g: Graph, i: nat, k: nat, m: nat)
    requires WellFormed(g) && i < |g.sources| && k < |g.dests| && m < |g.dests| && g.dests[k].channel == g.dests[m].channel
    ensures k in g.sources[i].feeds <==> m in g.sources[i].feeds
    ensures g.dests[k].hasMixer == g.dests[m].hasMixer
  {
    assert Alike(g.dests[k], g.dests[m]);
  }

  /** Whatever its mode, a live source reaches exactly the destinations it feeds:
      in copy mode every queue of a fed destination and nothing of any other, in
      mix mode every fed mixer for every user and no queue of any destination.
      The ally broadcast of a source that has one goes out in copy mode only;
      in mix mode the relay mixer it feeds carries it. */
  lemma OneRoute(g: Graph, i: nat, k: nat, mode: RouteMode, synths: map<Id, Id>)
    requires WellFormed(g) && i < |g.sources| && k < |g.dests| && mode != Off
    ensures var install := InstallFor(g, i, mode, synths);
            var fed := k in g.sources[i].feeds;
            var d := g.dests[k];
            && (mode == Mix || g.sources[i].rawTargets != [] ==> !RawTouches(install, d))
            && (mode == Copy && g.sources[i].rawTargets == [] && d.outs != [] ==>
                  (RawReaches(install, d) <==> fed) && (RawTouches(install, d) <==> fed))
            && (forall u :: u in synths ==> (MixReaches(install, d, u) <==> mode == Mix && fed && d.hasMixer))
            && (install.callback <==> mode == Copy && g.sources[i].ally)
  {
    var install := InstallFor(g, i, mode, synths);
    assert Disjoint(g.sources[i].rawTargets, g.dests[k].outs);
    if g.sources[i].rawTargets == [] {
      CopyTouches(g, i, k);
      if g.dests[k].outs != [] {
        assert g.dests[k].outs[0] in g.dests[k].outs;
      }
    }
    forall u | u in synths
      ensures MixReaches(install, g.dests[k], u) <==> mode == Mix && k in g.sources[i].feeds && g.dests[k].hasMixer
    {
      if mode == Mix { MixReachesFed(g, i, k, synths, u); }
    }
  }
}
