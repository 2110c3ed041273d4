/** The host pipelines: how each raid mode builds the router's graph out of the
    speakers that joined. */
module Pipelines {
  import opened Routes
  import opened Topology

  /** A speaker that joined: its bot, its voice channel, its output queue, and
      whether it captures. */
  datatype Joined = Joined(bot: Id, channel: Id, out: Out, captures: bool)

  /** The output queues of one voice channel. */
  datatype DestChannel = DestChannel(channel: Id, outs: seq<Out>)

  datatype SourceEntry = SourceEntry(id: Id, channel: Id, installable: bool)

  datatype OwnerOut = NoPlayback | Playback(out: Out)

  // ---------------------------------------------------------------------------
  // Destinations and sources

  function OutsIn(joined: seq<Joined>, ch: Id): (outs: seq<Out>)
    ensures forall o :: o in outs <==> exists j :: 0 <= j < |joined| && joined[j].channel == ch && joined[j].out == o
  {
    if joined == [] then []
    else
      var n := |joined| - 1;
      assert joined == joined[..n] + [joined[n]];
      OutsIn(joined[..n], ch) + if joined[n].channel == ch then [joined[n].out] else []
  }

  function ChannelsOf(joined: seq<Joined>): (chs: set<Id>)
    ensures forall ch :: ch in chs <==> exists j :: 0 <= j < |joined| && joined[j].channel == ch
  {
    set j | 0 <= j < |joined| :: joined[j].channel
  }

  /** One destination per channel in use, holding that channel's queues. */
  ghost predicate Groups(joined: seq<Joined>, dests: seq<DestChannel>) {
    && (forall a, b :: 0 <= a < b < |dests| ==> dests[a].channel != dests[b].channel)
    && (forall k :: 0 <= k < |dests| ==>
          dests[k].channel in ChannelsOf(joined) && dests[k].outs == OutsIn(joined, dests[k].channel))
    && (forall ch :: ch in ChannelsOf(joined) ==> exists k :: 0 <= k < |dests| && dests[k].channel == ch)
  }

  lemma {:induction false} GroupOutsDisjoint(joined: seq<Joined>, ch1: Id, ch2: Id)
    requires forall i, j :: 0 <= i < j < |joined| ==> joined[i].out != joined[j].out
    requires ch1 != ch2
    ensures Disjoint(OutsIn(joined, ch1), OutsIn(joined, ch2))
  {
    forall o | o in OutsIn(joined, ch1) ensures o !in OutsIn(joined, ch2) {
      var i :| 0 <= i < |joined| && joined[i].channel == ch1 && joined[i].out == o;
      if o in OutsIn(joined, ch2) {
        assert false;
      }
    }
  }

  lemma SpeakerHasGroup(joined: seq<Joined>, dests: seq<DestChannel>, j: nat)
    requires Groups(joined, dests) && j < |joined|
    ensures exists k :: 0 <= k < |dests| && dests[k].channel == joined[j].channel && joined[j].out in dests[k].outs
  {
    assert joined[j].channel in ChannelsOf(joined);
  }

  lemma {:induction false} NoOutsElsewhere(joined: seq<Joined>, ch: Id)
    requires ch !in ChannelsOf(joined)
    ensures OutsIn(joined, ch) == []
  {
    if OutsIn(joined, ch) != [] {
      assert OutsIn(joined, ch)[0] in OutsIn(joined, ch);
    }
  }

  method GroupByChannel(joined: seq<Joined>) returns (grouped: map<Id, seq<Out>>)
    ensures grouped.Keys == ChannelsOf(joined)
    ensures forall ch :: ch in grouped ==> grouped[ch] == OutsIn(joined, ch)
  {
    hide OutsIn, ChannelsOf;
    grouped := map[];
    NobodyGrouped();
    var n := 0;
    while n < |joined|
      invariant n <= |joined| && grouped.Keys == ChannelsOf(joined[..n])
      invariant forall ch :: ch in grouped ==> grouped[ch] == OutsIn(joined[..n], ch)
    {
      OneMoreSpeaker(joined, n);
      var r := joined[n];
      var outs := if r.channel in grouped then grouped[r.channel] else [];
      if r.channel !in grouped {
        NoOutsElsewhere(joined[..n], r.channel);
      }
      grouped := grouped[r.channel := outs + [r.out]];
      n := n + 1;
    }
    assert joined[..|joined|] == joined;
  }

  lemma NobodyGrouped()
    ensures ChannelsOf([]) == {}
  {
  }

  lemma OneMoreSpeaker(joined: seq<Joined>, n: nat)
    requires n < |joined|
    ensures ChannelsOf(joined[..n + 1]) == ChannelsOf(joined[..n]) + {joined[n].channel}
    ensures forall ch :: OutsIn(joined[..n + 1], ch)
                         == OutsIn(joined[..n], ch) + if joined[n].channel == ch then [joined[n].out] else []
  {
    var (front, all) := (joined[..n], joined[..n + 1]);
    assert all[..n] == front && all[n] == joined[n];
    forall ch
      ensures ch in ChannelsOf(all) <==> ch in ChannelsOf(front) || ch == joined[n].channel
    {
      if ch in ChannelsOf(front) {
        var j :| 0 <= j < n && front[j].channel == ch;
        assert all[j].channel == ch;
      }
    }
  }

  /** Groups the speakers' queues by channel; the channels come in any order. */
  method BuildDestinations(joined: seq<Joined>) returns (dests: seq<DestChannel>)
    ensures Groups(joined, dests)
  {
    hide OutsIn, ChannelsOf;
    var grouped := GroupByChannel(joined);
    dests := [];
    var todo := grouped.Keys;
    while todo != {}
      invariant todo <= grouped.Keys
      invariant forall k :: 0 <= k < |dests| ==> dests[k].channel in grouped && dests[k].channel !in todo
                                                 && dests[k].outs == grouped[dests[k].channel]
      invariant forall a, b :: 0 <= a < b < |dests| ==> dests[a].channel != dests[b].channel
      invariant forall ch :: ch in grouped && ch !in todo ==> exists k :: 0 <= k < |dests| && dests[k].channel == ch
      decreases |todo|
    {
      var ch :| ch in todo;
      ghost var before := dests;
      todo := todo - {ch};
      dests := dests + [DestChannel(ch, grouped[ch])];
      assert dests[|before|].channel == ch;
      assert forall k :: 0 <= k < |before| ==> dests[k] == before[k];
    }
  }

  /** The first capturing speaker of each voice channel. */
  predicate FirstCapture(joined: seq<Joined>, j: nat)
    requires j < |joined|
  {
    joined[j].captures && forall p :: 0 <= p < j && joined[p].captures ==> joined[p].channel != joined[j].channel
  }

  method DeduplicatedCaptures(joined: seq<Joined>) returns (picked: seq<nat>)
    ensures forall n :: 0 <= n < |picked| ==> picked[n] < |joined| && FirstCapture(joined, picked[n])
    ensures forall m, n :: 0 <= m < n < |picked| ==> picked[m] < picked[n]
    ensures forall j :: 0 <= j < |joined| && FirstCapture(joined, j) ==> j in picked
  {
    picked := [];
    var seen := {};
    for n := 0 to |joined|
      invariant forall ch :: ch in seen <==> exists p :: 0 <= p < n && joined[p].captures && joined[p].channel == ch
      invariant forall m :: 0 <= m < |picked| ==> picked[m] < n && FirstCapture(joined, picked[m])
      invariant forall l, m :: 0 <= l < m < |picked| ==> picked[l] < picked[m]
      invariant forall j :: 0 <= j < n && FirstCapture(joined, j) ==> j in picked
    {
      var r := joined[n];
      if !r.captures || r.channel in seen {
        continue;
      }
      seen := seen + {r.channel};
      picked := picked + [n];
    }
  }

  /** Each channel with a capturing speaker is captured exactly once. */
  lemma CapturedOnce(joined: seq<Joined>, j: nat, p: nat)
    requires j < |joined| && p < |joined| && FirstCapture(joined, j) && FirstCapture(joined, p)
    ensures joined[j].channel == joined[p].channel ==> j == p
  {
  }

  lemma CapturedAtLeastOnce(joined: seq<Joined>, ch: Id, bound: nat)
    requires bound < |joined| && joined[bound].captures && joined[bound].channel == ch
    ensures exists j :: 0 <= j < |joined| && FirstCapture(joined, j) && joined[j].channel == ch
    decreases bound
  {
    if !FirstCapture(joined, bound) {
      var p :| 0 <= p < bound && joined[p].captures && joined[p].channel == ch;
      CapturedAtLeastOnce(joined, ch, p);
    }
  }

  /** Entry `e` captures through speaker `j`. */
  predicate Captures(joined: seq<Joined>, j: nat, e: SourceEntry) {
    j < |joined| && FirstCapture(joined, j) && e == SourceEntry(joined[j].bot, joined[j].channel, true)
  }

  ghost predicate Captured(joined: seq<Joined>, e: SourceEntry) {
    exists j: nat :: Captures(joined, j, e)
  }

  method BuildSources(ownerBot: Id, ownerChannel: Id, ownerCaptures: bool, joined: seq<Joined>) returns (entries: seq<SourceEntry>)
    requires DistinctBots(ownerBot, joined)
    ensures |entries| > 0 && entries[0] == SourceEntry(ownerBot, ownerChannel, ownerCaptures)
    ensures forall n :: 1 <= n < |entries| ==> Captured(joined, entries[n])
    ensures forall j :: 0 <= j < |joined| && FirstCapture(joined, j) ==>
              SourceEntry(joined[j].bot, joined[j].channel, true) in entries
    ensures forall m, n :: 0 <= m < n < |entries| ==> entries[m].id != entries[n].id
  {
    var picked := DeduplicatedCaptures(joined);
    entries := [SourceEntry(ownerBot, ownerChannel, ownerCaptures)];
    for n := 0 to |picked|
      invariant |entries| == n + 1 && entries[0] == SourceEntry(ownerBot, ownerChannel, ownerCaptures)
      invariant forall m :: 0 <= m < n ==>
                  entries[m + 1] == SourceEntry(joined[picked[m]].bot, joined[picked[m]].channel, true)
    {
      var r := joined[picked[n]];
      entries := entries + [SourceEntry(r.bot, r.channel, true)];
    }
    forall m, n | 0 <= m < n < |entries| ensures entries[m].id != entries[n].id {
      assert entries[n] == SourceEntry(joined[picked[n - 1]].bot, joined[picked[n - 1]].channel, true);
      if m > 0 { assert entries[m] == SourceEntry(joined[picked[m - 1]].bot, joined[picked[m - 1]].channel, true); }
    }
    forall j | 0 <= j < |joined| && FirstCapture(joined, j)
      ensures SourceEntry(joined[j].bot, joined[j].channel, true) in entries
    {
      var n :| 0 <= n < |picked| && picked[n] == j;
      assert entries[n + 1] == SourceEntry(joined[j].bot, joined[j].channel, true);
    }
    forall n | 1 <= n < |entries| ensures Captured(joined, entries[n]) {
      assert entries[n] == entries[(n - 1) + 1];
      assert Captures(joined, picked[n - 1], entries[n]);
    }
  }

  /** Every bot joins once. */
  predicate DistinctBots(ownerBot: Id, joined: seq<Joined>) {
    && (forall i, j :: 0 <= i < j < |joined| ==> joined[i].bot != joined[j].bot)
    && (forall j :: 0 <= j < |joined| ==> joined[j].bot != ownerBot)
  }

  /** Every bot plays from a queue of its own. */
  predicate DistinctOuts(joined: seq<Joined>, ownerOut: OwnerOut) {
    && (forall i, j :: 0 <= i < j < |joined| ==> joined[i].out != joined[j].out)
    && (ownerOut.Playback? ==> forall j :: 0 <= j < |joined| ==> joined[j].out != ownerOut.out)
  }

  /** Real channel ids are never the relay's. */
  predicate RealChannels(ownerChannel: Id, joined: seq<Joined>) {
    ownerChannel > RELAY_DEST && forall j :: 0 <= j < |joined| ==> joined[j].channel > RELAY_DEST
  }

  /** A speaker shares the channel the owner bot plays into. */
  predicate SharesOwnerChannel(ownerChannel: Id, ownerOut: OwnerOut, joined: seq<Joined>) {
    ownerOut.Playback? && exists j :: 0 <= j < |joined| && joined[j].channel == ownerChannel
  }

  /** Some speaker in the channel captures. */
  predicate CapturedIn(joined: seq<Joined>, ch: Id) {
    exists j :: 0 <= j < |joined| && joined[j].captures && joined[j].channel == ch
  }

  /** The owner comes first; beside it each captured channel has one source. */
  ghost predicate CaptureSources(ownerChannel: Id, ownerCaptures: bool, joined: seq<Joined>, sources: seq<SourceSlot>) {
    && |sources| > 0 && sources[0].channel == ownerChannel && sources[0].installable == ownerCaptures
    && (forall i :: 1 <= i < |sources| ==> sources[i].installable)
    && (forall i, j :: 1 <= i < j < |sources| ==> sources[i].channel != sources[j].channel)
    && (forall ch :: SpeakerSourceIn(sources, ch) <==> CapturedIn(joined, ch))
  }

  predicate SpeakerSourceIn(sources: seq<SourceSlot>, ch: Id) {
    exists i :: 1 <= i < |sources| && sources[i].channel == ch
  }

  lemma EntriesCapture(ownerBot: Id, ownerChannel: Id, ownerCaptures: bool, joined: seq<Joined>, entries: seq<SourceEntry>,
                       sources: seq<SourceSlot>)
    requires |entries| > 0 && entries[0] == SourceEntry(ownerBot, ownerChannel, ownerCaptures)
    requires forall n :: 1 <= n < |entries| ==> Captured(joined, entries[n])
    requires forall j :: 0 <= j < |joined| && FirstCapture(joined, j) ==>
               SourceEntry(joined[j].bot, joined[j].channel, true) in entries
    requires forall m, n :: 0 <= m < n < |entries| ==> entries[m].id != entries[n].id
    requires DistinctBots(ownerBot, joined)
    requires |sources| == |entries|
    requires forall i :: 0 <= i < |sources| ==>
               sources[i].channel == entries[i].channel && sources[i].installable == entries[i].installable
    ensures CaptureSources(ownerChannel, ownerCaptures, joined, sources)
  {
    hide Captured, FirstCapture;
    forall i | 1 <= i < |sources|
      ensures sources[i].installable && CapturedIn(joined, sources[i].channel)
    {
      EntryCaptures(joined, entries[i]);
    }
    forall m, n | 1 <= m < n < |sources|
      ensures sources[m].channel != sources[n].channel
    {
      assert entries[m].id != entries[n].id;
      EntriesDiffer(joined, entries[m], entries[n]);
    }
    forall ch | CapturedIn(joined, ch)
      ensures SpeakerSourceIn(sources, ch)
    {
      var j := FirstOf(joined, ch);
      var e := SourceEntry(joined[j].bot, joined[j].channel, true);
      assert e in entries;
      var n :| 0 <= n < |entries| && entries[n] == e;
      assert n != 0 && sources[n].channel == ch;
    }
  }

  lemma EntryCaptures(joined: seq<Joined>, e: SourceEntry)
    requires Captured(joined, e)
    ensures e.installable && CapturedIn(joined, e.channel)
  {
    var j: nat :| Captures(joined, j, e);
  }

  lemma EntriesDiffer(joined: seq<Joined>, e: SourceEntry, f: SourceEntry)
    requires Captured(joined, e) && Captured(joined, f) && e.id != f.id
    ensures e.channel != f.channel
  {
    var j: nat :| Captures(joined, j, e);
    var p: nat :| Captures(joined, p, f);
    if e.channel == f.channel { CapturedOnce(joined, j, p); }
  }

  lemma FirstOf(joined: seq<Joined>, ch: Id) returns (j: nat)
    requires CapturedIn(joined, ch)
    ensures j < |joined| && FirstCapture(joined, j) && joined[j].channel == ch
  {
    var bound :| 0 <= bound < |joined| && joined[bound].captures && joined[bound].channel == ch;
    CapturedAtLeastOnce(joined, ch, bound);
    j :| 0 <= j < |joined| && FirstCapture(joined, j) && joined[j].channel == ch;
  }

  // ---------------------------------------------------------------------------
  // Mix-minus

  /** Positions of the destinations outside channel `ch`. */
  function Others(dests: seq<DestSlot>, ch: Id): (ps: seq<nat>)
    ensures forall k :: k in ps <==> 0 <= k < |dests| && dests[k].channel != ch
  {
    if dests == [] then []
    else
      var n := |dests| - 1;
      assert dests == dests[..n] + [dests[n]];
      Others(dests[..n], ch) + if dests[n].channel != ch then [n] else []
  }

  /** Ids of the sources outside channel `ch`. */
  function Feeders(entries: seq<SourceEntry>, ch: Id): (ids: seq<Id>)
    ensures forall s :: s in ids <==> exists i :: 0 <= i < |entries| && entries[i].id == s && entries[i].channel != ch
  {
    if entries == [] then []
    else
      var n := |entries| - 1;
      assert entries == entries[..n] + [entries[n]];
      Feeders(entries[..n], ch) + if entries[n].channel != ch then [entries[n].id] else []
  }

  function MixMinusSource(e: SourceEntry, dests: seq<DestSlot>): SourceSlot {
    SourceSlot(e.id, e.channel, e.installable, Others(dests, e.channel), true, [])
  }

  function MixMinusGraph(entries: seq<SourceEntry>, dests: seq<DestSlot>): Graph {
    Graph(seq(|entries|, i requires 0 <= i < |entries| => MixMinusSource(entries[i], dests)),
          seq(|dests|, k requires 0 <= k < |dests| => dests[k].(sources := Feeders(entries, dests[k].channel))))
  }

  predicate SameChannels(a: seq<DestSlot>, b: seq<DestSlot>) {
    |a| == |b| && forall k :: 0 <= k < |a| ==> a[k].channel == b[k].channel
  }

  lemma {:induction false} OthersDependOnChannels(a: seq<DestSlot>, b: seq<DestSlot>, ch: Id)
    requires SameChannels(a, b)
    ensures Others(a, ch) == Others(b, ch)
  {
    if a != [] {
      OthersDependOnChannels(a[..|a| - 1], b[..|b| - 1], ch);
    }
  }

  /** Wires one source to every destination outside its channel. */
  method WireSource(e: SourceEntry, dests0: seq<DestSlot>) returns (slot: SourceSlot, dests: seq<DestSlot>)
    ensures slot == MixMinusSource(e, dests0)
    ensures |dests| == |dests0|
    ensures forall k :: 0 <= k < |dests| ==>
              dests[k] == dests0[k].(sources := dests0[k].sources + if dests0[k].channel != e.channel then [e.id] else [])
  {
    hide Others;
    var feeds: seq<nat> := [];
    dests := dests0;
    assert Others([], e.channel) == [] by { NoOthers(e.channel); }
    var k := 0;
    while k < |dests0|
      invariant k <= |dests0| == |dests|
      invariant feeds == Others(dests0[..k], e.channel)
      invariant forall n :: 0 <= n < k ==>
                  dests[n] == dests0[n].(sources := dests0[n].sources + if dests0[n].channel != e.channel then [e.id] else [])
      invariant forall n :: k <= n < |dests| ==> dests[n] == dests0[n]
    {
      OneMoreOther(dests0, k, e.channel);
      if dests[k].channel != e.channel {
        feeds := feeds + [k];
        dests := dests[k := dests[k].(sources := dests[k].sources + [e.id])];
      }
      k := k + 1;
    }
    assert dests0[..|dests0|] == dests0;
    slot := SourceSlot(e.id, e.channel, e.installable, feeds, true, []);
  }

  lemma {:induction false} NoOthers(ch: Id)
    ensures Others([], ch) == []
  {
  }

  lemma {:induction false} OneMoreOther(dests: seq<DestSlot>, k: nat, ch: Id)
    requires k < |dests|
    ensures Others(dests[..k + 1], ch) == Others(dests[..k], ch) + if dests[k].channel != ch then [k] else []
  {
    assert dests[..k + 1][..k] == dests[..k];
  }

  /** Wires every source, in order. */
  method WireAll(entries: seq<SourceEntry>, dests0: seq<DestSlot>) returns (g: Graph)
    requires forall k :: 0 <= k < |dests0| ==> dests0[k].sources == []
    ensures g == MixMinusGraph(entries, dests0)
  {
    hide Feeders, Others;
    var sources: seq<SourceSlot>, dests := [], dests0;
    NobodyFeeds(dests0);
    var n := 0;
    while n < |entries|
      invariant n <= |entries| && |sources| == n && SameChannels(dests, dests0)
      invariant forall i :: 0 <= i < n ==> sources[i] == MixMinusSource(entries[i], dests0)
      invariant forall k :: 0 <= k < |dests| ==> dests[k] == dests0[k].(sources := Feeders(entries[..n], dests0[k].channel))
    {
      OneMoreFeeder(entries, n);
      OthersDependOnChannels(dests, dests0, entries[n].channel);
      var slot, wired := WireSource(entries[n], dests);
      sources, dests := sources + [slot], wired;
      n := n + 1;
    }
    assert entries[..|entries|] == entries;
    g := Graph(sources, dests);
  }

  lemma NobodyFeeds(dests: seq<DestSlot>)
    requires forall k :: 0 <= k < |dests| ==> dests[k].sources == []
    ensures forall k :: 0 <= k < |dests| ==> dests[k] == dests[k].(sources := Feeders([], dests[k].channel))
  {
  }

  lemma OneMoreFeeder(entries: seq<SourceEntry>, n: nat)
    requires n < |entries|
    ensures forall ch :: Feeders(entries[..n + 1], ch)
                         == Feeders(entries[..n], ch) + if entries[n].channel != ch then [entries[n].id] else []
  {
    assert entries[..n + 1][..n] == entries[..n];
  }

  /** Feeds and sources of a mix-minus graph are two views of the same edges: all
      but a source's own channel. */
  lemma MixMinusEdges(entries: seq<SourceEntry>, dests: seq<DestSlot>)
    requires forall i, j :: 0 <= i < j < |entries| ==> entries[i].id != entries[j].id
    ensures var g := MixMinusGraph(entries, dests);
            && ValidFeeds(g) && DistinctSources(g) && Dual(g)
            && forall i, k :: 0 <= i < |g.sources| && 0 <= k < |g.dests| ==>
                 (k in g.sources[i].feeds <==> g.dests[k].channel != g.sources[i].channel)
  {
    var g := MixMinusGraph(entries, dests);
    forall i, n | 0 <= i < |g.sources| && 0 <= n < |g.sources[i].feeds|
      ensures g.sources[i].feeds[n] < |g.dests|
    {
      assert g.sources[i].feeds[n] in Others(dests, entries[i].channel);
    }
    forall i, k | 0 <= i < |g.sources| && 0 <= k < |g.dests|
      ensures k in g.sources[i].feeds <==> g.sources[i].id in g.dests[k].sources
    {
      assert k in g.sources[i].feeds <==> dests[k].channel != entries[i].channel;
      if entries[i].id in Feeders(entries, dests[k].channel) {
        var j :| 0 <= j < |entries| && entries[j].id == entries[i].id && entries[j].channel != dests[k].channel;
        assert i == j;
      }
    }
    forall k, s | 0 <= k < |g.dests| && s in g.dests[k].sources
      ensures exists i :: 0 <= i < |g.sources| && g.sources[i].id == s
    {
      var i :| 0 <= i < |entries| && entries[i].id == s && entries[i].channel != dests[k].channel;
      assert g.sources[i].id == s;
    }
  }

  // ---------------------------------------------------------------------------
  // Sinks

  /** The queues the mixer of a channel plays into: each destination channel in
      turn replaces the sink of its mixer, so the last one stays. */
  function SinkOf(dests: seq<DestChannel>, ch: Id): seq<Out> {
    if dests == [] then []
    else if dests[|dests| - 1].channel == ch then dests[|dests| - 1].outs
    else SinkOf(dests[..|dests| - 1], ch)
  }

  /** How many tick goroutines are started for the mixer of a channel. */
  function StartsOf(dests: seq<DestChannel>, ch: Id): (n: nat)
    ensures n > 0 <==> exists k :: 0 <= k < |dests| && dests[k].channel == ch
  {
    if dests == [] then 0
    else
      var k := |dests| - 1;
      assert dests == dests[..k] + [dests[k]];
      StartsOf(dests[..k], ch) + if dests[k].channel == ch then 1 else 0
  }

  /** Sets the sink of each destination's mixer and starts a goroutine for it. */
  method StartChannelMixers(dests: seq<DestChannel>) returns (sinks: map<Id, seq<Out>>, starts: map<Id, nat>)
    ensures forall ch :: (if ch in sinks then sinks[ch] else []) == SinkOf(dests, ch)
    ensures forall ch :: (if ch in starts then starts[ch] else 0) == StartsOf(dests, ch)
    ensures (forall ch :: ch in starts ==> starts[ch] == 1) <==> DistinctChannels(dests)
  {
    hide SinkOf, StartsOf, StartedOnce, DistinctChannels;
    sinks, starts := map[], map[];
    NothingStarted();
    var n := 0;
    while n < |dests|
      invariant n <= |dests|
      invariant forall ch :: (if ch in sinks then sinks[ch] else []) == SinkOf(dests[..n], ch)
      invariant forall ch :: (if ch in starts then starts[ch] else 0) == StartsOf(dests[..n], ch)
      invariant forall ch :: ch in starts ==> starts[ch] > 0
    {
      OneMoreStarted(dests, n);
      var ch := dests[n].channel;
      sinks := sinks[ch := dests[n].outs];
      starts := starts[ch := (if ch in starts then starts[ch] else 0) + 1];
      n := n + 1;
    }
    assert dests[..|dests|] == dests;
    StartedOnceIffDistinct(dests);
    OnceOrMore(dests, starts);
  }

  lemma NothingStarted()
    ensures forall ch :: SinkOf([], ch) == [] && StartsOf([], ch) == 0
  {
  }

  lemma OneMoreStarted(dests: seq<DestChannel>, n: nat)
    requires n < |dests|
    ensures forall ch :: SinkOf(dests[..n + 1], ch) == if dests[n].channel == ch then dests[n].outs else SinkOf(dests[..n], ch)
    ensures forall ch :: StartsOf(dests[..n + 1], ch) == StartsOf(dests[..n], ch) + if dests[n].channel == ch then 1 else 0
  {
    var more := dests[..n + 1];
    assert more[..|more| - 1] == dests[..n] && more[|more| - 1] == dests[n];
    forall ch
      ensures SinkOf(more, ch) == if dests[n].channel == ch then dests[n].outs else SinkOf(dests[..n], ch)
    {
    }
  }

  lemma {:induction false} OnceOrMore(dests: seq<DestChannel>, starts: map<Id, nat>)
    requires forall ch :: (if ch in starts then starts[ch] else 0) == StartsOf(dests, ch)
    requires forall ch :: ch in starts ==> starts[ch] > 0
    ensures (forall ch :: ch in starts ==> starts[ch] == 1) <==> StartedOnce(dests)
  {
    hide StartsOf;
    if StartedOnce(dests) {
      forall ch | ch in starts ensures starts[ch] == 1 {
        assert StartsOf(dests, ch) <= 1;
      }
    }
    if forall ch :: ch in starts ==> starts[ch] == 1 {
      forall ch ensures StartsOf(dests, ch) <= 1 {
        assert ch in starts ==> starts[ch] == 1;
      }
    }
  }

  /** No mixer has two tick goroutines. */
  ghost predicate StartedOnce(dests: seq<DestChannel>) {
    forall ch :: StartsOf(dests, ch) <= 1
  }

  lemma {:induction false} StartedOnceIffDistinct(dests: seq<DestChannel>)
    ensures StartedOnce(dests) <==> DistinctChannels(dests)
  {
    if dests != [] {
      var k := |dests| - 1;
      var front := dests[..k];
      StartedOnceIffDistinct(front);
      assert forall ch :: StartsOf(dests, ch) == StartsOf(front, ch) + if dests[k].channel == ch then 1 else 0;
      if DistinctChannels(dests) {
        forall ch ensures StartsOf(dests, ch) <= 1 {
          assert StartsOf(front, ch) <= 1;
        }
      }
      if StartedOnce(dests) {
        forall ch ensures StartsOf(front, ch) <= 1 {
          assert StartsOf(dests, ch) <= 1;
        }
        assert StartsOf(dests, dests[k].channel) <= 1;
        forall a, b | 0 <= a < b < |dests| ensures dests[a].channel != dests[b].channel {
          assert front[a] == dests[a];
          if b < k { assert front[b] == dests[b]; }
        }
      }
    }
  }

  lemma {:induction false} SinkOfDistinct(dests: seq<DestChannel>, k: nat)
    requires k < |dests| && forall n :: k < n < |dests| ==> dests[n].channel != dests[k].channel
    ensures SinkOf(dests, dests[k].channel) == dests[k].outs
  {
    if k < |dests| - 1 {
      SinkOfDistinct(dests[..|dests| - 1], k);
    }
  }

  /** Mixing reaches whatever copying reaches: the mixer of every destination
      plays into all of that destination's queues. */
  ghost predicate MixersPlayAll(dests: seq<DestSlot>, played: seq<DestChannel>) {
    forall k, o :: 0 <= k < |dests| && o in dests[k].outs ==> o in SinkOf(played, dests[k].channel)
  }

  // ---------------------------------------------------------------------------
  // The three host graphs

  function Slots(dests: seq<DestChannel>): seq<DestSlot> {
    seq(|dests|, k requires 0 <= k < |dests| => DestSlot(dests[k].channel, true, dests[k].outs, []))
  }

  const RELAY_SLOT := DestSlot(RELAY_DEST, true, [], [])

  /** The guild-caller destinations: one per speaker channel, then the owner's. */
  function WithOwner(speakers: seq<DestChannel>, ownerChannel: Id, ownerOut: OwnerOut): seq<DestChannel> {
    match ownerOut
    case NoPlayback => speakers
    case Playback(out) => speakers + [DestChannel(ownerChannel, [out])]
  }

  predicate DistinctChannels(dests: seq<DestChannel>) {
    forall a, b :: 0 <= a < b < |dests| ==> dests[a].channel != dests[b].channel
  }

  /** Queues are never shared, and every destination has some. */
  lemma QueuesAreSeparate(ownerChannel: Id, ownerOut: OwnerOut, joined: seq<Joined>, speakers: seq<DestChannel>)
    requires Groups(joined, speakers) && DistinctOuts(joined, ownerOut)
    ensures var ds := WithOwner(speakers, ownerChannel, ownerOut);
            && (forall a, b :: 0 <= a < b < |ds| ==> Disjoint(ds[a].outs, ds[b].outs))
            && (forall k :: 0 <= k < |ds| ==> ds[k].outs != [])
  {
    var ds := WithOwner(speakers, ownerChannel, ownerOut);
    forall a, b | 0 <= a < b < |ds| ensures Disjoint(ds[a].outs, ds[b].outs) {
      if b < |speakers| { GroupOutsDisjoint(joined, ds[a].channel, ds[b].channel); }
    }
    forall k | 0 <= k < |speakers| ensures speakers[k].outs != [] {
      var j :| 0 <= j < |joined| && joined[j].channel == speakers[k].channel;
      assert joined[j].out in speakers[k].outs;
    }
  }

  /** An unshared owner channel leaves every destination its own mixer, which
      plays into all of the destination's queues. */
  lemma UnsharedIsDistinct(ownerChannel: Id, ownerOut: OwnerOut, joined: seq<Joined>, speakers: seq<DestChannel>)
    requires Groups(joined, speakers) && !SharesOwnerChannel(ownerChannel, ownerOut, joined)
    ensures var ds := WithOwner(speakers, ownerChannel, ownerOut);
            DistinctChannels(ds) && forall k :: 0 <= k < |ds| ==> SinkOf(ds, ds[k].channel) == ds[k].outs
  {
    var ds := WithOwner(speakers, ownerChannel, ownerOut);
    forall a, b | 0 <= a < b < |ds| ensures ds[a].channel != ds[b].channel {
      if b == |speakers| { assert ds[a].channel in ChannelsOf(joined); }
    }
    forall k | 0 <= k < |ds| ensures SinkOf(ds, ds[k].channel) == ds[k].outs {
      SinkOfDistinct(ds, k);
    }
  }

  lemma SharedClashes(ownerChannel: Id, ownerOut: OwnerOut, joined: seq<Joined>, speakers: seq<DestChannel>)
    returns (k: nat, o: Out)
    requires Groups(joined, speakers) && DistinctOuts(joined, ownerOut) && SharesOwnerChannel(ownerChannel, ownerOut, joined)
    ensures var ds := WithOwner(speakers, ownerChannel, ownerOut);
            && k < |speakers| && ds[k].channel == ownerChannel == ds[|speakers|].channel
            && o in ds[k].outs && o !in SinkOf(ds, ownerChannel)
  {
    var j :| 0 <= j < |joined| && joined[j].channel == ownerChannel;
    SpeakerHasGroup(joined, speakers, j);
    k :| 0 <= k < |speakers| && speakers[k].channel == joined[j].channel && joined[j].out in speakers[k].outs;
    o := joined[j].out;
  }

  lemma GuildDests(ownerChannel: Id, ownerOut: OwnerOut, joined: seq<Joined>, speakers: seq<DestChannel>, entries: seq<SourceEntry>)
    requires Groups(joined, speakers) && DistinctOuts(joined, ownerOut) && RealChannels(ownerChannel, joined)
    ensures var g := MixMinusGraph(entries, Slots(WithOwner(speakers, ownerChannel, ownerOut)) + [RELAY_SLOT]);
            AlikeDests(g) && SeparateOuts(g)
  {
    hide OutsIn, Feeders, Others;
    var ds := WithOwner(speakers, ownerChannel, ownerOut);
    var g := MixMinusGraph(entries, Slots(ds) + [RELAY_SLOT]);
    assert forall k :: 0 <= k < |ds| ==> g.dests[k].channel == ds[k].channel && g.dests[k].outs == ds[k].outs;
    assert g.dests[|ds|].channel == RELAY_DEST && g.dests[|ds|].outs == [];
    QueuesAreSeparate(ownerChannel, ownerOut, joined, speakers);
    forall k | 0 <= k < |ds| ensures ds[k].channel > RELAY_DEST {
      if k < |speakers| { assert ds[k].channel in ChannelsOf(joined); }
    }
  }

  lemma GuildSinks(ownerChannel: Id, ownerOut: OwnerOut, joined: seq<Joined>, speakers: seq<DestChannel>, entries: seq<SourceEntry>)
    requires Groups(joined, speakers) && DistinctOuts(joined, ownerOut)
    ensures var ds := WithOwner(speakers, ownerChannel, ownerOut);
            var g := MixMinusGraph(entries, Slots(ds) + [RELAY_SLOT]);
            && (DistinctChannels(ds) <==> !SharesOwnerChannel(ownerChannel, ownerOut, joined))
            && (MixersPlayAll(g.dests, ds) <==> !SharesOwnerChannel(ownerChannel, ownerOut, joined))
  {
    hide OutsIn, Feeders, Others;
    var ds := WithOwner(speakers, ownerChannel, ownerOut);
    var g := MixMinusGraph(entries, Slots(ds) + [RELAY_SLOT]);
    assert forall k :: 0 <= k < |ds| ==> g.dests[k].channel == ds[k].channel && g.dests[k].outs == ds[k].outs;
    assert g.dests[|ds|].outs == [];
    if SharesOwnerChannel(ownerChannel, ownerOut, joined) {
      var k, o := SharedClashes(ownerChannel, ownerOut, joined, speakers);
      assert ds[k].channel == ds[|speakers|].channel;
      assert o in g.dests[k].outs && o !in SinkOf(ds, g.dests[k].channel);
    } else {
      UnsharedIsDistinct(ownerChannel, ownerOut, joined, speakers);
    }
  }

  /** The speaker's queue belongs to the destination of its channel. */
  ghost predicate HasSlot(g: Graph, r: Joined) {
    exists k :: 0 <= k < |g.dests| && g.dests[k].channel == r.channel && r.out in g.dests[k].outs
  }

  /** Every destination has a mixer to mix its callers in. */
  predicate HasMixers(g: Graph) {
    forall k :: 0 <= k < |g.dests| ==> g.dests[k].hasMixer
  }

  /** A destination's queues are those of the speakers in its channel, and the
      owner bot's in its own. */
  ghost predicate QueuesInPlace(ownerChannel: Id, ownerOut: OwnerOut, joined: seq<Joined>, g: Graph) {
    && (forall j :: 0 <= j < |joined| ==> HasSlot(g, joined[j]))
    && (ownerOut.Playback? ==>
          exists k :: 0 <= k < |g.dests| && g.dests[k].channel == ownerChannel && ownerOut.out in g.dests[k].outs)
    && (forall k, o :: 0 <= k < |g.dests| && o in g.dests[k].outs ==>
          (ownerOut == Playback(o) && g.dests[k].channel == ownerChannel) || PlaysIn(joined, g.dests[k].channel, o))
  }

  predicate PlaysIn(joined: seq<Joined>, ch: Id, o: Out) {
    exists j :: 0 <= j < |joined| && joined[j].channel == ch && joined[j].out == o
  }

  /** What a guild-caller graph over these destinations satisfies. */
  ghost predicate GuildCallerGraph(ownerChannel: Id, ownerOut: OwnerOut, joined: seq<Joined>, g: Graph, played: seq<DestChannel>) {
    && WellFormed(g)
    && (forall i, k :: 0 <= i < |g.sources| && 0 <= k < |g.dests| ==>
          (k in g.sources[i].feeds <==> g.dests[k].channel != g.sources[i].channel))
    && |g.dests| > 0 && g.dests[|g.dests| - 1] == RELAY_SLOT.(sources := g.dests[|g.dests| - 1].sources)
    && (forall i :: 0 <= i < |g.sources| && g.sources[i].channel != RELAY_DEST ==> |g.dests| - 1 in g.sources[i].feeds)
    && HasMixers(g) && QueuesInPlace(ownerChannel, ownerOut, joined, g)
    && (forall i :: 0 <= i < |g.sources| ==> g.sources[i].ally)
    && (DistinctChannels(played) <==> !SharesOwnerChannel(ownerChannel, ownerOut, joined))
    && (StartedOnce(played) <==> !SharesOwnerChannel(ownerChannel, ownerOut, joined))
    && (MixersPlayAll(g.dests, played) <==> !SharesOwnerChannel(ownerChannel, ownerOut, joined))
  }

  lemma QueuesPlaced(ownerChannel: Id, ownerOut: OwnerOut, joined: seq<Joined>, speakers: seq<DestChannel>, g: Graph)
    requires Groups(joined, speakers)
    requires var ds := WithOwner(speakers, ownerChannel, ownerOut);
             && |g.dests| == |ds| + 1 && g.dests[|ds|].outs == []
             && forall k :: 0 <= k < |ds| ==> g.dests[k].channel == ds[k].channel && g.dests[k].outs == ds[k].outs
    ensures QueuesInPlace(ownerChannel, ownerOut, joined, g)
  {
    hide OutsIn, ChannelsOf;
    var ds := WithOwner(speakers, ownerChannel, ownerOut);
    forall j | 0 <= j < |joined| ensures HasSlot(g, joined[j]) {
      SpeakerHasGroup(joined, speakers, j);
      var k :| 0 <= k < |speakers| && speakers[k].channel == joined[j].channel && joined[j].out in speakers[k].outs;
      assert ds[k] == speakers[k] && g.dests[k].channel == joined[j].channel && joined[j].out in g.dests[k].outs;
    }
    if ownerOut.Playback? {
      assert g.dests[|speakers|].channel == ownerChannel && ownerOut.out in g.dests[|speakers|].outs;
    }
  }

  lemma GuildGraphFacts(ownerChannel: Id, ownerOut: OwnerOut, joined: seq<Joined>, speakers: seq<DestChannel>,
                        entries: seq<SourceEntry>)
    requires Groups(joined, speakers) && DistinctOuts(joined, ownerOut) && RealChannels(ownerChannel, joined)
    requires forall i, j :: 0 <= i < j < |entries| ==> entries[i].id != entries[j].id
    ensures var ds := WithOwner(speakers, ownerChannel, ownerOut);
            GuildCallerGraph(ownerChannel, ownerOut, joined, MixMinusGraph(entries, Slots(ds) + [RELAY_SLOT]), ds)
  {
    var ds := WithOwner(speakers, ownerChannel, ownerOut);
    hide ValidFeeds, Dual, DistinctSources, AlikeDests, SeparateOuts, MixersPlayAll, DistinctChannels,
      StartedOnce, SharesOwnerChannel, DistinctOuts, RealChannels, Groups;
    MixMinusEdges(entries, Slots(ds) + [RELAY_SLOT]);
    GuildDests(ownerChannel, ownerOut, joined, speakers, entries);
    GuildSinks(ownerChannel, ownerOut, joined, speakers, entries);
    StartedOnceIffDistinct(ds);
    QueuesPlaced(ownerChannel, ownerOut, joined, speakers, MixMinusGraph(entries, Slots(ds) + [RELAY_SLOT]));
  }

  /** In mix mode each caller of a source enters the mixer of every destination
      outside its channel, the relay's too, and of no other. */
  lemma GuildCallerMixes(ownerChannel: Id, ownerOut: OwnerOut, joined: seq<Joined>, g: Graph, played: seq<DestChannel>,
                         i: nat, k: nat, synths: map<Id, Id>, u: Id)
    requires GuildCallerGraph(ownerChannel, ownerOut, joined, g, played)
    requires i < |g.sources| && k < |g.dests| && u in synths
    ensures MixReaches(InstallFor(g, i, Mix, synths), g.dests[k], u) <==> g.dests[k].channel != g.sources[i].channel
    ensures g.dests[k].channel != g.sources[i].channel ==> MixerRef(g.dests[k].channel, synths[u]) in RefsFor(g, i, Mix, synths)
  {
    hide WellFormed, MixersPlayAll, QueuesInPlace, StartedOnce, DistinctChannels, SharesOwnerChannel;
    FedMixes(g, i, k, synths, u);
  }

  /** Where every destination has a mixer, a mixed user enters exactly the mixers
      its source feeds. */
  lemma FedMixes(g: Graph, i: nat, k: nat, synths: map<Id, Id>, u: Id)
    requires WellFormed(g) && HasMixers(g) && i < |g.sources| && k < |g.dests| && u in synths
    ensures MixReaches(InstallFor(g, i, Mix, synths), g.dests[k], u) <==> k in g.sources[i].feeds
    ensures k in g.sources[i].feeds ==> MixerRef(g.dests[k].channel, synths[u]) in RefsFor(g, i, Mix, synths)
  {
    hide InstallFor, RefsFor, MixReaches;
    MixReachesFed(g, i, k, synths, u);
    if k in g.sources[i].feeds {
      var n :| 0 <= n < |g.sources[i].feeds| && g.sources[i].feeds[n] == k;
      RefsForMember(g, i, Mix, synths, MixerRef(g.dests[k].channel, synths[u]));
    }
  }

  /** Every captured channel feeds every destination but its own, and the relay.
      The graph is always well-formed, but mixing plays into every queue copying
      writes exactly when no speaker shares the owner's channel. */
  method BuildGuildCaller(ownerBot: Id, ownerChannel: Id, ownerCaptures: bool, ownerOut: OwnerOut, joined: seq<Joined>)
    returns (g: Graph, played: seq<DestChannel>)
    requires DistinctBots(ownerBot, joined) && DistinctOuts(joined, ownerOut) && RealChannels(ownerChannel, joined)
    ensures GuildCallerGraph(ownerChannel, ownerOut, joined, g, played)
    ensures CaptureSources(ownerChannel, ownerCaptures, joined, g.sources) && ListedOnce(g)
    ensures forall i :: 0 <= i < |g.sources| ==> g.sources[i].rawTargets == []
  {
    hide GuildCallerGraph, CaptureSources, ListedOnce, Captured, FirstCapture, Feeders, Others, Groups,
      DistinctOuts, RealChannels, MixersPlayAll;
    var destinations := BuildDestinations(joined);
    ghost var speakers := destinations;
    if ownerOut.Playback? {
      destinations := destinations + [DestChannel(ownerChannel, [ownerOut.out])];
    }
    assert destinations == WithOwner(speakers, ownerChannel, ownerOut);
    var entries := BuildSources(ownerBot, ownerChannel, ownerCaptures, joined);
    g := WireAll(entries, Slots(destinations) + [RELAY_SLOT]);
    played := destinations;
    GuildGraphFacts(ownerChannel, ownerOut, joined, speakers, entries);
    EntriesCapture(ownerBot, ownerChannel, ownerCaptures, joined, entries, g.sources);
    MixMinusListsOnce(entries, Slots(destinations) + [RELAY_SLOT]);
  }

  predicate AllDifferent(ids: seq<Id>) {
    forall a, b :: 0 <= a < b < |ids| ==> ids[a] != ids[b]
  }

  /** No destination names a source twice. */
  predicate ListedOnce(g: Graph) {
    forall k :: 0 <= k < |g.dests| ==> AllDifferent(g.dests[k].sources)
  }

  lemma {:induction false} FeedersOnce(entries: seq<SourceEntry>, ch: Id)
    requires forall i, j :: 0 <= i < j < |entries| ==> entries[i].id != entries[j].id
    ensures AllDifferent(Feeders(entries, ch))
  {
    if entries != [] {
      var front, last := entries[..|entries| - 1], entries[|entries| - 1];
      FeedersOnce(front, ch);
      var ids, before := Feeders(entries, ch), Feeders(front, ch);
      assert ids == before + if last.channel != ch then [last.id] else [];
      forall a, b | 0 <= a < b < |ids|
        ensures ids[a] != ids[b]
      {
        assert ids[a] == before[a] && before[a] in before;
        if b < |before| {
          assert ids[b] == before[b] && before[a] != before[b];
        } else {
          assert ids[b] == last.id;
          var i :| 0 <= i < |front| && front[i].id == before[a] && front[i].channel != ch;
          assert front[i] == entries[i] && entries[i].id != last.id;
        }
      }
    }
  }

  lemma MixMinusListsOnce(entries: seq<SourceEntry>, dests: seq<DestSlot>)
    requires forall i, j :: 0 <= i < j < |entries| ==> entries[i].id != entries[j].id
    ensures ListedOnce(MixMinusGraph(entries, dests))
  {
    forall k | 0 <= k < |dests|
      ensures AllDifferent(Feeders(entries, dests[k].channel))
    {
      FeedersOnce(entries, dests[k].channel);
    }
  }

  // ---------------------------------------------------------------------------
  // One caller

  function OneCallerGraph(owner: SourceEntry, dests: seq<DestChannel>): Graph {
    var n := |dests| + 1;
    Graph([SourceSlot(owner.id, owner.channel, owner.installable, seq(n, k requires 0 <= k < n => k), true, [])],
          seq(n, k requires 0 <= k < n => (Slots(dests) + [RELAY_SLOT])[k].(sources := [owner.id])))
  }

  /** The owner alone feeds every speaker channel and the relay. */
  method BuildOneCaller(owner: SourceEntry, joined: seq<Joined>) returns (g: Graph, played: seq<DestChannel>)
    requires DistinctOuts(joined, NoPlayback) && RealChannels(owner.channel, joined)
    ensures WellFormed(g) && MixersPlayAll(g.dests, played) && StartedOnce(played)
    ensures |g.sources| == 1 && g.sources[0].id == owner.id && g.sources[0].channel == owner.channel && g.sources[0].ally
    ensures g.sources[0].installable == owner.installable && g.sources[0].rawTargets == []
    ensures forall k :: 0 <= k < |g.dests| ==> k in g.sources[0].feeds
    ensures HasMixers(g) && QueuesInPlace(owner.channel, NoPlayback, joined, g)
    ensures |g.dests| > 0 && g.dests[|g.dests| - 1] == RELAY_SLOT.(sources := [owner.id])
  {
    hide Groups, WellFormed, MixersPlayAll, StartedOnce, QueuesInPlace, DistinctOuts, RealChannels;
    var destinations := BuildDestinations(joined);
    var dests: seq<DestSlot> := [];
    var feeds: seq<nat> := [];
    var n := 0;
    while n < |destinations|
      invariant n <= |destinations|
      invariant |dests| == n && forall k :: 0 <= k < n ==> dests[k] == Slots(destinations)[k].(sources := [owner.id])
      invariant |feeds| == n && forall k :: 0 <= k < n ==> feeds[k] == k
    {
      dests := dests + [DestSlot(destinations[n].channel, true, destinations[n].outs, [owner.id])];
      feeds := feeds + [n];
      n := n + 1;
    }
    dests, feeds := dests + [RELAY_SLOT.(sources := [owner.id])], feeds + [|destinations|];
    g := Graph([SourceSlot(owner.id, owner.channel, owner.installable, feeds, true, [])], dests);
    played := destinations;
    assert feeds == OneCallerGraph(owner, destinations).sources[0].feeds;
    assert dests == OneCallerGraph(owner, destinations).dests;
    OneCallerEdges(owner, destinations);
    OneCallerFacts(owner, joined, destinations);
    OneCallerPlays(owner, joined, destinations);
  }

  lemma OneCallerPlays(owner: SourceEntry, joined: seq<Joined>, dests: seq<DestChannel>)
    requires Groups(joined, dests)
    ensures StartedOnce(dests) && QueuesInPlace(owner.channel, NoPlayback, joined, OneCallerGraph(owner, dests))
  {
    hide StartedOnce, QueuesInPlace, OutsIn;
    assert DistinctChannels(dests);
    StartedOnceIffDistinct(dests);
    QueuesPlaced(owner.channel, NoPlayback, joined, dests, OneCallerGraph(owner, dests));
  }

  /** In mix mode each caller of the owner's channel enters every mixer. */
  lemma OneCallerMixes(g: Graph, k: nat, synths: map<Id, Id>, u: Id)
    requires WellFormed(g) && HasMixers(g) && |g.sources| == 1 && forall k :: 0 <= k < |g.dests| ==> k in g.sources[0].feeds
    requires k < |g.dests| && u in synths
    ensures MixReaches(InstallFor(g, 0, Mix, synths), g.dests[k], u)
    ensures MixerRef(g.dests[k].channel, synths[u]) in RefsFor(g, 0, Mix, synths)
  {
    hide WellFormed;
    FedMixes(g, 0, k, synths, u);
  }

  lemma OneCallerEdges(owner: SourceEntry, dests: seq<DestChannel>)
    ensures var g := OneCallerGraph(owner, dests);
            && ValidFeeds(g) && DistinctSources(g) && Dual(g) && HasMixers(g)
            && forall k :: 0 <= k < |g.dests| ==> k in g.sources[0].feeds
  {
    var g := OneCallerGraph(owner, dests);
    forall k | 0 <= k < |g.dests| ensures k in g.sources[0].feeds && g.sources[0].id in g.dests[k].sources {
      assert g.sources[0].feeds[k] == k && g.dests[k].sources[0] == owner.id;
    }
  }

  lemma OneCallerFacts(owner: SourceEntry, joined: seq<Joined>, dests: seq<DestChannel>)
    requires Groups(joined, dests) && DistinctOuts(joined, NoPlayback) && RealChannels(owner.channel, joined)
    ensures var g := OneCallerGraph(owner, dests);
            WellFormed(g) && MixersPlayAll(g.dests, dests)
  {
    hide SinkOf, ValidFeeds, DistinctSources, Dual;
    OneCallerEdges(owner, dests);
    var g := OneCallerGraph(owner, dests);
    var mixMinus := MixMinusGraph([], Slots(dests) + [RELAY_SLOT]);
    assert WithOwner(dests, owner.channel, NoPlayback) == dests;
    GuildDests(owner.channel, NoPlayback, joined, dests, []);
    GuildSinks(owner.channel, NoPlayback, joined, dests, []);
    assert forall k :: 0 <= k < |g.dests| ==>
      g.dests[k].channel == mixMinus.dests[k].channel && g.dests[k].outs == mixMinus.dests[k].outs;
    forall a, b | 0 <= a < |g.dests| && 0 <= b < |g.dests| ensures Alike(g.dests[a], g.dests[b]) {
      assert Alike(mixMinus.dests[a], mixMinus.dests[b]);
    }
  }

  // ---------------------------------------------------------------------------
  // Star

  function HubDests(dests: seq<DestChannel>, ownerChannel: Id): (hub: seq<DestChannel>)
    ensures forall d :: d in hub <==> d in dests && d.channel == ownerChannel
  {
    if dests == [] then []
    else
      var n := |dests| - 1;
      assert dests == dests[..n] + [dests[n]];
      HubDests(dests[..n], ownerChannel) + if dests[n].channel == ownerChannel then [dests[n]] else []
  }

  function AllOuts(dests: seq<DestChannel>): (outs: seq<Out>)
    ensures forall o :: o in outs <==> exists k :: 0 <= k < |dests| && o in dests[k].outs
  {
    if dests == [] then []
    else
      var n := |dests| - 1;
      assert dests == dests[..n] + [dests[n]];
      AllOuts(dests[..n]) + dests[n].outs
  }

  function SpeakerOuts(dests: seq<DestChannel>, ownerChannel: Id): (outs: seq<Out>)
    ensures forall o :: o in outs <==> exists k :: 0 <= k < |dests| && dests[k].channel != ownerChannel && o in dests[k].outs
  {
    if dests == [] then []
    else
      var n := |dests| - 1;
      assert dests == dests[..n] + [dests[n]];
      SpeakerOuts(dests[..n], ownerChannel) + if dests[n].channel != ownerChannel then dests[n].outs else []
  }

  function StarSource(e: SourceEntry, ownerChannel: Id, speakerOuts: seq<Out>): SourceSlot {
    if e.channel == ownerChannel then SourceSlot(e.id, e.channel, e.installable, [1], true, speakerOuts)
    else SourceSlot(e.id, e.channel, e.installable, [0], false, [])
  }

  function InChannel(entries: seq<SourceEntry>, ch: Id): (ids: seq<Id>)
    ensures forall s :: s in ids <==> exists i :: 0 <= i < |entries| && entries[i].id == s && entries[i].channel == ch
  {
    if entries == [] then []
    else
      var n := |entries| - 1;
      assert entries == entries[..n] + [entries[n]];
      InChannel(entries[..n], ch) + if entries[n].channel == ch then [entries[n].id] else []
  }

  /** The hub hears the speakers, the relay hears the owner's channel, and the
      owner's raw packets go to the speakers' queues in either live mode. */
  function StarGraph(entries: seq<SourceEntry>, ownerChannel: Id, speakerOuts: seq<Out>, hubOuts: seq<Out>): Graph {
    Graph(seq(|entries|, i requires 0 <= i < |entries| => StarSource(entries[i], ownerChannel, speakerOuts)),
          [DestSlot(ownerChannel, true, hubOuts, Feeders(entries, ownerChannel)),
           DestSlot(RELAY_DEST, true, [], InChannel(entries, ownerChannel))])
  }

  lemma StarFacts(entries: seq<SourceEntry>, ownerChannel: Id, speakerOuts: seq<Out>, hubOuts: seq<Out>)
    requires forall i, j :: 0 <= i < j < |entries| ==> entries[i].id != entries[j].id
    requires ownerChannel > RELAY_DEST && Disjoint(speakerOuts, hubOuts)
    ensures WellFormed(StarGraph(entries, ownerChannel, speakerOuts, hubOuts))
  {
    hide Feeders, InChannel, Dual;
    StarEdges(entries, ownerChannel, speakerOuts, hubOuts);
  }

  lemma StarEdges(entries: seq<SourceEntry>, ownerChannel: Id, speakerOuts: seq<Out>, hubOuts: seq<Out>)
    requires forall i, j :: 0 <= i < j < |entries| ==> entries[i].id != entries[j].id
    ensures Dual(StarGraph(entries, ownerChannel, speakerOuts, hubOuts))
  {
    hide Feeders, InChannel;
    var g := StarGraph(entries, ownerChannel, speakerOuts, hubOuts);
    forall i, k | 0 <= i < |g.sources| && 0 <= k < |g.dests|
      ensures k in g.sources[i].feeds <==> g.sources[i].id in g.dests[k].sources
    {
      if g.sources[i].id in g.dests[k].sources {
        var j :| 0 <= j < |entries| && entries[j].id == entries[i].id
                 && (if k == 0 then entries[j].channel != ownerChannel else entries[j].channel == ownerChannel);
        assert i == j;
      }
    }
    forall k, s | 0 <= k < |g.dests| && s in g.dests[k].sources
      ensures exists i :: 0 <= i < |g.sources| && g.sources[i].id == s
    {
      var i :| 0 <= i < |entries| && entries[i].id == s;
      assert g.sources[i].id == s;
    }
  }

  /** A destination in the owner's channel is split off for the hub mixer; all
      other queues become the owner's raw targets. */
  method Partition(destinations: seq<DestChannel>, ownerChannel: Id) returns (ownerDests: seq<DestChannel>, speakerOuts: seq<Out>)
    ensures ownerDests == HubDests(destinations, ownerChannel)
    ensures speakerOuts == SpeakerOuts(destinations, ownerChannel)
  {
    ownerDests, speakerOuts := [], [];
    for n := 0 to |destinations|
      invariant ownerDests == HubDests(destinations[..n], ownerChannel)
      invariant speakerOuts == SpeakerOuts(destinations[..n], ownerChannel)
    {
      assert destinations[..n + 1][..n] == destinations[..n];
      if destinations[n].channel == ownerChannel {
        ownerDests := ownerDests + [destinations[n]];
      } else {
        speakerOuts := speakerOuts + destinations[n].outs;
      }
    }
    assert destinations[..|destinations|] == destinations;
  }

  method WireStar(entries: seq<SourceEntry>, ownerChannel: Id, speakerOuts: seq<Out>, hubOuts: seq<Out>) returns (g: Graph)
    ensures g == StarGraph(entries, ownerChannel, speakerOuts, hubOuts)
  {
    var sources: seq<SourceSlot> := [];
    var hub, relay := DestSlot(ownerChannel, true, hubOuts, []), RELAY_SLOT;
    for n := 0 to |entries|
      invariant |sources| == n && forall i :: 0 <= i < n ==> sources[i] == StarSource(entries[i], ownerChannel, speakerOuts)
      invariant hub == DestSlot(ownerChannel, true, hubOuts, Feeders(entries[..n], ownerChannel))
      invariant relay == DestSlot(RELAY_DEST, true, [], InChannel(entries[..n], ownerChannel))
    {
      assert entries[..n + 1][..n] == entries[..n];
      var e := entries[n];
      if e.channel == ownerChannel {
        sources := sources + [SourceSlot(e.id, e.channel, e.installable, [1], true, speakerOuts)];
        relay := relay.(sources := relay.sources + [e.id]);
      } else {
        sources := sources + [SourceSlot(e.id, e.channel, e.installable, [0], false, [])];
        hub := hub.(sources := hub.sources + [e.id]);
      }
    }
    assert entries[..|entries|] == entries;
    g := Graph(sources, [hub, relay]);
  }

  lemma {:induction false} NoHubDest(dests: seq<DestChannel>, ch: Id)
    requires forall k :: 0 <= k < |dests| ==> dests[k].channel != ch
    ensures HubDests(dests, ch) == []
  {
    assert HubDests(dests, ch) != [] ==> HubDests(dests, ch)[0] in HubDests(dests, ch);
  }

  lemma {:induction false} OneHubDest(dests: seq<DestChannel>, ch: Id)
    requires forall a, b :: 0 <= a < b < |dests| ==> dests[a].channel != dests[b].channel
    ensures |HubDests(dests, ch)| <= 1
  {
    if dests != [] {
      var n := |dests| - 1;
      OneHubDest(dests[..n], ch);
      if dests[n].channel == ch {
        NoHubDest(dests[..n], ch);
      }
    }
  }

  /** Hub queues are the owner's queue and those of speakers in its channel. */
  lemma {:induction false} HubOuts(ownerChannel: Id, ownerOut: OwnerOut, joined: seq<Joined>, dests: seq<DestChannel>, o: Out)
    requires Groups(joined, dests)
    ensures o in AllOuts(WithOwner(HubDests(dests, ownerChannel), ownerChannel, ownerOut)) <==>
              (ownerOut.Playback? && o == ownerOut.out) || o in OutsIn(joined, ownerChannel)
  {
    hide AllOuts, HubDests, OutsIn, Groups;
    HubSpeakerOuts(ownerChannel, joined, dests, o);
    var hub := HubDests(dests, ownerChannel);
    var ds := WithOwner(hub, ownerChannel, ownerOut);
    if o in AllOuts(ds) {
      var k :| 0 <= k < |ds| && o in ds[k].outs;
      assert k < |hub| ==> ds[k] == hub[k];
    }
    if o in AllOuts(hub) {
      var k :| 0 <= k < |hub| && o in hub[k].outs;
      assert ds[k] == hub[k];
    }
    if ownerOut.Playback? {
      assert ds[|hub|].outs == [ownerOut.out];
    }
  }

  lemma {:induction false} HubSpeakerOuts(ownerChannel: Id, joined: seq<Joined>, dests: seq<DestChannel>, o: Out)
    requires Groups(joined, dests)
    ensures o in AllOuts(HubDests(dests, ownerChannel)) <==> o in OutsIn(joined, ownerChannel)
  {
    hide AllOuts, HubDests, OutsIn, ChannelsOf;
    var hub := HubDests(dests, ownerChannel);
    if o in AllOuts(hub) {
      var k :| 0 <= k < |hub| && o in hub[k].outs;
      assert hub[k] in hub;
    }
    if o in OutsIn(joined, ownerChannel) {
      var j :| 0 <= j < |joined| && joined[j].channel == ownerChannel && joined[j].out == o;
      SpeakerHasGroup(joined, dests, j);
      var k :| 0 <= k < |dests| && dests[k].channel == joined[j].channel && joined[j].out in dests[k].outs;
      assert dests[k] in hub;
      var h :| 0 <= h < |hub| && hub[h] == dests[k];
    }
  }

  lemma {:induction false} StarOuts(ownerChannel: Id, ownerOut: OwnerOut, joined: seq<Joined>, dests: seq<DestChannel>)
    requires Groups(joined, dests) && DistinctOuts(joined, ownerOut)
    ensures var ds := WithOwner(HubDests(dests, ownerChannel), ownerChannel, ownerOut);
            Disjoint(SpeakerOuts(dests, ownerChannel), AllOuts(ds))
  {
    SpeakerOutsAreSpeakers(ownerChannel, joined, dests);
    forall o | o in SpeakerOuts(dests, ownerChannel)
      ensures o !in AllOuts(WithOwner(HubDests(dests, ownerChannel), ownerChannel, ownerOut))
    {
      HubOuts(ownerChannel, ownerOut, joined, dests, o);
    }
  }

  lemma {:induction false} StarSinks(ownerChannel: Id, ownerOut: OwnerOut, joined: seq<Joined>, dests: seq<DestChannel>)
    requires Groups(joined, dests) && DistinctOuts(joined, ownerOut)
    ensures var ds := WithOwner(HubDests(dests, ownerChannel), ownerChannel, ownerOut);
            (forall o :: o in AllOuts(ds) ==> o in SinkOf(ds, ownerChannel))
            <==> !SharesOwnerChannel(ownerChannel, ownerOut, joined)
  {
    if SharesOwnerChannel(ownerChannel, ownerOut, joined) {
      var j :| 0 <= j < |joined| && joined[j].channel == ownerChannel;
      HubOuts(ownerChannel, ownerOut, joined, dests, joined[j].out);
      assert joined[j].out !in SinkOf(WithOwner(HubDests(dests, ownerChannel), ownerChannel, ownerOut), ownerChannel);
    } else {
      HubPlaysAll(ownerChannel, ownerOut, joined, dests);
    }
  }

  /** The hub mixer is started once for the owner and once for the speakers there. */
  lemma {:induction false} StarStarts(ownerChannel: Id, ownerOut: OwnerOut, joined: seq<Joined>, dests: seq<DestChannel>)
    requires Groups(joined, dests)
    ensures var ds := WithOwner(HubDests(dests, ownerChannel), ownerChannel, ownerOut);
            StartedOnce(ds) <==> !SharesOwnerChannel(ownerChannel, ownerOut, joined)
  {
    hide StartsOf, StartedOnce, HubDests, OutsIn, Groups, ChannelsOf;
    var hub := HubDests(dests, ownerChannel);
    var ds := WithOwner(hub, ownerChannel, ownerOut);
    StartedOnceIffDistinct(ds);
    HubIsOne(ownerChannel, joined, dests);
    if hub != [] {
      assert hub[0] in hub;
      if ownerOut.Playback? { assert ds[0].channel == ds[1].channel; }
    }
  }

  lemma {:induction false} HubIsOne(ownerChannel: Id, joined: seq<Joined>, dests: seq<DestChannel>)
    requires Groups(joined, dests)
    ensures |HubDests(dests, ownerChannel)| <= 1
    ensures HubDests(dests, ownerChannel) != [] <==> exists j :: 0 <= j < |joined| && joined[j].channel == ownerChannel
  {
    hide HubDests, OutsIn;
    var hub := HubDests(dests, ownerChannel);
    OneHubDest(dests, ownerChannel);
    if j :| 0 <= j < |joined| && joined[j].channel == ownerChannel {
      SpeakerHasGroup(joined, dests, j);
      var k :| 0 <= k < |dests| && dests[k].channel == joined[j].channel && joined[j].out in dests[k].outs;
      assert dests[k] in hub;
    }
    if hub != [] {
      assert hub[0] in hub && hub[0] in dests;
      var k :| 0 <= k < |dests| && dests[k] == hub[0];
      assert dests[k].channel in ChannelsOf(joined);
    }
  }

  lemma {:induction false} HubPlaysAll(ownerChannel: Id, ownerOut: OwnerOut, joined: seq<Joined>, dests: seq<DestChannel>)
    requires Groups(joined, dests) && !SharesOwnerChannel(ownerChannel, ownerOut, joined)
    ensures var ds := WithOwner(HubDests(dests, ownerChannel), ownerChannel, ownerOut);
            forall o :: o in AllOuts(ds) ==> o in SinkOf(ds, ownerChannel)
  {
    var hub := HubDests(dests, ownerChannel);
    var ds := WithOwner(hub, ownerChannel, ownerOut);
    OneHubDest(dests, ownerChannel);
    if hub != [] {
      assert hub[0] in hub && ownerChannel in ChannelsOf(joined);
    }
    assert |ds| <= 1;
    if ds != [] {
      assert ds[0].channel == ownerChannel;
      SinkOfDistinct(ds, 0);
    }
  }

  lemma {:induction false} StarPlaysAll(entries: seq<SourceEntry>, ownerChannel: Id, speakerOuts: seq<Out>, ds: seq<DestChannel>)
    ensures MixersPlayAll(StarGraph(entries, ownerChannel, speakerOuts, AllOuts(ds)).dests, ds)
            <==> forall o :: o in AllOuts(ds) ==> o in SinkOf(ds, ownerChannel)
  {
    var dests := StarGraph(entries, ownerChannel, speakerOuts, AllOuts(ds)).dests;
    assert dests[0].outs == AllOuts(ds) && dests[0].channel == ownerChannel && dests[1].outs == [];
  }

  lemma {:induction false} SpeakerOutsAreSpeakers(ownerChannel: Id, joined: seq<Joined>, dests: seq<DestChannel>)
    requires Groups(joined, dests)
    ensures forall o :: o in SpeakerOuts(dests, ownerChannel) <==>
                          exists j :: 0 <= j < |joined| && joined[j].channel != ownerChannel && joined[j].out == o
  {
    forall j | 0 <= j < |joined| && joined[j].channel != ownerChannel
      ensures joined[j].out in SpeakerOuts(dests, ownerChannel)
    {
      SpeakerHasGroup(joined, dests, j);
    }
  }

  /** The star graph is well-formed for every set of speakers, but the hub mixer
      plays into all of its queues exactly when no speaker shares the owner's
      channel. */
  method BuildStar(ownerBot: Id, ownerChannel: Id, ownerCaptures: bool, ownerOut: OwnerOut, joined: seq<Joined>)
    returns (g: Graph, played: seq<DestChannel>)
    requires DistinctBots(ownerBot, joined) && DistinctOuts(joined, ownerOut) && RealChannels(ownerChannel, joined)
    ensures WellFormed(g) && HasMixers(g) && CaptureSources(ownerChannel, ownerCaptures, joined, g.sources)
    ensures |g.dests| == 2 && g.dests[0].channel == ownerChannel && g.dests[1] == RELAY_SLOT.(sources := g.dests[1].sources)
    ensures forall o :: o in g.dests[0].outs <==> ownerOut == Playback(o) || PlaysIn(joined, ownerChannel, o)
    ensures forall i :: 0 <= i < |g.sources| ==>
              if g.sources[i].channel == ownerChannel
              then g.sources[i].feeds == [1] && g.sources[i].ally
                   && forall o :: o in g.sources[i].rawTargets <==>
                        exists j :: 0 <= j < |joined| && joined[j].channel != ownerChannel && joined[j].out == o
              else g.sources[i].feeds == [0] && !g.sources[i].ally && g.sources[i].rawTargets == []
    ensures MixersPlayAll(g.dests, played) <==> !SharesOwnerChannel(ownerChannel, ownerOut, joined)
    ensures StartedOnce(played) <==> !SharesOwnerChannel(ownerChannel, ownerOut, joined)
  {
    hide WellFormed, StartedOnce, Groups, DistinctOuts, SharesOwnerChannel, MixersPlayAll, CaptureSources, Captured, FirstCapture,
      HubDests, AllOuts, SpeakerOuts, Feeders, InChannel;
    var entries := BuildSources(ownerBot, ownerChannel, ownerCaptures, joined);
    var destinations := BuildDestinations(joined);
    var ownerDests, speakerOuts := Partition(destinations, ownerChannel);
    ghost var hub := ownerDests;
    if ownerOut.Playback? {
      ownerDests := ownerDests + [DestChannel(ownerChannel, [ownerOut.out])];
    }
    g := WireStar(entries, ownerChannel, speakerOuts, AllOuts(ownerDests));
    played := ownerDests;
    assert ownerDests == WithOwner(hub, ownerChannel, ownerOut);
    StarOuts(ownerChannel, ownerOut, joined, destinations);
    StarSinks(ownerChannel, ownerOut, joined, destinations);
    SpeakerOutsAreSpeakers(ownerChannel, joined, destinations);
    StarStarts(ownerChannel, ownerOut, joined, destinations);
    StarPlaysAll(entries, ownerChannel, speakerOuts, ownerDests);
    StarFacts(entries, ownerChannel, speakerOuts, AllOuts(ownerDests));
    forall o ensures o in g.dests[0].outs <==> ownerOut == Playback(o) || PlaysIn(joined, ownerChannel, o) {
      HubOuts(ownerChannel, ownerOut, joined, destinations, o);
    }
    EntriesCapture(ownerBot, ownerChannel, ownerCaptures, joined, entries, g.sources);
  }

  /** In mix mode the owner channel's callers enter the relay's mixer only, all
      others the hub's only. */
  lemma StarMixes(g: Graph, ownerChannel: Id, i: nat, k: nat, synths: map<Id, Id>, u: Id)
    requires WellFormed(g) && HasMixers(g) && |g.dests| == 2 && i < |g.sources| && k < 2 && u in synths
    requires g.sources[i].feeds == if g.sources[i].channel == ownerChannel then [1] else [0]
    ensures MixReaches(InstallFor(g, i, Mix, synths), g.dests[k], u) <==> (k == 1 <==> g.sources[i].channel == ownerChannel)
  {
    hide WellFormed;
    FedMixes(g, i, k, synths, u);
  }
}
