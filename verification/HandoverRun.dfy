/** A raid in which a queue has two raw writers for a while: the only caller
    changes channels. */
module HandoverRun {
  import opened Routes
  import opened Topology
  import opened Handover
  import opened AutoRouter
  import opened Pipelines

  /** One user calls, in one channel, and no other guild feeds the relay. */
  function OneCalls(ch: Id, u: Id, listeners: map<Id, bool>): Probe {
    Probe(map[ch := [u]], listeners, map[])
  }

  predicate OnlySourceIn(g: Graph, i: nat)
    requires i < |g.sources|
  {
    forall j :: 0 <= j < |g.sources| && j != i ==> g.sources[j].channel != g.sources[i].channel
  }

  lemma OnlyOneLive(g: Graph, i: nat, u: Id, listeners: map<Id, bool>, s: nat)
    requires WellFormed(g) && i < |g.sources| && OnlySourceIn(g, i) && s < |g.sources|
    ensures var probe := OneCalls(g.sources[i].channel, u, listeners);
            ModeOf(BaselineFor(g, probe), g.sources[s].id) == if s == i then Copy else Off
  {
    var probe := OneCalls(g.sources[i].channel, u, listeners);
    assert UniqueSources(SourcesOf(g));
    BaselineOf(SourcesOf(g), CountsOf(probe), s);
  }

  /** A lone caller's source copies and every other is off. */
  lemma LoneCaller(g: Graph, i: nat, u: Id, listeners: map<Id, bool>, s: nat)
    requires WellFormed(g) && ListedOnce(g) && i < |g.sources| && OnlySourceIn(g, i) && s < |g.sources|
    ensures ModeFor(g, OneCalls(g.sources[i].channel, u, listeners), s) == if s == i then Copy else Off
  {
    hide Baseline, OnlySourceIn;
    var probe := OneCalls(g.sources[i].channel, u, listeners);
    var base := BaselineFor(g, probe);
    forall n | 0 <= n < |g.sources|
      ensures ModeOf(base, g.sources[n].id) == if n == i then Copy else Off
    {
      OnlyOneLive(g, i, u, listeners, n);
    }
    forall k | 0 <= k < |g.dests|
      ensures !Seeded(base, DestsOf(g)[k], map[])
    {
      NeverSeeded(g, base, i, k);
    }
  }

  lemma NeverSeeded(g: Graph, base: map<Id, RouteMode>, i: nat, k: nat)
    requires WellFormed(g) && ListedOnce(g) && i < |g.sources| && k < |g.dests|
    requires forall n :: 0 <= n < |g.sources| ==> ModeOf(base, g.sources[n].id) == if n == i then Copy else Off
    ensures !Seeded(base, DestsOf(g)[k], map[])
  {
    var ids := g.dests[k].sources;
    assert DestsOf(g)[k].sourceIds == ids && AllDifferent(ids);
    forall a | 0 <= a < |ids|
      ensures ModeOf(base, ids[a]) != Mix && (Live(base, ids[a]) ==> ids[a] == g.sources[i].id)
    {
      assert ids[a] in ids;
      var n :| 0 <= n < |g.sources| && g.sources[n].id == ids[a];
    }
  }

  /** The positions in order, and in order with one moved to the front. */
  function Upto(n: nat): seq<nat> {
    seq(n, i => i)
  }

  function Without(n: nat, j: nat): (ps: seq<nat>)
    ensures forall p :: p in ps <==> 0 <= p < n && p != j
  {
    if n == 0 then [] else Without(n - 1, j) + if n - 1 != j then [n - 1] else []
  }

  lemma UptoOrders(n: nat)
    ensures Order(Upto(n), n)
  {
    forall i | 0 <= i < n ensures i in Upto(n) {
      assert Upto(n)[i] == i;
    }
  }

  lemma {:induction false} WithoutIsDistinct(n: nat, j: nat)
    ensures AllDifferent(Without(n, j))
  {
    if n > 0 {
      WithoutIsDistinct(n - 1, j);
      var ps := Without(n - 1, j);
      forall a | 0 <= a < |ps| ensures ps[a] != n - 1 {
        assert ps[a] in ps;
      }
    }
  }

  lemma {:induction false} FirstOrders(n: nat, j: nat)
    requires j < n
    ensures Order([j] + Without(n, j), n)
  {
    var order := [j] + Without(n, j);
    WithoutIsDistinct(n, j);
    assert order[0] == j;
    forall a, b | 0 <= a < b < |order| ensures order[a] != order[b] {
      assert order[b] == Without(n, j)[b - 1] && order[b] in Without(n, j);
      if a > 0 { assert order[a] == Without(n, j)[a - 1]; }
    }
  }

  lemma {:induction false} NewcomerIsFirst(g: Graph, before: Modes, after: Modes, i: nat, j: nat, k: nat)
    requires i < |g.sources| && j < |g.sources| && i != j && CopiesInto(g, before, i, k) && CopiesInto(g, after, j, k)
    ensures HandedOver(g, before, after, [j] + Without(|g.sources|, j), k)
  {
    var order := [j] + Without(|g.sources|, j);
    assert i in Without(|g.sources|, j);
    var b :| 0 <= b < |Without(|g.sources|, j)| && Without(|g.sources|, j)[b] == i;
    assert order[0] == j && order[b + 1] == i;
  }

  /** On any graph two sources of different channels feed a destination with
      queues: the only caller is first in one of the channels, then in the other,
      and the new source is visited first. */
  method Change(r: Router, i: nat, j: nat, ghost k: nat, ghost o: Out, u: Id, v: Id, listeners: map<Id, bool>)
    requires r.Valid() && !r.closed && ListedOnce(r.g)
    requires i < |r.g.sources| && j < |r.g.sources| && i != j && OnlySourceIn(r.g, i) && OnlySourceIn(r.g, j)
    requires r.g.sources[i].installable && r.g.sources[j].installable
    requires r.g.sources[i].rawTargets == r.g.sources[j].rawTargets == []
    requires k < |r.g.dests| && k in r.g.sources[i].feeds && k in r.g.sources[j].feeds && o in r.g.dests[k].outs
    modifies r
    ensures r.Valid() && !r.closed && old(r.trace) <= r.trace
    ensures TwoWritersDuring(r.trace, |old(r.trace)| - 1, o)
  {
    hide WellFormed, ModeFor, Order, OneCopy, Wired, SlotsMatch, Ledger, SafeHistory, HandedOver, OnlySourceIn, TwoWriters,
      RunsFor, ListedOnce, Upto, Without;
    var n := |r.g.sources|;
    UptoOrders(n);
    FirstOrders(n, j);
    var first := OneCalls(r.g.sources[i].channel, u, listeners);
    var second := OneCalls(r.g.sources[j].channel, v, listeners);
    r.Recompute(first, Upto(n));
    ghost var before, from := SlotModes(r.slots), |r.trace| - 1;
    assert r.SourceSettled(first, i);
    r.Recompute(second, [j] + Without(n, j));
    assert r.SourceSettled(second, j);
    LoneCaller(r.g, i, u, listeners, i);
    LoneCaller(r.g, j, v, listeners, j);
    NewcomerIsFirst(r.g, before, SlotModes(r.slots), i, j, k);
    assert TwoWritersDuring(r.trace, from, o);
  }

  /** In a guild-caller raid it takes three speakers in three channels of their
      own, two of them capturing, and a caller who goes from the one to the other:
      the third speaker's queue then has two raw writers. */
  method Raid(ownerBot: Id, ownerChannel: Id, ownerCaptures: bool, ownerOut: OwnerOut, joined: seq<Joined>,
              a: nat, b: nat, c: nat, u: Id, v: Id, listeners: map<Id, bool>)
    returns (r: Router)
    requires DistinctBots(ownerBot, joined) && DistinctOuts(joined, ownerOut) && RealChannels(ownerChannel, joined)
    requires a < |joined| && b < |joined| && c < |joined| && joined[a].captures && joined[b].captures
    requires AllDifferent([ownerChannel, joined[a].channel, joined[b].channel, joined[c].channel])
    ensures r.Valid() && !r.closed && r.trace[0].installs == map[]
    ensures TwoWritersDuring(r.trace, 0, joined[c].out)
  {
    hide WellFormed, DistinctOuts, RealChannels, MixersPlayAll, StartedOnce, DistinctChannels, SharesOwnerChannel, ListedOnce,
      CaptureSources, SafeHistory, Wired, SlotsMatch, Ledger;
    var g, played := BuildGuildCaller(ownerBot, ownerChannel, ownerCaptures, ownerOut, joined);
    r := new Router(g);
    assert HasSlot(g, joined[c]);
    ghost var k :| 0 <= k < |g.dests| && g.dests[k].channel == joined[c].channel && joined[c].out in g.dests[k].outs;
    ghost var chs := [ownerChannel, joined[a].channel, joined[b].channel, joined[c].channel];
    assert chs[0] != chs[1] && chs[0] != chs[2] && chs[1] != chs[2] && chs[1] != chs[3] && chs[2] != chs[3];
    var i := SourceIn(g, ownerChannel, ownerCaptures, joined, joined[a].channel);
    var j := SourceIn(g, ownerChannel, ownerCaptures, joined, joined[b].channel);
    Change(r, i, j, k, joined[c].out, u, v, listeners);
  }

  method SourceIn(g: Graph, ownerChannel: Id, ownerCaptures: bool, joined: seq<Joined>, ch: Id) returns (i: nat)
    requires CaptureSources(ownerChannel, ownerCaptures, joined, g.sources) && CapturedIn(joined, ch) && ch != ownerChannel
    ensures i < |g.sources| && g.sources[i].channel == ch && g.sources[i].installable && OnlySourceIn(g, i)
  {
    assert SpeakerSourceIn(g.sources, ch);
    i := 1;
    while g.sources[i].channel != ch
      invariant 1 <= i < |g.sources| && exists m :: i <= m < |g.sources| && g.sources[m].channel == ch
      decreases |g.sources| - i
    {
      i := i + 1;
    }
  }
}
