/** The star pipeline under the router: who writes raw into the speakers' queues. */
module StarRun {
  import opened Routes
  import opened Topology
  import opened Handover
  import opened AutoRouter
  import opened Pipelines

  predicate SpeakerElsewhere(joined: seq<Joined>, ownerChannel: Id) {
    exists j :: 0 <= j < |joined| && joined[j].channel != ownerChannel
  }

  /** The owner bot and a speaker both capture the owner's channel, somebody
      there calls, and there is a queue for both to write into. */
  predicate TwoCapture(ownerChannel: Id, ownerCaptures: bool, joined: seq<Joined>, probe: Probe) {
    ownerCaptures && CapturedIn(joined, ownerChannel) && SpeakerElsewhere(joined, ownerChannel)
    && |UsersIn(probe.users, ownerChannel)| > 0
  }

  /** What `BuildStar` says about its sources. */
  ghost predicate StarTargets(ownerChannel: Id, joined: seq<Joined>, g: Graph) {
    forall i :: 0 <= i < |g.sources| ==>
      if g.sources[i].channel == ownerChannel
      then forall o :: o in g.sources[i].rawTargets <==>
             exists j :: 0 <= j < |joined| && joined[j].channel != ownerChannel && joined[j].out == o
      else g.sources[i].rawTargets == []
  }

  lemma LiveWithCallers(g: Graph, probe: Probe, i: nat)
    requires WellFormed(g) && i < |g.sources|
    ensures ModeFor(g, probe, i) != Off <==> |UsersIn(probe.users, g.sources[i].channel)| > 0
  {
    assert SourcesOf(g)[i].id == g.sources[i].id;
    assert UniqueSources(SourcesOf(g));
    SourceClosedForm(SourcesOf(g), DestsOf(g), CountsOf(probe), probe.relayFed, i);
  }

  lemma StarShares(ownerChannel: Id, ownerCaptures: bool, joined: seq<Joined>, g: Graph, probe: Probe, modes: Modes)
    requires WellFormed(g) && StarTargets(ownerChannel, joined, g) && CaptureSources(ownerChannel, ownerCaptures, joined, g.sources)
    requires Covers(g, modes) && forall i :: 0 <= i < |g.sources| ==> modes[i] == ModeFor(g, probe, i)
    ensures (exists o :: SharedTarget(g, modes, o)) <==> TwoCapture(ownerChannel, ownerCaptures, joined, probe)
  {
    hide WellFormed, ModeFor;
    forall i | 0 <= i < |g.sources|
      ensures modes[i] != Off <==> |UsersIn(probe.users, g.sources[i].channel)| > 0
    {
      LiveWithCallers(g, probe, i);
    }
    if o :| SharedTarget(g, modes, o) {
      var i: nat, j: nat :| i != j && LiveTarget(g, modes, i, o) && LiveTarget(g, modes, j, o);
      assert g.sources[i].channel == g.sources[j].channel == ownerChannel;
      assert i == 0 || j == 0;
      assert SpeakerSourceIn(g.sources, ownerChannel);
    }
    if TwoCapture(ownerChannel, ownerCaptures, joined, probe) {
      var i :| 1 <= i < |g.sources| && g.sources[i].channel == ownerChannel;
      var j :| 0 <= j < |joined| && joined[j].channel != ownerChannel;
      assert LiveTarget(g, modes, 0, joined[j].out) && LiveTarget(g, modes, i, joined[j].out);
      assert SharedTarget(g, modes, joined[j].out);
    }
  }

  /** After any run of recomputations of a star, two sources write raw into one
      queue exactly if owner and speaker both capture the owner's channel. */
  method Play(r: Router, ownerChannel: Id, ownerCaptures: bool, joined: seq<Joined>, rounds: seq<Round>)
    requires r.Valid() && !r.closed && |rounds| > 0
    requires forall n :: 0 <= n < |rounds| ==> Order(rounds[n].order, |r.g.sources|)
    requires StarTargets(ownerChannel, joined, r.g) && CaptureSources(ownerChannel, ownerCaptures, joined, r.g.sources)
    modifies r
    ensures r.Valid() && !r.closed && r.Settled(rounds[|rounds| - 1].probe)
    ensures (exists o :: TwoWriters(r.installs, o)) <==> TwoCapture(ownerChannel, ownerCaptures, joined, rounds[|rounds| - 1].probe)
  {
    hide WellFormed, CaptureSources, StarTargets, OneCopy, SlotModes, Order, TwoWriters, TwoCapture, Wired, SlotsMatch, Ledger,
      SafeHistory, ModeFor;
    Recomputes(r, rounds);
    var last := rounds[|rounds| - 1];
    WellFormedFeeds(r.g);
    forall i | 0 <= i < |r.g.sources|
      ensures i in r.slots && r.slots[i].mode == ModeFor(r.g, last.probe, i)
    {
      assert r.SourceSettled(last.probe, i);
    }
    StarWriters(r.g, ownerChannel, ownerCaptures, joined, last.probe, r.slots, r.installs);
  }

  lemma StarWriters(g: Graph, ownerChannel: Id, ownerCaptures: bool, joined: seq<Joined>, probe: Probe,
                    slots: map<nat, Slot>, installs: map<nat, Install>)
    requires WellFormed(g) && SlotsMatch(g, slots) && Wired(g, slots, installs) && OneCopy(g, SlotModes(slots))
    requires StarTargets(ownerChannel, joined, g) && CaptureSources(ownerChannel, ownerCaptures, joined, g.sources)
    requires forall i :: 0 <= i < |g.sources| ==> i in slots && slots[i].mode == ModeFor(g, probe, i)
    ensures (exists o :: TwoWriters(installs, o)) <==> TwoCapture(ownerChannel, ownerCaptures, joined, probe)
  {
    hide WellFormed, CaptureSources, StarTargets, OneCopy, TwoWriters, SharedTarget, TwoCapture, Wired, SlotsMatch, ModeFor;
    WellFormedFeeds(g);
    forall o ensures TwoWriters(installs, o) <==> SharedTarget(g, SlotModes(slots), o) {
      SharedWriters(g, slots, installs, o);
    }
    StarShares(ownerChannel, ownerCaptures, joined, g, probe, SlotModes(slots));
  }
}
