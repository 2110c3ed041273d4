/** The cascade rule of the auto-router: which captured sources run off, in
    copy mode or in mix mode, and which destination mixers have to run. */
module Routes {

  type Id = nat

  datatype RouteMode = Off | Copy | Mix

  datatype RouteSource = RouteSource(id: Id, channel: Id)

  datatype RouteDest = RouteDest(channel: Id, sourceIds: seq<Id>)

  /** The read of a Go map of modes: a missing key reads as `Off`. */
  function ModeOf(modes: map<Id, RouteMode>, s: Id): RouteMode {
    if s in modes then modes[s] else Off
  }

  predicate Flag(flags: map<Id, bool>, ch: Id) {
    ch in flags && flags[ch]
  }

  function BaselineMode(callers: int): RouteMode {
    if callers <= 0 then Off else if callers == 1 then Copy else Mix
  }

  function CallersIn(counts: map<Id, int>, ch: Id): int {
    if ch in counts then counts[ch] else 0
  }

  /** The modes before any cascade. A repeated id keeps its last entry. */
  function Baseline(sources: seq<RouteSource>, counts: map<Id, int>): (base: map<Id, RouteMode>)
    ensures forall s :: s in base <==> exists i :: 0 <= i < |sources| && sources[i].id == s
  {
    if sources == [] then map[]
    else
      var n := |sources| - 1;
      var base := Baseline(sources[..n], counts);
      assert sources == sources[..n] + [sources[n]];
      base[sources[n].id := BaselineMode(CallersIn(counts, sources[n].channel))]
  }

  predicate Live(modes: map<Id, RouteMode>, s: Id) {
    ModeOf(modes, s) != Off
  }

  predicate TwoLive(modes: map<Id, RouteMode>, ids: seq<Id>) {
    exists i, j :: 0 <= i < j < |ids| && Live(modes, ids[i]) && Live(modes, ids[j])
  }

  predicate SomeMix(modes: map<Id, RouteMode>, ids: seq<Id>) {
    exists i :: 0 <= i < |ids| && ModeOf(modes, ids[i]) == Mix
  }

  /** A destination that needs its mixer before any copy source is promoted. */
  predicate Seeded(base: map<Id, RouteMode>, d: RouteDest, relayFed: map<Id, bool>) {
    Flag(relayFed, d.channel) || TwoLive(base, d.sourceIds) || SomeMix(base, d.sourceIds)
  }

  predicate Promoted(base: map<Id, RouteMode>, dests: seq<RouteDest>, relayFed: map<Id, bool>, s: Id) {
    exists k :: 0 <= k < |dests| && s in dests[k].sourceIds && Seeded(base, dests[k], relayFed)
  }

  /** The closed form of the cascade for one source. */
  function FinalMode(base: map<Id, RouteMode>, dests: seq<RouteDest>, relayFed: map<Id, bool>, s: Id): RouteMode {
    if ModeOf(base, s) == Copy && Promoted(base, dests, relayFed, s) then Mix else ModeOf(base, s)
  }

  predicate NeedsMix(base: map<Id, RouteMode>, dests: seq<RouteDest>, relayFed: map<Id, bool>, d: RouteDest) {
    Seeded(base, d, relayFed)
    || exists i :: 0 <= i < |d.sourceIds| && FinalMode(base, dests, relayFed, d.sourceIds[i]) == Mix
  }

  /** The closed form of the cascade for one destination channel. */
  predicate FinalDestMix(base: map<Id, RouteMode>, dests: seq<RouteDest>, relayFed: map<Id, bool>, ch: Id) {
    exists k :: 0 <= k < |dests| && dests[k].channel == ch && NeedsMix(base, dests, relayFed, dests[k])
  }

  // ---------------------------------------------------------------------------
  // The fixpoint loop

  /** `modes` lies between the baseline and the closed form. */
  predicate Between(base: map<Id, RouteMode>, modes: map<Id, RouteMode>, dests: seq<RouteDest>, relayFed: map<Id, bool>) {
    && modes.Keys == base.Keys
    && forall s :: s in modes ==>
         modes[s] == base[s] || modes[s] == FinalMode(base, dests, relayFed, s)
  }

  /** Every copy source of `d` has been promoted in `modes`. */
  predicate Settled(base: map<Id, RouteMode>, modes: map<Id, RouteMode>, dests: seq<RouteDest>, relayFed: map<Id, bool>,
                    d: RouteDest) {
    forall s :: s in d.sourceIds ==> ModeOf(modes, s) == FinalMode(base, dests, relayFed, s)
  }

  method CountLive(modes: map<Id, RouteMode>, ids: seq<Id>) returns (live: nat, mix: nat)
    ensures live >= 2 <==> TwoLive(modes, ids)
    ensures mix > 0 <==> SomeMix(modes, ids)
  {
    live, mix := 0, 0;
    for i := 0 to |ids|
      invariant live >= 1 <==> exists a :: 0 <= a < i && Live(modes, ids[a])
      invariant live >= 2 <==> exists a, b :: 0 <= a < b < i && Live(modes, ids[a]) && Live(modes, ids[b])
      invariant mix > 0 <==> exists a :: 0 <= a < i && ModeOf(modes, ids[a]) == Mix
    {
      if ModeOf(modes, ids[i]) == Off {
        continue;
      }
      assert Live(modes, ids[i]);
      live := live + 1;
      if ModeOf(modes, ids[i]) == Mix {
        mix := mix + 1;
      }
    }
  }

  method PromoteCopies(modes: map<Id, RouteMode>, ids: seq<Id>) returns (promoted: map<Id, RouteMode>, changed: bool)
    ensures promoted.Keys == modes.Keys
    ensures forall s :: s in modes ==> promoted[s] == if s in ids && modes[s] == Copy then Mix else modes[s]
    ensures changed <==> promoted != modes
  {
    promoted, changed := modes, false;
    for i := 0 to |ids|
      invariant promoted.Keys == modes.Keys
      invariant forall s :: s in modes ==> promoted[s] == if s in ids[..i] && modes[s] == Copy then Mix else modes[s]
      invariant changed <==> promoted != modes
    {
      if ModeOf(promoted, ids[i]) == Copy {
        promoted := promoted[ids[i] := Mix];
        changed := true;
        assert promoted[ids[i]] != modes[ids[i]];
      }
    }
    assert ids[..|ids|] == ids;
  }

  /** Liveness never changes while copies are promoted, so what a destination
      needs on the running modes is what it needs on the baseline, or comes from
      a source that has already been promoted. */
  lemma RunningNeed(base: map<Id, RouteMode>, modes: map<Id, RouteMode>, dests: seq<RouteDest>, relayFed: map<Id, bool>, k: nat)
    requires k < |dests| && Between(base, modes, dests, relayFed)
    ensures TwoLive(modes, dests[k].sourceIds) <==> TwoLive(base, dests[k].sourceIds)
    ensures SomeMix(base, dests[k].sourceIds) ==> SomeMix(modes, dests[k].sourceIds)
    ensures SomeMix(modes, dests[k].sourceIds) ==> NeedsMix(base, dests, relayFed, dests[k])
  {
    var ids := dests[k].sourceIds;
    assert forall i :: 0 <= i < |ids| ==> (Live(modes, ids[i]) <==> Live(base, ids[i]));
    forall i | 0 <= i < |ids| && ModeOf(base, ids[i]) == Mix
      ensures ModeOf(modes, ids[i]) == Mix
    {}
    if SomeMix(modes, ids) {
      var i :| 0 <= i < |ids| && ModeOf(modes, ids[i]) == Mix;
      assert FinalMode(base, dests, relayFed, ids[i]) == Mix;
    }
  }

  /** A destination that needs its mixer settles: a seeded one promotes all its
      copies; any other one has a single live source, already promoted. */
  lemma PromotionSettles(base: map<Id, RouteMode>, modes: map<Id, RouteMode>, dests: seq<RouteDest>, relayFed: map<Id, bool>,
                         k: nat, s: Id)
    requires k < |dests| && Between(base, modes, dests, relayFed)
    requires Seeded(base, dests[k], relayFed) || SomeMix(modes, dests[k].sourceIds)
    requires s in dests[k].sourceIds && ModeOf(modes, s) == Copy
    ensures FinalMode(base, dests, relayFed, s) == Mix
  {
    var ids := dests[k].sourceIds;
    if SomeMix(modes, ids) {
      var i :| 0 <= i < |ids| && ModeOf(modes, ids[i]) == Mix;
      var j :| 0 <= j < |ids| && ids[j] == s;
      LivePair(base, ids, i, j);
    }
  }

  lemma LivePair(base: map<Id, RouteMode>, ids: seq<Id>, i: nat, j: nat)
    requires i < |ids| && j < |ids| && i != j && Live(base, ids[i]) && Live(base, ids[j])
    ensures TwoLive(base, ids)
  {
  }

  ghost predicate AllFinal(base: map<Id, RouteMode>, modes: map<Id, RouteMode>, dests: seq<RouteDest>, relayFed: map<Id, bool>) {
    forall s :: ModeOf(modes, s) == FinalMode(base, dests, relayFed, s)
  }

  ghost predicate SoundMarks(base: map<Id, RouteMode>, marks: map<Id, bool>, dests: seq<RouteDest>, relayFed: map<Id, bool>) {
    forall ch :: Flag(marks, ch) ==> FinalDestMix(base, dests, relayFed, ch)
  }

  ghost predicate CompleteMarks(base: map<Id, RouteMode>, marks: map<Id, bool>, dests: seq<RouteDest>, relayFed: map<Id, bool>) {
    forall ch :: FinalDestMix(base, dests, relayFed, ch) ==> Flag(marks, ch)
  }

  /** The loop body for one destination: mark it and promote its copies if it
      needs its mixer. */
  method VisitDest(ghost base: map<Id, RouteMode>, modes0: map<Id, RouteMode>, marks0: map<Id, bool>,
                   dests: seq<RouteDest>, relayFed: map<Id, bool>, k: nat)
    returns (modes: map<Id, RouteMode>, marks: map<Id, bool>, changed: bool)
    requires k < |dests|
    requires Between(base, modes0, dests, relayFed) && SoundMarks(base, marks0, dests, relayFed)
    ensures Between(base, modes, dests, relayFed) && SoundMarks(base, marks, dests, relayFed)
    ensures Seeded(base, dests[k], relayFed) ==> Settled(base, modes, dests, relayFed, dests[k])
    ensures forall s :: ModeOf(modes, s) == ModeOf(modes0, s)
                        || ModeOf(modes, s) == FinalMode(base, dests, relayFed, s) == Mix
    ensures AllFinal(base, modes0, dests, relayFed) ==>
              modes == modes0 && (NeedsMix(base, dests, relayFed, dests[k]) ==> Flag(marks, dests[k].channel))
    ensures marks == marks0 || (marks == marks0[dests[k].channel := true] && !Flag(marks0, dests[k].channel))
    ensures !changed <==> modes == modes0 && marks == marks0
  {
    var d := dests[k];
    modes, marks, changed := modes0, marks0, false;
    var live, mix := CountLive(modes, d.sourceIds);
    var needsMix := mix > 0 || live >= 2 || Flag(relayFed, d.channel);
    RunningNeed(base, modes, dests, relayFed, k);
    if !needsMix {
      return;
    }
    if !Flag(marks, d.channel) {
      marks := marks[d.channel := true];
      changed := true;
      assert Flag(marks, d.channel);
    }
    var promoted, grew := PromoteCopies(modes, d.sourceIds);
    PromotionStaysBetween(base, modes, promoted, dests, relayFed, k);
    modes, changed := promoted, changed || grew;
  }

  lemma PromotionStaysBetween(base: map<Id, RouteMode>, modes: map<Id, RouteMode>, promoted: map<Id, RouteMode>,
                              dests: seq<RouteDest>, relayFed: map<Id, bool>, k: nat)
    requires k < |dests| && Between(base, modes, dests, relayFed)
    requires Seeded(base, dests[k], relayFed) || SomeMix(modes, dests[k].sourceIds)
    requires promoted.Keys == modes.Keys
    requires forall s :: s in modes ==>
               promoted[s] == if s in dests[k].sourceIds && modes[s] == Copy then Mix else modes[s]
    ensures Between(base, promoted, dests, relayFed)
    ensures Settled(base, promoted, dests, relayFed, dests[k])
    ensures forall s :: ModeOf(promoted, s) == ModeOf(modes, s)
                        || ModeOf(promoted, s) == FinalMode(base, dests, relayFed, s) == Mix
    ensures AllFinal(base, modes, dests, relayFed) ==> promoted == modes
  {
    forall s | s in dests[k].sourceIds && ModeOf(modes, s) == Copy
      ensures FinalMode(base, dests, relayFed, s) == Mix
    {
      PromotionSettles(base, modes, dests, relayFed, k, s);
    }
    forall s | s in dests[k].sourceIds
      ensures ModeOf(promoted, s) == FinalMode(base, dests, relayFed, s)
    {
    }
  }

  /** One pass over the destinations. It settles every mode; once the modes are
      settled on entry it also completes the destination marks, and a pass that
      starts complete changes nothing. */
  method Pass(ghost base: map<Id, RouteMode>, modes0: map<Id, RouteMode>, marks0: map<Id, bool>,
              dests: seq<RouteDest>, relayFed: map<Id, bool>)
    returns (modes: map<Id, RouteMode>, marks: map<Id, bool>, changed: bool)
    requires Between(base, modes0, dests, relayFed) && SoundMarks(base, marks0, dests, relayFed)
    ensures Between(base, modes, dests, relayFed) && SoundMarks(base, marks, dests, relayFed)
    ensures AllFinal(base, modes, dests, relayFed)
    ensures !changed ==> modes == modes0 && marks == marks0
    ensures AllFinal(base, modes0, dests, relayFed) ==> CompleteMarks(base, marks, dests, relayFed)
    ensures AllFinal(base, modes0, dests, relayFed) && CompleteMarks(base, marks0, dests, relayFed) ==> !changed
  {
    hide Between, SoundMarks, AllFinal, Seeded, NeedsMix, FinalMode, Flag;
    modes, marks, changed := modes0, marks0, false;
    var k := 0;
    while k < |dests|
      invariant k <= |dests|
      invariant Between(base, modes, dests, relayFed) && SoundMarks(base, marks, dests, relayFed)
      invariant forall j :: 0 <= j < k && Seeded(base, dests[j], relayFed) ==> Settled(base, modes, dests, relayFed, dests[j])
      invariant forall ch :: Flag(marks0, ch) ==> Flag(marks, ch)
      invariant !changed ==> modes == modes0 && marks == marks0
      invariant AllFinal(base, modes0, dests, relayFed) ==> modes == modes0
      invariant AllFinal(base, modes0, dests, relayFed) ==>
                  forall j :: 0 <= j < k && NeedsMix(base, dests, relayFed, dests[j]) ==> Flag(marks, dests[j].channel)
      invariant AllFinal(base, modes0, dests, relayFed) && CompleteMarks(base, marks0, dests, relayFed) ==> !changed
    {
      var step: bool;
      ghost var before := marks;
      modes, marks, step := VisitDest(base, modes, marks, dests, relayFed, k);
      MarksGrow(before, marks, dests[k].channel);
      if step {
        changed := true;
        if marks != before {
          NewMark(base, marks0, before, marks, dests, relayFed, dests[k].channel);
        }
      }
      k := k + 1;
    }
    SettledEverywhere(base, modes, dests, relayFed);
  }

  lemma MarksGrow(before: map<Id, bool>, after: map<Id, bool>, ch: Id)
    requires after == before || after == before[ch := true]
    ensures forall c :: Flag(before, c) ==> Flag(after, c)
  {
  }

  /** A mark is only added when it was missing from the start. */
  lemma NewMark(base: map<Id, RouteMode>, marks0: map<Id, bool>, before: map<Id, bool>, after: map<Id, bool>,
                dests: seq<RouteDest>, relayFed: map<Id, bool>, ch: Id)
    requires SoundMarks(base, after, dests, relayFed) && after == before[ch := true] && !Flag(before, ch)
    requires forall c :: Flag(marks0, c) ==> Flag(before, c)
    ensures !CompleteMarks(base, marks0, dests, relayFed)
  {
    assert Flag(after, ch);
  }

  lemma SettledEverywhere(base: map<Id, RouteMode>, modes: map<Id, RouteMode>, dests: seq<RouteDest>, relayFed: map<Id, bool>)
    requires Between(base, modes, dests, relayFed)
    requires forall j :: 0 <= j < |dests| && Seeded(base, dests[j], relayFed) ==> Settled(base, modes, dests, relayFed, dests[j])
    ensures AllFinal(base, modes, dests, relayFed)
  {
    forall s ensures ModeOf(modes, s) == FinalMode(base, dests, relayFed, s) {
      if ModeOf(base, s) == Copy && Promoted(base, dests, relayFed, s) {
        var j :| 0 <= j < |dests| && s in dests[j].sourceIds && Seeded(base, dests[j], relayFed);
        assert Settled(base, modes, dests, relayFed, dests[j]);
      }
    }
  }

  method ComputeRoutes(sources: seq<RouteSource>, dests: seq<RouteDest>, counts: map<Id, int>, relayFed: map<Id, bool>)
    returns (modes: map<Id, RouteMode>, destMix: map<Id, bool>, ghost passes: nat)
    ensures modes.Keys == set i | 0 <= i < |sources| :: sources[i].id
    ensures forall s :: ModeOf(modes, s) == FinalMode(Baseline(sources, counts), dests, relayFed, s)
    ensures forall ch :: Flag(destMix, ch) <==> FinalDestMix(Baseline(sources, counts), dests, relayFed, ch)
    ensures passes <= 3
  {
    modes, destMix := map[], map[];
    for i := 0 to |sources|
      invariant modes == Baseline(sources[..i], counts)
    {
      assert sources[..i + 1][..i] == sources[..i];
      modes := modes[sources[i].id := BaselineMode(CallersIn(counts, sources[i].channel))];
    }
    assert sources[..|sources|] == sources;
    ghost var base := modes;
    passes := 0;
    var changed := true;
    while changed
      invariant passes <= 3
      invariant Between(base, modes, dests, relayFed) && SoundMarks(base, destMix, dests, relayFed)
      invariant passes >= 1 ==> AllFinal(base, modes, dests, relayFed)
      invariant !changed || passes >= 2 ==> CompleteMarks(base, destMix, dests, relayFed)
      invariant passes == 0 ==> changed
      invariant passes == 3 ==> !changed
      decreases 3 - passes
    {
      modes, destMix, changed := Pass(base, modes, destMix, dests, relayFed);
      passes := passes + 1;
    }
  }

  // ---------------------------------------------------------------------------
  // What the closed form says

  predicate UniqueSources(sources: seq<RouteSource>) {
    forall i, j :: 0 <= i < j < |sources| ==> sources[i].id != sources[j].id
  }

  /** Marks are kept by channel, so destinations of one channel must list the
      same sources. */
  predicate AgreeingChannels(dests: seq<RouteDest>) {
    forall i, j :: 0 <= i < j < |dests| && dests[i].channel == dests[j].channel ==> dests[i].sourceIds == dests[j].sourceIds
  }

  lemma {:induction false} BaselineOf(sources: seq<RouteSource>, counts: map<Id, int>, i: nat)
    requires UniqueSources(sources) && i < |sources|
    ensures ModeOf(Baseline(sources, counts), sources[i].id) == BaselineMode(CallersIn(counts, sources[i].channel))
  {
    var n := |sources| - 1;
    if i < n {
      BaselineOf(sources[..n], counts, i);
    }
  }

  /** Some entry of `d` other than one naming `s` is live. */
  predicate AnotherLive(base: map<Id, RouteMode>, d: RouteDest, s: Id) {
    exists i, j :: 0 <= i < |d.sourceIds| && 0 <= j < |d.sourceIds| && i != j
                   && d.sourceIds[i] == s && Live(base, d.sourceIds[j])
  }

  lemma SeededForCopy(base: map<Id, RouteMode>, d: RouteDest, relayFed: map<Id, bool>, s: Id)
    requires ModeOf(base, s) == Copy && s in d.sourceIds
    ensures Seeded(base, d, relayFed) <==> Flag(relayFed, d.channel) || AnotherLive(base, d, s)
  {
    var ids := d.sourceIds;
    var i :| 0 <= i < |ids| && ids[i] == s;
    assert Live(base, ids[i]);
    if AnotherLive(base, d, s) {
      var a, j :| 0 <= a < |ids| && 0 <= j < |ids| && a != j && ids[a] == s && Live(base, ids[j]);
      assert Live(base, ids[a]);
      assert a < j ==> TwoLive(base, ids);
      assert j < a ==> TwoLive(base, ids);
    }
    if TwoLive(base, ids) {
      var a, b :| 0 <= a < b < |ids| && Live(base, ids[a]) && Live(base, ids[b]);
      assert i != a ==> AnotherLive(base, d, s);
      assert i != b ==> AnotherLive(base, d, s);
    }
    if SomeMix(base, ids) {
      var j :| 0 <= j < |ids| && ModeOf(base, ids[j]) == Mix;
      assert i != j && Live(base, ids[j]);
    }
  }

  /** A source is mixed iff its channel has two callers, or has one and some
      destination it feeds is relay-fed or has another live source. */
  lemma {:induction false} SourceClosedForm(sources: seq<RouteSource>, dests: seq<RouteDest>, counts: map<Id, int>,
                                            relayFed: map<Id, bool>, i: nat)
    requires UniqueSources(sources) && i < |sources|
    ensures var base := Baseline(sources, counts);
            var s := sources[i].id;
            var c := CallersIn(counts, sources[i].channel);
            && (FinalMode(base, dests, relayFed, s) == Mix <==>
                  c >= 2 || (c == 1 && exists k :: 0 <= k < |dests| && s in dests[k].sourceIds
                                                   && (Flag(relayFed, dests[k].channel) || AnotherLive(base, dests[k], s))))
            && (FinalMode(base, dests, relayFed, s) == Off <==> c <= 0)
  {
    var base := Baseline(sources, counts);
    BaselineOf(sources, counts, i);
    var s := sources[i].id;
    if ModeOf(base, s) == Copy {
      forall k | 0 <= k < |dests| && s in dests[k].sourceIds
        ensures Seeded(base, dests[k], relayFed) <==> Flag(relayFed, dests[k].channel) || AnotherLive(base, dests[k], s)
      {
        SeededForCopy(base, dests[k], relayFed, s);
      }
    }
  }

  /** Copy and mix never meet at a destination: a live source feeding `d` is
      mixed exactly when `d` runs its mixer, and a destination that does not has
      at most one live entry. */
  lemma EdgeAgreement(base: map<Id, RouteMode>, dests: seq<RouteDest>, relayFed: map<Id, bool>, k: nat, s: Id)
    requires AgreeingChannels(dests) && k < |dests| && s in dests[k].sourceIds
    requires FinalMode(base, dests, relayFed, s) != Off
    ensures FinalMode(base, dests, relayFed, s) == Mix <==> FinalDestMix(base, dests, relayFed, dests[k].channel)
    ensures !FinalDestMix(base, dests, relayFed, dests[k].channel) ==> !TwoLive(base, dests[k].sourceIds)
  {
    var ids := dests[k].sourceIds;
    var i :| 0 <= i < |ids| && ids[i] == s;
    if FinalMode(base, dests, relayFed, s) == Mix {
      assert NeedsMix(base, dests, relayFed, dests[k]);
    }
    if FinalDestMix(base, dests, relayFed, dests[k].channel) {
      var j :| 0 <= j < |dests| && dests[j].channel == dests[k].channel && NeedsMix(base, dests, relayFed, dests[j]);
      assert dests[j].sourceIds == ids;
      if m :| 0 <= m < |ids| && FinalMode(base, dests, relayFed, ids[m]) == Mix && ids[m] != s {
        LivePair(base, ids, i, m);
      }
    }
  }

  /** The result depends on which destinations there are, not on the order in
      which the map iteration listed them. */
  lemma OrderIndependent(base: map<Id, RouteMode>, dests: seq<RouteDest>, other: seq<RouteDest>, relayFed: map<Id, bool>)
    requires forall d :: d in dests <==> d in other
    ensures forall s :: FinalMode(base, dests, relayFed, s) == FinalMode(base, other, relayFed, s)
    ensures forall ch :: FinalDestMix(base, dests, relayFed, ch) <==> FinalDestMix(base, other, relayFed, ch)
  {
    forall s ensures Promoted(base, dests, relayFed, s) <==> Promoted(base, other, relayFed, s) {
      PromotedSubset(base, dests, other, relayFed, s);
      PromotedSubset(base, other, dests, relayFed, s);
    }
    assert forall s :: FinalMode(base, dests, relayFed, s) == FinalMode(base, other, relayFed, s);
    forall ch ensures FinalDestMix(base, dests, relayFed, ch) <==> FinalDestMix(base, other, relayFed, ch) {
      DestMixSubset(base, dests, other, relayFed, ch);
      DestMixSubset(base, other, dests, relayFed, ch);
    }
  }

  lemma PromotedSubset(base: map<Id, RouteMode>, dests: seq<RouteDest>, other: seq<RouteDest>, relayFed: map<Id, bool>, s: Id)
    requires forall d :: d in dests ==> d in other
    ensures Promoted(base, dests, relayFed, s) ==> Promoted(base, other, relayFed, s)
  {
    if Promoted(base, dests, relayFed, s) {
      var k :| 0 <= k < |dests| && s in dests[k].sourceIds && Seeded(base, dests[k], relayFed);
      assert dests[k] in dests;
      var j :| 0 <= j < |other| && other[j] == dests[k];
      assert s in other[j].sourceIds && Seeded(base, other[j], relayFed);
    }
  }

  lemma DestMixSubset(base: map<Id, RouteMode>, dests: seq<RouteDest>, other: seq<RouteDest>, relayFed: map<Id, bool>, ch: Id)
    requires forall d :: d in dests ==> d in other
    requires forall s :: FinalMode(base, dests, relayFed, s) == FinalMode(base, other, relayFed, s)
    ensures FinalDestMix(base, dests, relayFed, ch) ==> FinalDestMix(base, other, relayFed, ch)
  {
    if FinalDestMix(base, dests, relayFed, ch) {
      var k :| 0 <= k < |dests| && dests[k].channel == ch && NeedsMix(base, dests, relayFed, dests[k]);
      assert dests[k] in dests;
      var j :| 0 <= j < |other| && other[j] == dests[k];
      assert NeedsMix(base, other, relayFed, other[j]);
    }
  }
}
