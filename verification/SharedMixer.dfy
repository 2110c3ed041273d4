/** The tick goroutines of one mixer over its scratch list of frames, which no
    lock guards: how often the buffers they take are put back. */
module SharedMixer {
  import opened Routes
  import opened Pipelines

  type Gid = nat

  /** Where a tick is: filling the list, about to pass on a lone frame, or putting
      back frame `i` of the `n` its loop ranges over. */
  datatype Phase = Idle | Collecting | Lone | Recycling(i: nat, n: nat)

  /** Frames are numbered as they are taken. `slots` is the list's backing array
      and `len` its length; `put` are the frames whose PCM was put back. */
  datatype Sys = Sys(slots: seq<nat>, len: nat, at: map<Gid, Phase>, next: nat, put: seq<nat>, panicked: bool)

  /** The statements of a tick that touch the list. */
  datatype Event =
    | Start(t: Gid) // the list is emptied
    | Take(t: Gid) // a frame is pulled and appended
    | Decide(t: Gid, paused: bool) // the length is looked at
    | PutOne(t: Gid)

  function PhaseOf(s: Sys, t: Gid): Phase {
    if t in s.at then s.at[t] else Idle
  }

  function To(s: Sys, t: Gid, p: Phase): Sys {
    s.(at := s.at[t := p])
  }

  function Appended(s: Sys): Sys {
    s.(slots := if s.len < |s.slots| then s.slots[s.len := s.next] else s.slots + [s.next], len := s.len + 1, next := s.next + 1)
  }

  function Put(s: Sys, i: nat): Sys {
    if i < |s.slots| then s.(put := s.put + [s.slots[i]]) else s.(panicked := true)
  }

  function Next(s: Sys, e: Event): Sys {
    match (e, PhaseOf(s, e.t))
    case (Start(t), Idle) => To(s, t, Collecting).(len := 0)
    case (Take(t), Collecting) => Appended(s)
    case (Decide(t, paused), Collecting) =>
      To(s, t, if s.len == 0 then Idle else if s.len == 1 && !paused then Lone else Recycling(0, s.len))
    case (PutOne(t), Lone) => if s.len == 0 then s.(panicked := true) else Put(To(s, t, Idle), 0)
    case (PutOne(t), Recycling(i, n)) => Put(To(s, t, if i + 1 < n then Recycling(i + 1, n) else Idle), i)
    case _ => s
  }

  function Run(es: seq<Event>): Sys {
    if es == [] then Sys([], 0, map[], 0, [], false) else Next(Run(es[..|es| - 1]), es[|es| - 1])
  }

  predicate AtRest(s: Sys) {
    forall t :: t in s.at ==> s.at[t] == Idle
  }

  /** Every frame taken has been put back exactly once. */
  ghost predicate EachOnce(s: Sys) {
    forall id: nat :: multiset(s.put)[id] == if id < s.next then 1 else 0
  }

  predicate By(es: seq<Event>, ts: set<Gid>) {
    forall e :: e in es ==> e.t in ts
  }

  /** However these goroutines interleave, no tick panics and between ticks every
      frame taken has been put back exactly once. */
  ghost predicate Sound(ts: set<Gid>) {
    forall es :: By(es, ts) ==> !Run(es).panicked && (AtRest(Run(es)) ==> EachOnce(Run(es)))
  }

  // ---------------------------------------------------------------------------
  // One goroutine

  function Upto(n: nat): (ids: seq<nat>)
    ensures |ids| == n && forall i :: 0 <= i < n ==> ids[i] == i
  {
    seq(n, i => i)
  }

  /** The list holds the newest frames in order, and those put back come before. */
  ghost predicate Orderly(s: Sys, t: Gid) {
    && !s.panicked && s.at.Keys <= {t} && s.len <= |s.slots| && s.len <= s.next
    && match PhaseOf(s, t)
       case Idle => s.put == Upto(s.next)
       case Collecting => Holds(s) && s.put == Upto(s.next - s.len)
       case Lone => Holds(s) && s.len == 1 && s.put == Upto(s.next - 1)
       case Recycling(i, n) => Holds(s) && i < n == s.len && s.put == Upto(s.next - n + i)
  }

  ghost predicate Holds(s: Sys) {
    s.len <= |s.slots| && s.len <= s.next && forall i :: 0 <= i < s.len ==> s.slots[i] == s.next - s.len + i
  }

  lemma NextIsOrderly(s: Sys, e: Event, t: Gid)
    requires Orderly(s, t) && e.t == t
    ensures Orderly(Next(s, e), t)
  {
    if PhaseOf(s, t).Lone? || PhaseOf(s, t).Recycling? {
      var i := if PhaseOf(s, t).Lone? then 0 else PhaseOf(s, t).i;
      assert s.put + [s.slots[i]] == Upto(s.next - s.len + i + 1);
    }
  }

  lemma {:induction false} AloneIsOrderly(es: seq<Event>, t: Gid)
    requires By(es, {t})
    ensures Orderly(Run(es), t)
  {
    hide Orderly, Next;
    if es == [] {
      StartIsOrderly(t);
    } else {
      var front := es[..|es| - 1];
      assert forall e :: e in front ==> e in es;
      AloneIsOrderly(front, t);
      assert es[|es| - 1] in es;
      NextIsOrderly(Run(front), es[|es| - 1], t);
    }
  }

  lemma StartIsOrderly(t: Gid)
    ensures Orderly(Run([]), t)
  {
    assert Upto(0) == [];
  }

  lemma {:induction false} UptoOnce(n: nat, id: nat)
    ensures multiset(Upto(n))[id] == if id < n then 1 else 0
  {
    if n > 0 {
      UptoOnce(n - 1, id);
      assert Upto(n) == Upto(n - 1) + [n - 1];
    }
  }

  lemma OneIsSound(ts: set<Gid>, t: Gid)
    requires ts <= {t}
    ensures Sound(ts)
  {
    forall es | By(es, ts)
      ensures !Run(es).panicked && (AtRest(Run(es)) ==> EachOnce(Run(es)))
    {
      AloneIsOrderly(es, t);
      var s := Run(es);
      if AtRest(s) {
        assert s.put == Upto(s.next);
        forall id: nat ensures multiset(s.put)[id] == if id < s.next then 1 else 0 {
          UptoOnce(s.next, id);
        }
      }
    }
  }

  // ---------------------------------------------------------------------------
  // Two

  /** The second empties the list the first has filled, and both find its frame. */
  function Clash(t: Gid, u: Gid): seq<Event> {
    [Start(t), Take(t), Start(u), Take(u), Decide(t, false), Decide(u, false), PutOne(t), PutOne(u)]
  }

  lemma RunMore(es: seq<Event>, n: nat)
    requires n < |es|
    ensures Run(es[..n + 1]) == Next(Run(es[..n]), es[n])
  {
    assert es[..n + 1][..n] == es[..n];
  }

  /** One frame goes back twice and the other is lost. */
  lemma ClashRuns(t: Gid, u: Gid)
    requires t != u
    ensures var s := Run(Clash(t, u));
            AtRest(s) && s.next == 2 && s.put == [1, 1]
  {
    hide Run, Next;
    var es := Clash(t, u);
    RunNothing();
    assert es[..0] == [] && es[..8] == es;
    RunMore(es, 0);
    RunMore(es, 1);
    RunMore(es, 2);
    RunMore(es, 3);
    ClashFills(t, u);
    RunMore(es, 4);
    RunMore(es, 5);
    RunMore(es, 6);
    RunMore(es, 7);
    ClashPuts(t, u);
  }

  lemma ClashFills(t: Gid, u: Gid)
    requires t != u
    ensures Next(Next(Next(Next(Sys([], 0, map[], 0, [], false), Start(t)), Take(t)), Start(u)), Take(u))
            == Sys([1], 1, map[t := Collecting, u := Collecting], 2, [], false)
  {
  }

  lemma ClashPuts(t: Gid, u: Gid)
    requires t != u
    ensures var s := Sys([1], 1, map[t := Collecting, u := Collecting], 2, [], false);
            Next(Next(Next(Next(s, Decide(t, false)), Decide(u, false)), PutOne(t)), PutOne(u))
            == Sys([1], 1, map[t := Idle, u := Idle], 2, [1, 1], false)
  {
    var s := Sys([1], 1, map[t := Collecting, u := Collecting], 2, [], false);
    assert Next(s, Decide(t, false)) == s.(at := map[t := Lone, u := Collecting]);
    assert Next(Next(s, Decide(t, false)), Decide(u, false)) == s.(at := map[t := Lone, u := Lone]);
    assert Next(s.(at := map[t := Lone, u := Lone]), PutOne(t)) == s.(at := map[t := Idle, u := Lone], put := [1]);
  }

  lemma RunNothing()
    ensures Run([]) == Sys([], 0, map[], 0, [], false)
  {
  }

  /** A mixer's buffers are safe exactly with at most one tick goroutine. */
  lemma SoundIffAlone(ts: set<Gid>)
    ensures Sound(ts) <==> |ts| <= 1
  {
    hide Run;
    if |ts| <= 1 {
      if t :| t in ts {
        assert |ts - {t}| == 0 && ts == {t};
        OneIsSound(ts, t);
      } else {
        OneIsSound(ts, 0);
      }
    } else {
      var t :| t in ts;
      assert |ts - {t}| > 0;
      var u :| u in ts - {t};
      ClashRuns(t, u);
      var s := Run(Clash(t, u));
      assert By(Clash(t, u), ts) && multiset(s.put)[0] == 0;
    }
  }

  // ---------------------------------------------------------------------------
  // The mixers of a pipeline

  function Goroutines(n: nat): (ts: set<Gid>)
    ensures |ts| == n && forall t: Gid :: t in ts <==> t < n
  {
    if n == 0 then {} else Goroutines(n - 1) + {n - 1}
  }

  ghost predicate AllSound(dests: seq<DestChannel>) {
    forall ch :: Sound(Goroutines(StartsOf(dests, ch)))
  }

  /** The mixers a pipeline starts are all safe exactly if it starts none twice. */
  lemma MixersAreSound(dests: seq<DestChannel>)
    ensures AllSound(dests) <==> StartedOnce(dests)
  {
    hide Sound, StartsOf, Goroutines;
    forall ch
      ensures Sound(Goroutines(StartsOf(dests, ch))) <==> StartsOf(dests, ch) <= 1
    {
      SoundIffAlone(Goroutines(StartsOf(dests, ch)));
    }
    if AllSound(dests) {
      forall ch ensures StartsOf(dests, ch) <= 1 {
        assert Sound(Goroutines(StartsOf(dests, ch)));
      }
    }
  }
}
