/** Rate limiting of the rejoins of a bot whose encryption has stalled. Times are
    nanoseconds on one nondecreasing clock. */
module Backoff {
  type Key = nat
  type Time = int

  const SECOND: int := 1_000_000_000
  const MIN_DELAY: int := 30 * SECOND
  const MAX_DELAY: int := 300 * SECOND

  datatype Option<T> = None | Some(value: T)

  /** The zero time, before every report, is `None`. */
  datatype Rejoin = Rejoin(lastReport: Time, nextRejoin: Option<Time>, delay: int)

  function Min(a: int, b: int): int {
    if a < b then a else b
  }

  /** A report this long after the previous one starts over. */
  predicate StartsOver(r: Option<Rejoin>, now: Time) {
    r == None || now - r.value.lastReport >= MAX_DELAY
  }

  predicate Due(r: Option<Rejoin>, now: Time) {
    StartsOver(r, now) || r.value.nextRejoin == None || now >= r.value.nextRejoin.value
  }

  function Reported(r: Option<Rejoin>, now: Time): Rejoin {
    var delay := if StartsOver(r, now) then MIN_DELAY else r.value.delay;
    if Due(r, now) then Rejoin(now, Some(now + delay), Min(2 * delay, MAX_DELAY))
    else r.value.(lastReport := now)
  }

  class StallBackoff {
    var m: map<Key, Rejoin>

    constructor ()
      ensures m == map[]
    {
      m := map[];
    }

    function Of(k: Key): Option<Rejoin>
      reads this
    {
      if k in m then Some(m[k]) else None
    }

    /** Records a stall report and says whether to rejoin. */
    method Report(k: Key, now: Time) returns (due: bool)
      modifies this
      ensures m == old(m)[k := Reported(old(Of(k)), now)]
      ensures due == Due(old(Of(k)), now)
    {
      var r := Rejoin(now, None, MIN_DELAY);
      if k in m && now - m[k].lastReport < MAX_DELAY {
        r := m[k];
      }
      r := r.(lastReport := now);
      due := r.nextRejoin == None || now >= r.nextRejoin.value;
      if due {
        r := r.(nextRejoin := Some(now + r.delay), delay := Min(2 * r.delay, MAX_DELAY));
      }
      m := m[k := r];
    }

    method Delete(k: Key)
      modifies this
      ensures m == old(m) - {k}
    {
      m := m - {k};
    }
  }

  // ---------------------------------------------------------------------------
  // Every run, seen by one bot

  datatype Event = Report(k: Key, now: Time) | Delete(k: Key)

  /** All rejoins of a bot since its record was last deleted, and those of the
      current episode, that is since the last start-over. */
  datatype History = History(record: Option<Rejoin>, rejoins: seq<Time>, episode: seq<Time>)

  const NOTHING := History(None, [], [])

  function After(h: History, now: Time): History {
    var episode := if StartsOver(h.record, now) then [] else h.episode;
    History(Some(Reported(h.record, now)),
            if Due(h.record, now) then h.rejoins + [now] else h.rejoins,
            if Due(h.record, now) then episode + [now] else episode)
  }

  function Run(events: seq<Event>, k: Key): History {
    if events == [] then NOTHING
    else
      var h := Run(events[..|events| - 1], k);
      match events[|events| - 1]
      case Report(key, now) => if key == k then After(h, now) else h
      case Delete(key) => if key == k then NOTHING else h
  }

  predicate Nondecreasing(events: seq<Event>) {
    forall i, j :: 0 <= i <= j < |events| && events[i].Report? && events[j].Report? ==> events[i].now <= events[j].now
  }

  /** The limiter answers every run of reports and deletions, for any number of
      bots, as each bot's history says. */
  method Drive(events: seq<Event>) returns (b: StallBackoff, due: seq<bool>)
    ensures |due| == |events|
    ensures forall i :: 0 <= i < |events| ==> due[i] == Rejoins(events, i)
    ensures forall k :: b.Of(k) == Run(events, k).record
  {
    b := new StallBackoff();
    due := [];
    var i := 0;
    while i < |events|
      invariant i <= |events| && |due| == i && fresh(b)
      invariant forall j :: 0 <= j < i ==> due[j] == Rejoins(events, j)
      invariant forall k :: b.Of(k) == Run(events[..i], k).record
    {
      assert events[..i + 1][..i] == events[..i];
      match events[i] {
        case Report(k, now) =>
          var d := b.Report(k, now);
          due := due + [d];
        case Delete(k) =>
          b.Delete(k);
          due := due + [false];
      }
      i := i + 1;
    }
    assert events[..|events|] == events;
  }

  /** The `i`th event is a report that makes its bot rejoin. */
  predicate Rejoins(events: seq<Event>, i: nat)
    requires i < |events|
  {
    events[i].Report? && Due(Run(events[..i], events[i].k).record, events[i].now)
  }

  /** The least wait after the `k`th rejoin of an episode: 30 s doubled with each,
      up to five minutes. */
  function Gap(k: nat): (g: int)
    ensures MIN_DELAY <= g <= MAX_DELAY
  {
    if k <= 1 then MIN_DELAY else Min(2 * Gap(k - 1), MAX_DELAY)
  }

  predicate Spaced(h: History) {
    && (forall i :: 0 <= i < |h.rejoins| - 1 ==> h.rejoins[i + 1] - h.rejoins[i] >= MIN_DELAY)
    && (forall k :: 0 <= k < |h.episode| - 1 ==> h.episode[k + 1] - h.episode[k] >= Gap(k + 1))
  }

  /** The record says what the history calls for. */
  predicate Consistent(h: History, last: Time) {
    && h.record.Some? && h.episode != [] && h.rejoins != []
    && h.rejoins[|h.rejoins| - 1] == h.episode[|h.episode| - 1] <= h.record.value.lastReport == last
    && h.record.value.nextRejoin == Some(h.episode[|h.episode| - 1] + Gap(|h.episode|))
    && h.record.value.delay == Gap(|h.episode| + 1)
  }

  /** The bot's last report is in no event's future. */
  predicate Reaches(events: seq<Event>, h: History) {
    h == NOTHING || (h.record.Some? && Consistent(h, h.record.value.lastReport)
                     && exists i :: 0 <= i < |events| && events[i].Report? && events[i].now == h.record.value.lastReport)
  }

  lemma {:induction false} RunIsConsistent(events: seq<Event>, k: Key)
    requires Nondecreasing(events)
    ensures Spaced(Run(events, k)) && Reaches(events, Run(events, k))
  {
    hide Spaced, Consistent, After;
    if events == [] {
      NothingYet();
    } else {
      var (front, e) := (events[..|events| - 1], events[|events| - 1]);
      RunIsConsistent(front, k);
      var h := Run(front, k);
      if e.Report? && e.k == k {
        assert events[|events| - 1].now == e.now;
        if h == NOTHING {
          FirstReport(e.now);
        } else {
          var i :| 0 <= i < |front| && front[i].Report? && front[i].now == h.record.value.lastReport;
          assert events[i] == front[i];
          ReportKeepsConsistent(h, h.record.value.lastReport, e.now);
        }
        LastIs(h, e.now);
      } else if e.Delete? && e.k == k {
        NothingYet();
      } else if h != NOTHING {
        var i :| 0 <= i < |front| && front[i].Report? && front[i].now == h.record.value.lastReport;
        assert events[i] == front[i];
      }
    }
  }

  lemma LastIs(h: History, now: Time)
    ensures After(h, now).record.Some? && After(h, now).record.value.lastReport == now
  {
  }

  lemma NothingYet()
    ensures Spaced(NOTHING)
  {
  }

  lemma FirstReport(now: Time)
    ensures Spaced(After(NOTHING, now)) && Consistent(After(NOTHING, now), now)
  {
  }

  lemma RejoinKeepsSpaced(h: History, last: Time, now: Time)
    requires Spaced(h) && Consistent(h, last) && last <= now && Due(h.record, now)
    ensures Spaced(After(h, now))
  {
    hide Gap;
    var n := |h.episode|;
    assert now - h.rejoins[|h.rejoins| - 1] >= MIN_DELAY && (!StartsOver(h.record, now) ==> now - h.episode[n - 1] >= Gap(n));
    SpacedMore(h.rejoins, h.episode, now, StartsOver(h.record, now));
  }

  lemma {:induction false} SpacedMore(rejoins: seq<Time>, episode: seq<Time>, now: Time, over: bool)
    requires Spaced(History(None, rejoins, episode)) && rejoins != [] && episode != []
    requires now - rejoins[|rejoins| - 1] >= MIN_DELAY && (!over ==> now - episode[|episode| - 1] >= Gap(|episode|))
    ensures Spaced(History(None, rejoins + [now], (if over then [] else episode) + [now]))
  {
    hide Gap;
  }

  lemma RejoinKeepsConsistent(h: History, last: Time, now: Time)
    requires Consistent(h, last) && last <= now && Due(h.record, now)
    ensures Consistent(After(h, now), now)
  {
    if StartsOver(h.record, now) {
      assert Gap(2) == Min(2 * Gap(1), MAX_DELAY);
    } else {
      var n := |h.episode|;
      assert |After(h, now).episode| == n + 1;
      assert Gap(n + 2) == Min(2 * Gap(n + 1), MAX_DELAY);
    }
  }

  lemma ReportKeepsConsistent(h: History, last: Time, now: Time)
    requires Spaced(h) && Consistent(h, last) && last <= now
    ensures Spaced(After(h, now)) && Consistent(After(h, now), now)
  {
    hide Gap, Spaced;
    if Due(h.record, now) {
      RejoinKeepsSpaced(h, last, now);
      RejoinKeepsConsistent(h, last, now);
    } else {
      assert Spaced(After(h, now)) by { SameSpaced(h, After(h, now)); }
    }
  }

  lemma SameSpaced(h: History, t: History)
    requires Spaced(h) && t.rejoins == h.rejoins && t.episode == h.episode
    ensures Spaced(t)
  {
  }

  /** Since its record was last deleted, rejoins of one bot are at least 30 s
      apart; in an unbroken episode the kth gap is at least
      min(30 s * 2^(k-1), 5 min); the delay stays within both. */
  lemma {:induction false} RejoinsAreSpaced(events: seq<Event>, k: Key)
    requires Nondecreasing(events)
    ensures var h := Run(events, k);
            && (forall i :: 0 <= i < |h.rejoins| - 1 ==> h.rejoins[i + 1] - h.rejoins[i] >= MIN_DELAY)
            && (forall n :: 0 <= n < |h.episode| - 1 ==> h.episode[n + 1] - h.episode[n] >= Gap(n + 1))
            && (h.record.Some? ==> MIN_DELAY <= h.record.value.delay <= MAX_DELAY)
  {
    RunIsConsistent(events, k);
  }

  predicate DeletedBetween(events: seq<Event>, i: nat, j: nat, k: Key)
    requires i <= j <= |events|
  {
    exists n :: i <= n < j && events[n] == Delete(k)
  }

  /** Two rejoins of one bot can be closer than 30 s only across a deletion. */
  lemma TooSoonOnlyAcrossADeletion(events: seq<Event>, i: nat, j: nat)
    requires Nondecreasing(events) && i < j < |events| && events[i].k == events[j].k
    requires Rejoins(events, i) && Rejoins(events, j)
    ensures events[j].now - events[i].now >= MIN_DELAY || DeletedBetween(events, i, j, events[i].k)
  {
    if !DeletedBetween(events, i, j, events[i].k) {
      Barred(events, i, j);
    }
  }

  /** A rejoin bars the next one for 30 s, until the record is deleted. */
  lemma {:induction false} Barred(events: seq<Event>, i: nat, n: nat)
    requires Nondecreasing(events) && i < n <= |events| && Rejoins(events, i)
    requires !DeletedBetween(events, i, n, events[i].k)
    ensures var r := Run(events[..n], events[i].k).record;
            && r.Some? && r.value.lastReport >= events[i].now && r.value.nextRejoin.Some?
            && r.value.nextRejoin.value >= events[i].now + MIN_DELAY
    decreases n
  {
    var k := events[i].k;
    var front := events[..n - 1];
    assert events[..n][..n - 1] == front;
    assert Nondecreasing(front) by {
      forall a, b | 0 <= a <= b < |front| && front[a].Report? && front[b].Report?
        ensures front[a].now <= front[b].now
      {
        assert events[a] == front[a] && events[b] == front[b];
      }
    }
    RejoinsAreSpaced(front, k);
    if n - 1 > i {
      Barred(events, i, n - 1);
      assert events[n - 1] != Delete(k);
    }
  }

  /** Right after a deletion any report rejoins. */
  lemma {:induction false} DeletionForgets(events: seq<Event>, k: Key, now: Time)
    ensures Due(Run(events + [Delete(k)], k).record, now)
  {
    assert (events + [Delete(k)])[..|events|] == events;
  }

  /** Two rejoins of the bot less than 30 s apart. */
  ghost predicate TooSoon(events: seq<Event>, k: Key) {
    exists i, j :: 0 <= i < j < |events| && RejoinOf(events, i, k) && RejoinOf(events, j, k)
                   && events[j].now - events[i].now < MIN_DELAY
  }

  predicate RejoinOf(events: seq<Event>, i: nat, k: Key)
    requires i < |events|
  {
    events[i].Report? && events[i].k == k && Rejoins(events, i)
  }

  predicate ReportOf(events: seq<Event>, i: nat, k: Key)
    requires i < |events|
  {
    events[i].Report? && events[i].k == k
  }

  /** A rejoin, then a deletion, then a report, the last less than 30 s after the
      first. */
  ghost predicate ForgottenTooSoon(events: seq<Event>, k: Key) {
    exists i, j :: 0 <= i < j < |events| && RejoinOf(events, i, k) && ReportOf(events, j, k)
                   && events[j].now - events[i].now < MIN_DELAY && DeletedBetween(events, i, j, k)
  }

  /** Rejoins of a bot come too close exactly if it reports within 30 s of one
      after its record was deleted. */
  lemma TooSoonIffForgotten(events: seq<Event>, k: Key)
    requires Nondecreasing(events)
    ensures TooSoon(events, k) <==> ForgottenTooSoon(events, k)
  {
    hide Rejoins, DeletedBetween;
    if TooSoon(events, k) {
      var i, j :| 0 <= i < j < |events| && RejoinOf(events, i, k) && RejoinOf(events, j, k)
                  && events[j].now - events[i].now < MIN_DELAY;
      TooSoonOnlyAcrossADeletion(events, i, j);
      assert ReportOf(events, j, k);
    }
    if ForgottenTooSoon(events, k) {
      var i, j :| 0 <= i < j < |events| && RejoinOf(events, i, k) && ReportOf(events, j, k)
                  && events[j].now - events[i].now < MIN_DELAY && DeletedBetween(events, i, j, k);
      var first := FirstAfterDeletion(events, i, j, k);
      assert events[first].now <= events[j].now;
    }
  }

  /** The first report after a deletion rejoins. */
  lemma FirstAfterDeletion(events: seq<Event>, i: nat, j: nat, k: Key) returns (first: nat)
    requires i < j < |events| && ReportOf(events, j, k) && ReportOf(events, i, k) && DeletedBetween(events, i, j, k)
    ensures i < first <= j && RejoinOf(events, first, k)
  {
    var n :| i <= n < j && events[n] == Delete(k);
    first := n + 1;
    assert events[..n + 1][..n] == events[..n];
    while !ReportOf(events, first, k)
      invariant n < first <= j && Run(events[..first], k).record == None
      decreases j - first
    {
      assert events[..first + 1][..first] == events[..first];
      first := first + 1;
    }
  }

  function Pow2(k: nat): nat {
    if k == 0 then 1 else 2 * Pow2(k - 1)
  }

  lemma {:induction false} GapIsDoubling(k: nat)
    requires k >= 1
    ensures Gap(k) == Min(MIN_DELAY * Pow2(k - 1), MAX_DELAY)
  {
    if k > 1 {
      GapIsDoubling(k - 1);
    }
  }

  /** Starting over after five quiet minutes never shortens a wait: whatever was
      pending has run out by then. */
  lemma {:induction false} StartingOverShortensNothing(events: seq<Event>, k: Key, now: Time)
    requires Nondecreasing(events) && Run(events, k).record.Some? && StartsOver(Run(events, k).record, now)
    ensures Run(events, k).record.value.nextRejoin.Some?
    ensures Run(events, k).record.value.nextRejoin.value <= now
  {
    RunIsConsistent(events, k);
  }

  /** A report at least five minutes after the last rejoin always rejoins. */
  lemma {:induction false} NeverStarved(events: seq<Event>, k: Key, now: Time)
    requires Nondecreasing(events)
    requires var h := Run(events, k);
             h.rejoins != [] && now >= h.rejoins[|h.rejoins| - 1] + MAX_DELAY
    ensures Due(Run(events, k).record, now)
  {
    RunIsConsistent(events, k);
  }

  /** The `i`th event is the bot's last report, and not deleted since. */
  predicate LastReport(events: seq<Event>, k: Key, i: nat)
    requires i < |events|
  {
    ReportOf(events, i, k) && forall j :: i < j < |events| ==> !ReportOf(events, j, k) && events[j] != Delete(k)
  }

  lemma {:induction false} RecordIsLast(events: seq<Event>, k: Key)
    ensures Run(events, k) == NOTHING || Run(events, k).record.Some?
    ensures Run(events, k) == NOTHING ==> forall i: nat :: i < |events| ==> !LastReport(events, k, i)
    ensures Run(events, k) != NOTHING ==>
              exists i: nat :: i < |events| && LastReport(events, k, i) && events[i].now == Run(events, k).record.value.lastReport
  {
    hide Due, StartsOver, Reported;
    if events != [] {
      var (n, front) := (|events| - 1, events[..|events| - 1]);
      RecordIsLast(front, k);
      forall i: nat | i < n
        ensures LastReport(events, k, i) <==> LastReport(front, k, i) && !ReportOf(events, n, k) && events[n] != Delete(k)
      {
        LastReportMore(events, k, i);
      }
      if ReportOf(events, n, k) {
        assert LastReport(events, k, n);
        LastIs(Run(front, k), events[n].now);
      } else if events[n] != Delete(k) && Run(front, k) != NOTHING {
        var i: nat :| i < |front| && LastReport(front, k, i) && front[i].now == Run(front, k).record.value.lastReport;
        assert LastReport(events, k, i);
      }
    }
  }

  lemma LastReportMore(events: seq<Event>, k: Key, i: nat)
    requires i < |events| - 1
    ensures var (n, front) := (|events| - 1, events[..|events| - 1]);
            LastReport(events, k, i) <==> LastReport(front, k, i) && !ReportOf(events, n, k) && events[n] != Delete(k)
  {
    var (n, front) := (|events| - 1, events[..|events| - 1]);
    forall j: nat | j < n
      ensures ReportOf(events, j, k) <==> ReportOf(front, j, k)
    {
      assert events[j] == front[j];
    }
  }

  /** The bot's last report is five minutes old. */
  predicate Quiet(events: seq<Event>, k: Key, now: Time) {
    exists i: nat :: i < |events| && LastReport(events, k, i) && now - events[i].now >= MAX_DELAY
  }

  /** The wait after the last rejoin is over. */
  predicate WaitOver(h: History, now: Time) {
    h.episode != [] && now >= h.episode[|h.episode| - 1] + Gap(|h.episode|)
  }

  /** Over every run a report rejoins exactly if it is the bot's first since the
      last deletion, or five minutes after the one before, or the wait after the
      last rejoin is over; the first two begin a new episode. */
  lemma {:induction false} RejoinsExactly(events: seq<Event>, k: Key, now: Time)
    requires Nondecreasing(events)
    ensures var (h, t) := (Run(events, k), Run(events + [Event.Report(k, now)], k));
            var anew := h == NOTHING || Quiet(events, k, now);
            && (Due(h.record, now) <==> anew || WaitOver(h, now))
            && t.rejoins == h.rejoins + (if anew || WaitOver(h, now) then [now] else [])
            && t.episode == (if anew then [now] else if WaitOver(h, now) then h.episode + [now] else h.episode)
  {
    hide Gap, Spaced;
    var h := Run(events, k);
    assert (events + [Event.Report(k, now)])[..|events|] == events;
    RunIsConsistent(events, k);
    RecordIsLast(events, k);
    if h != NOTHING {
      var i: nat :| i < |events| && LastReport(events, k, i) && events[i].now == h.record.value.lastReport;
      forall j: nat | j < |events| && LastReport(events, k, j)
        ensures j == i
      {
        LastIsOne(events, k, i, j);
      }
    }
  }

  lemma LastIsOne(events: seq<Event>, k: Key, i: nat, j: nat)
    requires i < |events| && j < |events| && LastReport(events, k, i) && LastReport(events, k, j)
    ensures i == j
  {
  }
}
