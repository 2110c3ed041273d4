/** Decrypt counters shared by all sessions of a process: counted without a lock,
    exported as one monotone total per series, and evicted when nobody holds the
    sender any more. */
module DaveStats {
  type Id = nat
  type Cell = nat

  /** A counter series. `series` is its outcome and reason. */
  datatype Key = Key(bot: Id, user: Id, series: nat)

  /** One sender on one bot. */
  datatype User = User(bot: Id, user: Id)

  /** An exported series: a counter series without the sender. */
  datatype Agg = Agg(bot: Id, series: nat)

  function UserOf(k: Key): User { User(k.bot, k.user) }

  function AggOf(k: Key): Agg { Agg(k.bot, k.series) }

  function Get<K>(m: map<K, nat>, k: K): nat {
    if k in m then m[k] else 0
  }

  function Bump<K>(m: map<K, nat>, k: K, more: nat): map<K, nat> {
    m[k := Get(m, k) + more]
  }

  /** How many sessions hold each sender, and the senders held by none since the
      last collection. */
  datatype Holds = Holds(holders: map<User, nat>, retiring: set<User>)

  function Holding(h: Holds, u: User): Holds {
    Holds(h.holders[u := Get(h.holders, u) + 1], h.retiring - {u})
  }

  function Released(h: Holds, u: User): Holds {
    if u in h.holders && h.holders[u] > 1 then h.(holders := h.holders[u := h.holders[u] - 1])
    else Holds(h.holders - {u}, h.retiring + {u})
  }

  /** The values of the series in `ks` that export as `a`. */
  ghost function Total(ks: set<Key>, v: map<Key, nat>, a: Agg): nat {
    if ks == {} then 0
    else
      var k :| k in ks;
      (if AggOf(k) == a then Get(v, k) else 0) + Total(ks - {k}, v, a)
  }

  lemma {:induction false} TotalSplit(ks: set<Key>, v: map<Key, nat>, a: Agg, k: Key)
    requires k in ks
    ensures Total(ks, v, a) == (if AggOf(k) == a then Get(v, k) else 0) + Total(ks - {k}, v, a)
    decreases ks
  {
    var p :| p in ks && Total(ks, v, a) == (if AggOf(p) == a then Get(v, p) else 0) + Total(ks - {p}, v, a);
    if p != k {
      TotalSplit(ks - {p}, v, a, k);
      TotalSplit(ks - {k}, v, a, p);
      assert ks - {p} - {k} == ks - {k} - {p};
    }
  }

  lemma {:induction false} TotalSame(ks: set<Key>, v: map<Key, nat>, w: map<Key, nat>, a: Agg)
    requires forall k :: k in ks && AggOf(k) == a ==> Get(v, k) == Get(w, k)
    ensures Total(ks, v, a) == Total(ks, w, a)
  {
    if ks != {} {
      var k :| k in ks;
      TotalSplit(ks, v, a, k);
      TotalSplit(ks, w, a, k);
      TotalSame(ks - {k}, v, w, a);
    }
  }

  lemma {:induction false} TotalBump(ks: set<Key>, v: map<Key, nat>, a: Agg, k: Key)
    ensures Total(ks, Bump(v, k, 1), a) == Total(ks, v, a) + if k in ks && AggOf(k) == a then 1 else 0
  {
    var w := Bump(v, k, 1);
    if k in ks {
      TotalSplit(ks, v, a, k);
      TotalSplit(ks, w, a, k);
      TotalSame(ks - {k}, v, w, a);
    } else {
      TotalSame(ks, v, w, a);
    }
  }

  // ---------------------------------------------------------------------------

  /** No two series share a counter. */
  ghost predicate Separate(counters: map<Key, Cell>) {
    forall k, l :: k in counters && l in counters && counters[k] == counters[l] ==> k == l
  }

  function ValuesOf(counters: map<Key, Cell>, cells: map<Cell, nat>): map<Key, nat> {
    map k | k in counters && counters[k] in cells :: cells[counters[k]]
  }

  lemma Untouched(counters: map<Key, Cell>, cells: map<Cell, nat>)
    ensures forall k :: k in counters && counters[k] in cells ==> Get(ValuesOf(counters, cells), k) == cells[counters[k]]
  {
  }

  lemma Incremented(counters: map<Key, Cell>, cells: map<Cell, nat>, k: Key)
    requires Separate(counters) && k in counters && counters[k] in cells
    ensures ValuesOf(counters, cells[counters[k] := cells[counters[k]] + 1]) == Bump(ValuesOf(counters, cells), k, 1)
  {
  }

  class Stats {
    var counters: map<Key, Cell>
    var cells: map<Cell, nat> // the atomic counters
    var next: Cell
    var holders: map<User, nat>
    var retiring: set<User>
    var retired: map<Agg, nat>

    ghost predicate Valid()
      reads this
    {
      && (forall k :: k in counters ==> counters[k] in cells)
      && Separate(counters)
      && (forall c :: c in cells ==> c < next)
      && (forall u :: u in holders ==> holders[u] > 0)
    }

    ghost function Values(): map<Key, nat>
      reads this
    {
      ValuesOf(counters, cells)
    }

    constructor ()
      ensures Valid() && counters == map[] && holders == map[] && retiring == {} && retired == map[]
    {
      counters, cells, next := map[], map[], 0;
      holders, retiring, retired := map[], {}, map[];
    }

    method Lookup(k: Key) returns (c: Cell)
      requires Valid()
      modifies this`counters, this`cells, this`next
      ensures Valid() && k in counters && counters[k] == c
      ensures k in old(counters) ==> counters == old(counters) && cells == old(cells)
      ensures k !in old(counters) ==>
                counters == old(counters)[k := c] && c !in old(cells) && cells == old(cells)[c := 0]
    {
      if k in counters {
        return counters[k];
      }
      c := next;
      next := next + 1;
      cells := cells[c := 0];
      counters := counters[k := c];
    }

    /** Counts one frame. */
    method Record(k: Key)
      requires Valid()
      modifies this`counters, this`cells, this`next
      ensures Valid() && counters.Keys == old(counters.Keys) + {k}
      ensures forall a :: Exports(a) == old(Exports(a)) + if k.bot == a.bot && k.series == a.series then 1 else 0
    {
      hide Separate, ValuesOf, Total;
      ghost var (ks, v) := (counters.Keys, Values());
      Untouched(counters, cells);
      var c := Lookup(k);
      ghost var w := Values();
      Untouched(counters, cells);
      Incremented(counters, cells, k);
      cells := cells[c := cells[c] + 1];
      forall a
        ensures Exports(a) == old(Exports(a)) + if AggOf(k) == a then 1 else 0
      {
        LookedUp(ks, v, counters.Keys, w, a, k);
        TotalBump(counters.Keys, w, a, k);
      }
    }

    /** What the series would export now. */
    ghost function Exports(a: Agg): nat
      reads this
    {
      Get(retired, a) + Total(counters.Keys, Values(), a)
    }

    method Keep(u: User)
      requires Valid()
      modifies this`holders, this`retiring
      ensures Valid() && Holds(holders, retiring) == Holding(old(Holds(holders, retiring)), u)
    {
      holders := holders[u := if u in holders then holders[u] + 1 else 1];
      retiring := retiring - {u};
    }

    method Retire(u: User)
      requires Valid()
      modifies this`holders, this`retiring
      ensures Valid() && Holds(holders, retiring) == Released(old(Holds(holders, retiring)), u)
    {
      if u in holders && holders[u] > 1 {
        holders := holders[u := holders[u] - 1];
        return;
      }
      holders := holders - {u};
      retiring := retiring + {u};
    }

    /** The exported totals: the live counters over the retired counts. */
    method Totals() returns (totals: map<Agg, nat>)
      requires Valid()
      ensures forall a :: Get(totals, a) == Get(retired, a) + Total(counters.Keys, Values(), a)
      ensures totals.Keys == retired.Keys + set k | k in counters :: AggOf(k)
    {
      hide Separate, Total;
      totals := retired;
      var todo := counters.Keys;
      TotalEmpty(Values());
      while todo != {}
        invariant todo <= counters.Keys
        invariant forall a :: Get(totals, a) + Total(todo, Values(), a) == Get(retired, a) + Total(counters.Keys, Values(), a)
        invariant totals.Keys == retired.Keys + set k | k in counters.Keys - todo :: AggOf(k)
        decreases |todo|
      {
        var k :| k in todo;
        forall a
          ensures Total(todo, Values(), a) == (if AggOf(k) == a then cells[counters[k]] else 0) + Total(todo - {k}, Values(), a)
        {
          TotalSplit(todo, Values(), a, k);
        }
        todo := todo - {k};
        totals := Bump(totals, AggOf(k), cells[counters[k]]);
      }
      TotalEmpty(Values());
    }

    /** Moves every retiring sender's counts to the retired ones: no total moves. */
    method EvictRetired()
      requires Valid()
      modifies this`counters, this`retired, this`retiring
      ensures Valid() && retiring == {}
      ensures forall k :: k in counters <==> k in old(counters) && UserOf(k) !in old(retiring)
      ensures forall k :: k in counters ==> counters[k] == old(counters)[k]
      ensures forall a :: Get(retired, a) + Total(counters.Keys, Values(), a)
                          == Get(old(retired), a) + Total(old(counters).Keys, old(Values()), a)
    {
      if |retiring| == 0 {
        return;
      }
      var todo := counters.Keys;
      while todo != {}
        invariant todo <= counters.Keys && Valid() && retiring == old(retiring)
        invariant forall k :: k in counters <==> k in old(counters) && (k in todo || UserOf(k) !in retiring)
        invariant forall k :: k in counters ==> counters[k] == old(counters)[k]
        invariant forall a :: Get(retired, a) + Total(counters.Keys, Values(), a)
                              == Get(old(retired), a) + Total(old(counters).Keys, old(Values()), a)
        decreases |todo|
      {
        var k :| k in todo;
        todo := todo - {k};
        if UserOf(k) in retiring {
          Evict(k);
        }
      }
      retiring := {};
    }

    method Evict(k: Key)
      requires Valid() && k in counters
      modifies this`counters, this`retired
      ensures Valid() && counters == old(counters) - {k}
      ensures forall a :: Get(retired, a) + Total(counters.Keys, Values(), a)
                          == Get(old(retired), a) + Total(old(counters).Keys, old(Values()), a)
    {
      ghost var (ks, v) := (counters.Keys, Values());
      retired := Bump(retired, AggOf(k), cells[counters[k]]);
      counters := counters - {k};
      assert counters.Keys == ks - {k};
      forall a
        ensures Get(retired, a) + Total(counters.Keys, Values(), a) == Get(old(retired), a) + Total(ks, v, a)
      {
        TotalSplit(ks, v, a, k);
        TotalSame(ks - {k}, v, Values(), a);
      }
    }
  }

  lemma TotalEmpty(v: map<Key, nat>)
    ensures forall a :: Total({}, v, a) == 0
  {
  }

  lemma {:induction false} LookedUp(ks: set<Key>, v: map<Key, nat>, ls: set<Key>, w: map<Key, nat>, a: Agg, k: Key)
    requires ls == ks + {k} && (forall p :: p in ks ==> Get(w, p) == Get(v, p)) && (k !in ks ==> Get(w, k) == 0)
    ensures Total(ls, w, a) == Total(ks, v, a)
  {
    TotalSame(ks, v, w, a);
    if k in ks {
      assert ls == ks;
    } else {
      TotalSplit(ls, w, a, k);
      assert ls - {k} == ks;
    }
  }

  // ---------------------------------------------------------------------------
  // One caller's run

  datatype Call = Record(k: Key) | Keep(u: User) | Retire(u: User) | Observe

  /** How often the series was counted. */
  function Recorded(calls: seq<Call>, a: Agg): nat {
    if calls == [] then 0
    else
      var c := calls[|calls| - 1];
      Recorded(calls[..|calls| - 1], a) + if c.Record? && c.k.bot == a.bot && c.k.series == a.series then 1 else 0
  }

  function Held(calls: seq<Call>): Holds {
    if calls == [] then Holds(map[], {})
    else
      var h := Held(calls[..|calls| - 1]);
      match calls[|calls| - 1]
      case Record(_) => h
      case Keep(u) => Holding(h, u)
      case Retire(u) => Released(h, u)
      case Observe => h.(retiring := {})
  }

  /** How many holds of a sender are left: a release without one counts for nothing. */
  function HoldsLeft(calls: seq<Call>, u: User): nat {
    if calls == [] then 0
    else
      var n := HoldsLeft(calls[..|calls| - 1], u);
      match calls[|calls| - 1]
      case Keep(v) => if v == u then n + 1 else n
      case Retire(v) => if v == u && n > 0 then n - 1 else n
      case _ => n
  }

  /** The `i`th call released the sender's last hold, and since then nobody has taken
      one and nothing was collected. */
  predicate ReleasedFor(calls: seq<Call>, u: User, i: nat)
    requires i < |calls|
  {
    && calls[i] == Retire(u) && HoldsLeft(calls[..i + 1], u) == 0
    && forall j :: i < j < |calls| ==> calls[j] != Keep(u) && calls[j] != Observe
  }

  predicate Retires(calls: seq<Call>, u: User) {
    exists i: nat :: i < |calls| && ReleasedFor(calls, u, i)
  }

  lemma {:induction false} RetiresMore(calls: seq<Call>, u: User)
    requires calls != []
    ensures var (front, c) := (calls[..|calls| - 1], calls[|calls| - 1]);
            Retires(calls, u)
            <==> (c == Retire(u) && HoldsLeft(calls, u) == 0) || (Retires(front, u) && c != Keep(u) && c != Observe)
  {
    hide HoldsLeft, ReleasedFor;
    var (n, front, c) := (|calls| - 1, calls[..|calls| - 1], calls[|calls| - 1]);
    assert ReleasedFor(calls, u, n) <==> c == Retire(u) && HoldsLeft(calls, u) == 0 by { ReleasedLast(calls, u); }
    forall i: nat | i < n
      ensures ReleasedFor(calls, u, i) <==> ReleasedFor(front, u, i) && c != Keep(u) && c != Observe
    {
      ReleasedForMore(calls, u, i);
    }
    if Retires(front, u) && c != Keep(u) && c != Observe {
      var i: nat :| i < n && ReleasedFor(front, u, i);
      assert ReleasedFor(calls, u, i);
    }
  }

  lemma {:induction false} ReleasedLast(calls: seq<Call>, u: User)
    requires calls != []
    ensures ReleasedFor(calls, u, |calls| - 1) <==> calls[|calls| - 1] == Retire(u) && HoldsLeft(calls, u) == 0
  {
    hide HoldsLeft;
    assert calls[..|calls|] == calls;
  }

  lemma ReleasedForMore(calls: seq<Call>, u: User, i: nat)
    requires i < |calls| - 1
    ensures var (front, c) := (calls[..|calls| - 1], calls[|calls| - 1]);
            ReleasedFor(calls, u, i) <==> ReleasedFor(front, u, i) && c != Keep(u) && c != Observe
  {
    hide HoldsLeft;
    var front := calls[..|calls| - 1];
    assert calls[..i + 1] == front[..i + 1];
    assert forall j :: i < j < |front| ==> calls[j] == front[j];
  }

  /** Over every run a sender is held as often as holds are left, and it is due to be
      evicted exactly from the release of its last hold up to the next hold or the
      next collection. */
  lemma {:induction false} RetiringIsReleased(calls: seq<Call>, u: User)
    ensures Get(Held(calls).holders, u) == HoldsLeft(calls, u)
    ensures u in Held(calls).retiring <==> Retires(calls, u)
  {
    hide Retires;
    if calls == [] {
      assert !Retires(calls, u) by { NobodyRetires(u); }
    } else {
      RetiringIsReleased(calls[..|calls| - 1], u);
      RetiresMore(calls, u);
    }
  }

  lemma NobodyRetires(u: User)
    ensures !Retires([], u)
  {
  }

  /** The series was counted, and not evicted since. */
  ghost predicate InUse(calls: seq<Call>, k: Key) {
    exists i: nat :: i < |calls| && CountedSince(calls, k, i)
  }

  predicate CountedSince(calls: seq<Call>, k: Key, i: nat)
    requires i < |calls|
  {
    calls[i] == Call.Record(k) && forall n: nat :: i < n < |calls| && calls[n] == Observe ==> !EvictedAt(calls, k, n)
  }

  predicate EvictedAt(calls: seq<Call>, k: Key, n: nat)
    requires n < |calls|
  {
    Retires(calls[..n], User(k.bot, k.user))
  }

  lemma InUseMore(calls: seq<Call>, k: Key)
    requires calls != []
    ensures var (front, c) := (calls[..|calls| - 1], calls[|calls| - 1]);
            InUse(calls, k) <==> c == Call.Record(k) || (InUse(front, k) && !(c == Observe && Retires(front, UserOf(k))))
  {
    hide Retires;
    var (m, front, c) := (|calls| - 1, calls[..|calls| - 1], calls[|calls| - 1]);
    forall i: nat | i < m
      ensures CountedSince(calls, k, i) <==> CountedSince(front, k, i) && !(c == Observe && Retires(front, UserOf(k)))
    {
      assert forall n: nat :: n < m ==> calls[n] == front[n] && calls[..n] == front[..n];
      assert EvictedAt(calls, k, m) <==> Retires(front, UserOf(k));
      forall n: nat | n < m
        ensures EvictedAt(calls, k, n) <==> EvictedAt(front, k, n)
      {
      }
    }
    if c == Call.Record(k) {
      assert CountedSince(calls, k, m);
    }
    if InUse(front, k) && !(c == Observe && Retires(front, UserOf(k))) {
      var i: nat :| i < m && CountedSince(front, k, i);
      assert CountedSince(calls, k, i);
    }
  }

  lemma InUseNow(calls: seq<Call>, n: nat)
    requires n < |calls|
    ensures forall k :: InUse(calls[..n + 1], k) <==>
              calls[n] == Call.Record(k)
              || (InUse(calls[..n], k) && !(calls[n] == Observe && UserOf(k) in Held(calls[..n]).retiring))
  {
    hide InUse, Retires, Held;
    assert calls[..n + 1][..n] == calls[..n];
    forall k
      ensures InUse(calls[..n + 1], k) <==>
                calls[n] == Call.Record(k)
                || (InUse(calls[..n], k) && !(calls[n] == Observe && UserOf(k) in Held(calls[..n]).retiring))
    {
      InUseMore(calls[..n + 1], k);
      RetiringIsReleased(calls[..n], UserOf(k));
    }
  }

  lemma NothingInUse(k: Key)
    ensures !InUse([], k)
  {
  }

  /** What the collection made by call `at` exported. */
  datatype Snapshot = Snapshot(at: nat, totals: map<Agg, nat>)

  ghost predicate Exact(calls: seq<Call>, e: Snapshot) {
    e.at <= |calls| && forall a :: Get(e.totals, a) == Recorded(calls[..e.at], a)
  }

  /** Every collection exports exactly the frames counted so far, in each series,
      however often their senders were evicted in between; a series has a counter
      exactly from its first frame up to the collection after its sender's last
      release. */
  method Drive(calls: seq<Call>) returns (s: Stats, exports: seq<Snapshot>)
    ensures fresh(s) && s.Valid() && Holds(s.holders, s.retiring) == Held(calls)
    ensures forall a :: s.Exports(a) == Recorded(calls, a)
    ensures forall k :: k in s.counters <==> InUse(calls, k)
    ensures forall n :: 0 <= n < |calls| && calls[n] == Observe ==> exists j :: 0 <= j < |exports| && exports[j].at == n
    ensures forall j :: 0 <= j < |exports| ==> Exact(calls, exports[j])
  {
    hide InUse, Retires, ValuesOf, Separate, Total, Holding, Released;
    s := new Stats();
    exports := [];
    NothingCounted(s);
    forall k ensures !InUse([], k) { NothingInUse(k); }
    var n := 0;
    while n < |calls|
      invariant n <= |calls| && fresh(s) && s.Valid() && Holds(s.holders, s.retiring) == Held(calls[..n])
      invariant forall a :: s.Exports(a) == Recorded(calls[..n], a)
      invariant forall k :: k in s.counters <==> InUse(calls[..n], k)
      invariant forall m :: 0 <= m < n && calls[m] == Observe ==> exists j :: 0 <= j < |exports| && exports[j].at == m
      invariant forall j :: 0 <= j < |exports| ==> Exact(calls, exports[j])
    {
      assert calls[..n + 1][..n] == calls[..n];
      InUseNow(calls, n);
      match calls[n] {
        case Record(k) => s.Record(k);
        case Keep(u) => s.Keep(u);
        case Retire(u) => s.Retire(u);
        case Observe =>
          var totals := s.Totals();
          ghost var before := exports;
          exports := exports + [Snapshot(n, totals)];
          assert exports[|before|].at == n && forall j :: 0 <= j < |before| ==> exports[j] == before[j];
          s.EvictRetired();
      }
      n := n + 1;
    }
    assert calls[..n] == calls;
  }

  lemma NothingCounted(s: Stats)
    requires s.counters == map[] && s.retired == map[]
    ensures forall a :: s.Exports(a) == 0
  {
    TotalEmpty(s.Values());
  }
}
