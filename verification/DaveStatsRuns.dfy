/** Every interleaving of counting, holding, exporting and evicting. Looking a
    counter up and incrementing it are separate steps, and both collection and
    eviction go one counter at a time while increments land. Collections come one
    after the other. */
module DaveStatsRuns {
  import opened DaveStats

  type Thread = nat

  /** What the lock is held for. `todo` are the counters still to visit. */
  datatype Lock = Free | Reading(todo: set<Key>, totals: map<Agg, nat>) | Evicting(todo: set<Key>)

  /** The registered counters, and every atomic counter ever made with its series. */
  datatype Table = Table(counters: map<Key, Cell>, cells: map<Cell, nat>, keys: map<Cell, Key>, next: Cell)

  /** `exported` is what the last collection showed. `made` counts increments;
      `landed`, those that hit an evicted counter. */
  datatype Books = Books(retired: map<Agg, nat>, exported: map<Agg, nat>, made: map<Agg, nat>, landed: map<Agg, nat>)

  /** `looked` are the counters in hand between a lookup and its increment. */
  datatype Sys = Sys(table: Table, holds: Holds, books: Books, looked: map<Thread, Cell>, lock: Lock)

  datatype Event =
    | Lookup(t: Thread, k: Key)
    | Add(t: Thread)
    | Keep(u: User)
    | Retire(u: User)
    | BeginRead
    | ReadOne(k: Key)
    | Export
    | BeginEvict
    | EvictOne(k: Key)
    | EndEvict

  const START := Sys(Table(map[], map[], map[], 0), Holds(map[], {}), Books(map[], map[], map[], map[]), map[], Free)

  function Values(s: Sys): map<Key, nat> {
    map k | k in s.table.counters :: Get(s.table.cells, s.table.counters[k])
  }

  predicate Live(s: Sys, c: Cell) {
    c in s.table.keys && s.table.keys[c] in s.table.counters && s.table.counters[s.table.keys[c]] == c
  }

  /** The counters of the senders nobody holds. */
  function Leaving(s: Sys): set<Key> {
    set k | k in s.table.counters && UserOf(k) in s.holds.retiring
  }

  function OnLookup(s: Sys, t: Thread, k: Key): Sys {
    if t in s.looked || s.lock.Evicting? then s
    else if k in s.table.counters then s.(looked := s.looked[t := s.table.counters[k]])
    else if !s.lock.Free? then s
    else s.(table := Created(s.table, k), looked := s.looked[t := s.table.next])
  }

  function Created(t: Table, k: Key): Table {
    Table(t.counters[k := t.next], t.cells[t.next := 0], t.keys[t.next := k], t.next + 1)
  }

  function OnAdd(s: Sys, t: Thread): Sys {
    if t !in s.looked || s.looked[t] !in s.table.keys then s
    else
      var c := s.looked[t];
      s.(table := s.table.(cells := Bump(s.table.cells, c, 1)), looked := s.looked - {t},
         books := Noted(s.books, AggOf(s.table.keys[c]), Live(s, c)))
  }

  function Noted(b: Books, a: Agg, live: bool): Books {
    b.(made := Bump(b.made, a, 1), landed := if live then b.landed else Bump(b.landed, a, 1))
  }

  function OnHold(s: Sys, e: Event): Sys
    requires e.Keep? || e.Retire?
  {
    if !s.lock.Free? then s else s.(holds := if e.Keep? then Holding(s.holds, e.u) else Released(s.holds, e.u))
  }

  function OnRead(s: Sys, e: Event): Sys
    requires e.BeginRead? || e.ReadOne? || e.Export?
  {
    if e.BeginRead? then
      if s.lock.Free? then s.(lock := Reading(s.table.counters.Keys, s.books.retired)) else s
    else if !s.lock.Reading? then s
    else if e.ReadOne? then
      if e.k !in s.lock.todo then s
      else s.(lock := Reading(s.lock.todo - {e.k}, Bump(s.lock.totals, AggOf(e.k), Get(Values(s), e.k))))
    else if s.lock.todo == {} then s.(lock := Free, books := s.books.(exported := s.lock.totals))
    else s
  }

  function OnEvict(s: Sys, e: Event): Sys
    requires e.BeginEvict? || e.EvictOne? || e.EndEvict?
  {
    if e.BeginEvict? then
      if s.lock.Free? && s.holds.retiring != {} then s.(lock := Evicting(Leaving(s))) else s
    else if !s.lock.Evicting? then s
    else if e.EvictOne? then
      if e.k !in s.lock.todo then s
      else s.(lock := Evicting(s.lock.todo - {e.k}), table := s.table.(counters := s.table.counters - {e.k}),
              books := s.books.(retired := Bump(s.books.retired, AggOf(e.k), Get(Values(s), e.k))))
    else if s.lock.todo == {} then s.(lock := Free, holds := s.holds.(retiring := {}))
    else s
  }

  function Next(s: Sys, e: Event): Sys {
    match e
    case Lookup(t, k) => OnLookup(s, t, k)
    case Add(t) => OnAdd(s, t)
    case Keep(_) => OnHold(s, e)
    case Retire(_) => OnHold(s, e)
    case BeginRead => OnRead(s, e)
    case ReadOne(_) => OnRead(s, e)
    case Export => OnRead(s, e)
    case BeginEvict => OnEvict(s, e)
    case EvictOne(_) => OnEvict(s, e)
    case EndEvict => OnEvict(s, e)
  }

  function Run(s: Sys, es: seq<Event>): Sys {
    if es == [] then s else Next(Run(s, es[..|es| - 1]), es[|es| - 1])
  }

  // ---------------------------------------------------------------------------
  // The invariant

  predicate Wired(s: Sys) {
    && s.table.cells.Keys == s.table.keys.Keys
    && (forall c :: c in s.table.cells ==> c < s.table.next)
    && (forall k :: k in s.table.counters ==> s.table.counters[k] in s.table.keys && s.table.keys[s.table.counters[k]] == k)
    && (forall t :: t in s.looked ==> s.looked[t] in s.table.keys)
    && (s.lock.Reading? || s.lock.Evicting? ==> s.lock.todo <= s.table.counters.Keys)
    && (s.lock.Evicting? ==> forall k :: k in s.lock.todo ==> UserOf(k) in s.holds.retiring)
  }

  /** What series `a` would export right now. */
  ghost function Current(s: Sys, a: Agg): nat {
    Get(s.books.retired, a) + Total(s.table.counters.Keys, Values(s), a)
  }

  /** What the collection under way will export at least. */
  ghost function Promised(s: Sys, a: Agg): nat {
    if s.lock.Reading? then Get(s.lock.totals, a) + Total(s.lock.todo, Values(s), a) else Current(s, a)
  }

  ghost predicate Counted(s: Sys, a: Agg) {
    && Get(s.books.made, a) == Current(s, a) + Get(s.books.landed, a)
    && Get(s.books.exported, a) <= Promised(s, a) <= Current(s, a)
  }

  predicate Counting(s: Sys, a: Agg) {
    a in s.books.retired || exists k :: k in s.table.counters && AggOf(k) == a
  }

  predicate Collected(s: Sys, a: Agg) {
    s.lock.Reading? ==> a in s.lock.totals || exists k :: k in s.lock.todo && AggOf(k) == a
  }

  /** A series once exported is still there to be exported. */
  predicate Shown(s: Sys, a: Agg) {
    && (a in s.books.exported ==> Counting(s, a) && Collected(s, a))
    && (s.lock.Reading? && a in s.lock.totals ==> Counting(s, a))
  }

  ghost predicate Inv(s: Sys) {
    && Wired(s)
    && (forall a :: Counted(s, a))
    && (forall a :: Shown(s, a))
  }

  /** One step keeps the invariant for one series, and does not lower its export. */
  ghost predicate Kept(s: Sys, n: Sys, a: Agg) {
    && Counted(n, a) && Shown(n, a)
    && Get(s.books.exported, a) <= Get(n.books.exported, a)
    && (a in s.books.exported ==> a in n.books.exported)
  }

  lemma NewCounterWired(s: Sys, t: Thread, k: Key)
    requires Wired(s) && k !in s.table.counters && s.lock.Free?
    ensures Wired(s.(table := Created(s.table, k), looked := s.looked[t := s.table.next]))
  {
  }

  lemma LookupWired(s: Sys, t: Thread, k: Key)
    requires Wired(s)
    ensures Wired(OnLookup(s, t, k))
  {
    if t !in s.looked && k !in s.table.counters && s.lock.Free? {
      NewCounterWired(s, t, k);
    }
  }

  /** A new counter starts at zero. */
  lemma {:induction false} NewCounterCounts(s: Sys, k: Key, n: Sys, a: Agg)
    requires Wired(s) && k !in s.table.counters
    requires n.table.counters == s.table.counters[k := s.table.next] && n.table.cells == s.table.cells[s.table.next := 0]
    ensures Total(n.table.counters.Keys, Values(n), a) == Total(s.table.counters.Keys, Values(s), a)
  {
    hide Wired, Total;
    assert forall p :: p in s.table.counters ==> Get(Values(n), p) == Get(Values(s), p) by { OldCells(s); }
    TotalSplit(n.table.counters.Keys, Values(n), a, k);
    assert n.table.counters.Keys - {k} == s.table.counters.Keys;
    TotalSame(s.table.counters.Keys, Values(s), Values(n), a);
  }

  lemma OldCells(s: Sys)
    requires Wired(s)
    ensures forall k :: k in s.table.counters ==> s.table.counters[k] in s.table.cells && s.table.counters[k] < s.table.next
  {
  }

  lemma LookupKept(s: Sys, t: Thread, k: Key, a: Agg)
    requires Wired(s) && Counted(s, a) && Shown(s, a)
    ensures Kept(s, OnLookup(s, t, k), a)
  {
    hide Wired, Total;
    var n := OnLookup(s, t, k);
    if n.table.counters != s.table.counters {
      NewCounterCounts(s, k, n, a);
      assert forall p :: p in s.table.counters ==> p in n.table.counters;
    } else {
      assert Values(n) == Values(s);
    }
  }

  lemma AddWired(s: Sys, t: Thread)
    requires Wired(s)
    ensures Wired(OnAdd(s, t))
  {
  }

  /** An increment moves a live series up by one, or none at all. */
  lemma {:induction false} AddMoves(s: Sys, t: Thread, ks: set<Key>, a: Agg)
    requires Wired(s) && t in s.looked && ks <= s.table.counters.Keys
    ensures var (c, n) := (s.looked[t], OnAdd(s, t));
            Total(ks, Values(n), a) == Total(ks, Values(s), a)
                                       + if Live(s, c) && s.table.keys[c] in ks && AggOf(s.table.keys[c]) == a then 1 else 0
  {
    hide Total;
    var (c, n) := (s.looked[t], OnAdd(s, t));
    if Live(s, c) {
      assert Values(n) == Bump(Values(s), s.table.keys[c], 1);
      TotalBump(ks, Values(s), a, s.table.keys[c]);
    } else {
      assert Values(n) == Values(s);
    }
  }

  lemma AddKept(s: Sys, t: Thread, a: Agg)
    requires Wired(s) && Counted(s, a) && Shown(s, a)
    ensures Kept(s, OnAdd(s, t), a)
  {
    hide Total, Values;
    if t in s.looked {
      AddMoves(s, t, s.table.counters.Keys, a);
      if s.lock.Reading? {
        AddMoves(s, t, s.lock.todo, a);
      }
    }
  }

  lemma HoldWired(s: Sys, e: Event)
    requires Wired(s) && (e.Keep? || e.Retire?)
    ensures Wired(OnHold(s, e))
  {
  }

  lemma HoldKept(s: Sys, e: Event, a: Agg)
    requires Counted(s, a) && Shown(s, a) && (e.Keep? || e.Retire?)
    ensures Kept(s, OnHold(s, e), a)
  {
    hide Total;
    assert Values(OnHold(s, e)) == Values(s);
  }

  lemma ReadWired(s: Sys, e: Event)
    requires Wired(s) && (e.BeginRead? || e.ReadOne? || e.Export?)
    ensures Wired(OnRead(s, e))
  {
  }

  lemma ReadKept(s: Sys, e: Event, a: Agg)
    requires Wired(s) && Counted(s, a) && Shown(s, a) && (e.BeginRead? || e.ReadOne? || e.Export?)
    ensures Kept(s, OnRead(s, e), a)
  {
    hide Total;
    assert Values(OnRead(s, e)) == Values(s);
    TotalEmpty(Values(s));
    if e.ReadOne? && s.lock.Reading? && e.k in s.lock.todo {
      TotalSplit(s.lock.todo, Values(s), a, e.k);
    }
  }

  lemma EvictWired(s: Sys, e: Event)
    requires Wired(s) && (e.BeginEvict? || e.EvictOne? || e.EndEvict?)
    ensures Wired(OnEvict(s, e))
  {
  }

  /** Eviction moves a series' count from its counter to the retired counts. */
  lemma EvictKept(s: Sys, e: Event, a: Agg)
    requires Wired(s) && Counted(s, a) && Shown(s, a) && (e.BeginEvict? || e.EvictOne? || e.EndEvict?)
    ensures Kept(s, OnEvict(s, e), a)
  {
    hide Total;
    var n := OnEvict(s, e);
    if n.table.counters != s.table.counters {
      TotalSplit(s.table.counters.Keys, Values(s), a, e.k);
      assert n.table.counters.Keys == s.table.counters.Keys - {e.k};
      TotalSame(n.table.counters.Keys, Values(s), Values(n), a);
    } else {
      assert Values(n) == Values(s);
    }
  }

  lemma NextWired(s: Sys, e: Event)
    requires Wired(s)
    ensures Wired(Next(s, e))
  {
    hide Wired, OnLookup, OnAdd, OnHold, OnRead, OnEvict;
    match e
    case Lookup(t, k) => LookupWired(s, t, k);
    case Add(t) => AddWired(s, t);
    case Keep(_) => HoldWired(s, e);
    case Retire(_) => HoldWired(s, e);
    case BeginRead => ReadWired(s, e);
    case ReadOne(_) => ReadWired(s, e);
    case Export => ReadWired(s, e);
    case BeginEvict => EvictWired(s, e);
    case EvictOne(_) => EvictWired(s, e);
    case EndEvict => EvictWired(s, e);
  }

  lemma NextKept(s: Sys, e: Event, a: Agg)
    requires Wired(s) && Counted(s, a) && Shown(s, a)
    ensures Kept(s, Next(s, e), a)
  {
    hide Wired, Counted, Shown, Kept, OnLookup, OnAdd, OnHold, OnRead, OnEvict;
    match e
    case Lookup(t, k) => LookupKept(s, t, k, a);
    case Add(t) => AddKept(s, t, a);
    case Keep(_) => HoldKept(s, e, a);
    case Retire(_) => HoldKept(s, e, a);
    case BeginRead => ReadKept(s, e, a);
    case ReadOne(_) => ReadKept(s, e, a);
    case Export => ReadKept(s, e, a);
    case BeginEvict => EvictKept(s, e, a);
    case EvictOne(_) => EvictKept(s, e, a);
    case EndEvict => EvictKept(s, e, a);
  }

  lemma NextKeepsInv(s: Sys, e: Event)
    requires Inv(s)
    ensures Inv(Next(s, e))
  {
    hide Wired, Counted, Shown, Next;
    NextWired(s, e);
    forall a
      ensures Counted(Next(s, e), a) && Shown(Next(s, e), a)
    {
      NextKept(s, e, a);
    }
  }

  lemma {:induction false} RunKeepsInv(es: seq<Event>)
    ensures Inv(Run(START, es))
  {
    hide Next;
    if es == [] {
      StartInv();
    } else {
      RunKeepsInv(es[..|es| - 1]);
      NextKeepsInv(Run(START, es[..|es| - 1]), es[|es| - 1]);
    }
  }

  lemma StartInv()
    ensures Inv(START)
  {
    TotalEmpty(map[]);
  }

  // ---------------------------------------------------------------------------
  // What every run satisfies

  /** Every increment made is live, retired, or was lost on an evicted counter. */
  lemma {:induction false} NothingElseIsLost(es: seq<Event>, a: Agg)
    ensures var s := Run(START, es);
            Get(s.books.made, a) == Get(s.books.retired, a) + Total(s.table.counters.Keys, Values(s), a) + Get(s.books.landed, a)
  {
    RunKeepsInv(es);
    assert Counted(Run(START, es), a);
  }

  /** An exported series never goes down, and never disappears. */
  lemma {:induction false} ExportsNeverDecrease(es: seq<Event>, more: seq<Event>, a: Agg)
    ensures Get(Run(START, es).books.exported, a) <= Get(Run(START, es + more).books.exported, a)
    ensures a in Run(START, es).books.exported ==> a in Run(START, es + more).books.exported
  {
    hide Next;
    if more == [] {
      assert es + more == es;
    } else {
      var front := es + more[..|more| - 1];
      assert (es + more)[..|es + more| - 1] == front && (es + more)[|es + more| - 1] == more[|more| - 1];
      ExportsNeverDecrease(es, more[..|more| - 1], a);
      RunKeepsInv(front);
      NextKept(Run(START, front), more[|more| - 1], a);
    }
  }

  /** What has been exported is never more than what was counted. */
  lemma {:induction false} ExportsAreCounted(es: seq<Event>, a: Agg)
    ensures Get(Run(START, es).books.exported, a) <= Get(Run(START, es).books.made, a)
  {
    RunKeepsInv(es);
    assert Counted(Run(START, es), a);
  }

  /** A collection under way only comes to promise more. */
  lemma PromiseGrows(s: Sys, e: Event, a: Agg)
    requires Wired(s) && s.lock.Reading? && Next(s, e).lock.Reading?
    ensures Promised(s, a) <= Promised(Next(s, e), a)
  {
    hide Total;
    match e
    case Lookup(t, k) => assert Values(OnLookup(s, t, k)) == Values(s);
    case Add(t) => if t in s.looked { AddMoves(s, t, s.lock.todo, a); }
    case ReadOne(k) =>
      assert Values(OnRead(s, e)) == Values(s);
      if k in s.lock.todo { TotalSplit(s.lock.todo, Values(s), a, k); }
    case _ =>
  }

  /** One collection: reading from start to end. */
  ghost predicate StaysReading(s: Sys, es: seq<Event>) {
    forall k :: 0 <= k <= |es| ==> Run(s, es[..k]).lock.Reading?
  }

  lemma {:induction false} CollectionGrows(s: Sys, es: seq<Event>, a: Agg)
    requires Wired(s) && StaysReading(s, es)
    ensures Wired(Run(s, es)) && Promised(s, a) <= Promised(Run(s, es), a)
  {
    hide Wired, Promised, Next;
    assert es[..|es|] == es;
    if es != [] {
      var front := es[..|es| - 1];
      forall k | 0 <= k <= |front|
        ensures Run(s, front[..k]).lock.Reading?
      {
        assert front[..k] == es[..k];
      }
      CollectionGrows(s, front, a);
      assert front[..|front|] == front;
      NextWired(Run(s, front), es[|es| - 1]);
      PromiseGrows(Run(s, front), es[|es| - 1], a);
    }
  }

  /** A finished collection exports at least everything counted before it began. */
  lemma {:induction false} ExportsAreFresh(es: seq<Event>, during: seq<Event>, a: Agg)
    requires Run(START, es).lock.Free? && StaysReading(Next(Run(START, es), BeginRead), during)
    requires Run(Next(Run(START, es), BeginRead), during).lock.Reading?
    requires Run(Next(Run(START, es), BeginRead), during).lock.todo == {}
    ensures var s := Run(START, es);
            var t := Next(Run(Next(s, BeginRead), during), Export);
            Get(s.books.retired, a) + Total(s.table.counters.Keys, Values(s), a) <= Get(t.books.exported, a)
  {
    RunKeepsInv(es);
    var s := Run(START, es);
    NextWired(s, BeginRead);
    CollectionGrows(Next(s, BeginRead), during, a);
    assert during[..|during|] == during;
    assert Values(Next(s, BeginRead)) == Values(s);
    TotalEmpty(Values(Run(Next(s, BeginRead), during)));
  }

  /** Holds are counted: a keep raises the sender's and takes it off the list of
      those to be evicted, the release of the last one puts it there. */
  lemma HoldsAreCounted(s: Sys, u: User)
    requires s.lock.Free?
    ensures var t := Next(s, Event.Keep(u));
            Get(t.holds.holders, u) == Get(s.holds.holders, u) + 1 && u !in t.holds.retiring
    ensures var t := Next(s, Event.Retire(u));
            if Get(s.holds.holders, u) > 1
            then Get(t.holds.holders, u) == Get(s.holds.holders, u) - 1 && t.holds.retiring == s.holds.retiring
            else Get(t.holds.holders, u) == 0 && u in t.holds.retiring
  {
  }

  /** The counter thread `t` has in hand is one of series `k`. */
  predicate InHand(s: Sys, t: Thread, k: Key) {
    t in s.looked && s.looked[t] in s.table.keys && s.table.keys[s.looked[t]] == k
  }

  lemma {:induction false} HandStays(s: Sys, es: seq<Event>, t: Thread, k: Key)
    requires Wired(s) && InHand(s, t, k) && forall e :: e in es ==> e != Add(t)
    ensures Wired(Run(s, es)) && InHand(Run(s, es), t, k)
  {
    hide Wired, InHand, Next;
    if es != [] {
      var (front, e) := (es[..|es| - 1], es[|es| - 1]);
      assert es == front + [e] && e in es;
      assert forall x :: x in front ==> x in es;
      HandStays(s, front, t, k);
      NextWired(Run(s, front), e);
      OneHandStays(Run(s, front), e, t, k);
    }
  }

  lemma OneHandStays(s: Sys, e: Event, t: Thread, k: Key)
    requires Wired(s) && InHand(s, t, k) && e != Add(t)
    ensures InHand(Next(s, e), t, k)
  {
  }

  /** Whatever goes on between a lookup and its increment, evictions too, the
      increment counts once, in the series that was looked up and in no other. */
  lemma {:induction false} FramesAreCounted(es: seq<Event>, t: Thread, k: Key, during: seq<Event>, a: Agg)
    requires var s := Run(START, es);
             t !in s.looked && (s.lock.Free? || (k in s.table.counters && !s.lock.Evicting?))
    requires forall e :: e in during ==> e != Add(t)
    ensures var u := Run(Next(Run(START, es), Lookup(t, k)), during);
            var v := Next(u, Add(t));
            && t !in v.looked
            && Get(v.books.made, a) == Get(u.books.made, a) + if k.bot == a.bot && k.series == a.series then 1 else 0
  {
    hide Wired, Run;
    var s := Run(START, es);
    RunKeepsInv(es);
    assert InHand(Next(s, Lookup(t, k)), t, k) by { LookupInHand(s, t, k); }
    assert Wired(Next(s, Lookup(t, k))) by { NextWired(s, Lookup(t, k)); }
    HandStays(Next(s, Lookup(t, k)), during, t, k);
  }

  lemma LookupInHand(s: Sys, t: Thread, k: Key)
    requires Wired(s) && t !in s.looked && (s.lock.Free? || (k in s.table.counters && !s.lock.Evicting?))
    ensures InHand(Next(s, Lookup(t, k)), t, k)
  {
  }

  predicate IsRetiring(s: Sys, k: Key) {
    User(k.bot, k.user) in s.holds.retiring
  }

  /** Half-way through an eviction that began in `s`: what is left of the retiring
      senders' counters is still to be visited, and all others are as they were. */
  ghost predicate Sweeping(s: Sys, u: Sys) {
    && u.lock.Evicting? && u.holds == s.holds
    && (forall k :: k in u.table.counters ==> k in s.table.counters && u.table.counters[k] == s.table.counters[k])
    && (forall k :: k in s.table.counters && !IsRetiring(s, k) ==> k in u.table.counters)
    && (forall k :: k in u.table.counters && IsRetiring(s, k) ==> k in u.lock.todo)
    && (forall k :: k in u.lock.todo ==> IsRetiring(s, k))
  }

  lemma SweepGoesOn(s: Sys, u: Sys, e: Event)
    requires Sweeping(s, u) && Next(u, e).lock.Evicting?
    ensures Sweeping(s, Next(u, e))
  {
  }

  lemma {:induction false} StaysSweeping(s: Sys, u: Sys, es: seq<Event>)
    requires Sweeping(s, u) && forall n :: 0 <= n <= |es| ==> Run(u, es[..n]).lock.Evicting?
    ensures Sweeping(s, Run(u, es))
  {
    hide Sweeping, Next;
    assert es[..|es|] == es;
    if es != [] {
      var front := es[..|es| - 1];
      forall n | 0 <= n <= |front|
        ensures Run(u, front[..n]).lock.Evicting?
      {
        assert front[..n] == es[..n];
      }
      StaysSweeping(s, u, front);
      SweepGoesOn(s, Run(u, front), es[|es| - 1]);
    }
  }

  /** An eviction that has run to its end has removed every counter of the senders
      that were to be evicted when it began, and no other. */
  lemma {:induction false} EvictionIsComplete(s: Sys, during: seq<Event>)
    requires s.lock.Free? && s.holds.retiring != {}
    requires var u := Next(s, BeginEvict);
             && (forall n :: 0 <= n <= |during| ==> Run(u, during[..n]).lock.Evicting?)
             && Next(Run(u, during), EndEvict).lock.Free?
    ensures var t := Next(Run(Next(s, BeginEvict), during), EndEvict);
            && t.holds.retiring == {}
            && (forall k :: k in t.table.counters <==> k in s.table.counters && User(k.bot, k.user) !in s.holds.retiring)
            && (forall k :: k in t.table.counters ==> t.table.counters[k] == s.table.counters[k])
  {
    hide Run;
    StaysSweeping(s, Next(s, BeginEvict), during);
    assert during[..|during|] == during;
  }
}
