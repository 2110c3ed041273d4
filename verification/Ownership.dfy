/** Who holds each pooled audio buffer. Goroutines pass buffers through rings and
    channels by atomic steps; a step is legal when the goroutine making it holds
    the buffers it touches. */
module Ownership {
  import opened SourceBuffer

  type Id = nat

  datatype Owner = Pool | Slot(source: Id) | Queued(chan: Id) | Held(who: Id) | Garbage

  /** `next` is the first unused buffer id, `cap` the capacity of the channels. */
  datatype World = World(pools: multiset<Buf>, rings: map<Id, seq<Frame>>, chans: map<Id, seq<Buf>>,
                         owner: map<Buf, Owner>, next: nat, cap: nat)

  /** One atomic step: a pool operation, a use of a buffer's bytes, a channel
      operation, or a critical section of a ring. */
  datatype Step =
    | Allocate(kind: Kind)
    | Take(buf: Buf)
    | PutBack(buf: Buf)
    | Forget(buf: Buf)
    | Use(buf: Buf)
    | Send(chan: Id, buf: Buf)
    | Receive(chan: Id)
    | FeedRing(source: Id, frame: Frame)
    | PullRing(source: Id)
    | DrainRing(source: Id)

  predicate Owned(owner: map<Buf, Owner>, b: Buf, o: Owner) {
    b in owner && owner[b] == o
  }

  predicate Holds(w: World, who: Id, b: Buf) {
    Owned(w.owner, b, Held(who))
  }

  /** What both producers put in a frame. */
  predicate FrameOk(f: Frame) {
    f.pcm.Some? && f.opus.Some? && f.pcm.value.kind == Pcm && f.opus.value.kind != Pcm
  }

  predicate Legal(w: World, who: Id, s: Step) {
    match s
    case Allocate(_) => true
    case Take(b) => Owned(w.owner, b, Pool)
    case PutBack(b) => Holds(w, who, b)
    case Forget(b) => Holds(w, who, b) && b.kind != Pcm
    case Use(b) => Holds(w, who, b)
    case Send(c, b) => Holds(w, who, b) && b.kind != Pcm && c in w.chans && |w.chans[c]| < w.cap
    case Receive(c) => c in w.chans && w.chans[c] != []
    case FeedRing(r, f) => r in w.rings && FrameOk(f) && Holds(w, who, f.pcm.value) && Holds(w, who, f.opus.value)
    case PullRing(r) => r in w.rings && w.rings[r] != []
    case DrainRing(r) => r in w.rings
  }

  /** Where a buffer goes when it is put back. */
  function Home(b: Buf): Owner {
    if b.kind == Oversize then Garbage else Pool
  }

  function Returned(w: World, b: Buf): World {
    w.(owner := w.owner[b := Home(b)], pools := if b.kind == Oversize then w.pools else w.pools + multiset{b})
  }

  function ReturnedFrame(w: World, f: Frame): World
    requires FrameOk(f)
  {
    Returned(Returned(w, f.pcm.value), f.opus.value)
  }

  /** The first frame of ring `r` put back. */
  function Discarded(w: World, r: Id): World
    requires r in w.rings && w.rings[r] != []
  {
    var f := w.rings[r][0];
    var t := w.(rings := w.rings[r := w.rings[r][1..]]);
    if FrameOk(f) then ReturnedFrame(t, f) else t
  }

  function Drained(w: World, r: Id): World
    requires r in w.rings
    decreases |w.rings[r]|
  {
    if w.rings[r] == [] then w else Drained(Discarded(w, r), r)
  }

  function Inserted(w: World, r: Id, f: Frame): World
    requires r in w.rings && FrameOk(f)
  {
    w.(rings := w.rings[r := w.rings[r] + [f]], owner := w.owner[f.pcm.value := Slot(r)][f.opus.value := Slot(r)])
  }

  function Do(w: World, who: Id, s: Step): World
    requires Legal(w, who, s)
  {
    match s
    case Allocate(kind) => w.(owner := w.owner[Buf(w.next, kind) := Held(who)], next := w.next + 1)
    case Take(b) => w.(owner := w.owner[b := Held(who)], pools := w.pools - multiset{b})
    case PutBack(b) => Returned(w, b)
    case Forget(b) => w.(owner := w.owner[b := Garbage])
    case Use(_) => w
    case Send(c, b) => w.(owner := w.owner[b := Queued(c)], chans := w.chans[c := w.chans[c] + [b]])
    case Receive(c) => w.(owner := w.owner[w.chans[c][0] := Held(who)], chans := w.chans[c := w.chans[c][1..]])
    case FeedRing(r, f) => Inserted(if |w.rings[r]| == CAP then Discarded(w, r) else w, r, f)
    case PullRing(r) =>
      var f := w.rings[r][0];
      var t := w.(rings := w.rings[r := w.rings[r][1..]]);
      if FrameOk(f) then t.(owner := t.owner[f.pcm.value := Held(who)][f.opus.value := Held(who)]) else t
    case DrainRing(r) => Drained(w, r)
  }

  // ---------------------------------------------------------------------------
  // The invariant

  predicate InRing(q: seq<Frame>, b: Buf) {
    exists i :: 0 <= i < |q| && (q[i].pcm == Some(b) || q[i].opus == Some(b))
  }

  predicate RingOk(owner: map<Buf, Owner>, r: Id, q: seq<Frame>) {
    && |q| <= CAP
    && (forall i :: 0 <= i < |q| ==>
          FrameOk(q[i]) && Owned(owner, q[i].pcm.value, Slot(r)) && Owned(owner, q[i].opus.value, Slot(r)))
    && (forall i, j :: 0 <= i < j < |q| ==> q[i].pcm != q[j].pcm && q[i].opus != q[j].opus)
  }

  predicate ChanOk(owner: map<Buf, Owner>, cap: nat, c: Id, q: seq<Buf>) {
    && |q| <= cap
    && (forall i :: 0 <= i < |q| ==> Owned(owner, q[i], Queued(c)) && q[i].kind != Pcm)
    && (forall i, j :: 0 <= i < j < |q| ==> q[i] != q[j])
  }

  /** `b` is where its owner says. */
  predicate AtHome(w: World, b: Buf, o: Owner) {
    match o
    case Pool => b.kind != Oversize
    case Slot(r) => r in w.rings && InRing(w.rings[r], b)
    case Queued(c) => c in w.chans && b in w.chans[c]
    case Held(_) => true
    case Garbage => b.kind != Pcm
  }

  ghost predicate Valid(w: World) {
    && (forall b :: b in w.owner ==> b.id < w.next && AtHome(w, b, w.owner[b]))
    && (forall b :: w.pools[b] == if Owned(w.owner, b, Pool) then 1 else 0)
    && (forall r :: r in w.rings ==> RingOk(w.owner, r, w.rings[r]))
    && (forall c :: c in w.chans ==> ChanOk(w.owner, w.cap, c, w.chans[c]))
  }

  /** Empty rings and channels, empty pools. */
  function Start(rings: set<Id>, chans: set<Id>, cap: nat): World {
    World(multiset{}, map r | r in rings :: [], map c | c in chans :: [], map[], 0, cap)
  }

  lemma StartIsValid(rings: set<Id>, chans: set<Id>, cap: nat)
    ensures Valid(Start(rings, chans, cap))
  {
  }

  /** A ring does not care about buffers that are not in it, nor does a channel. */
  lemma RingFrame(owner: map<Buf, Owner>, r: Id, q: seq<Frame>, b: Buf, o: Owner)
    requires RingOk(owner, r, q) && !Owned(owner, b, Slot(r))
    ensures RingOk(owner[b := o], r, q)
  {
  }

  lemma ChanFrame(owner: map<Buf, Owner>, cap: nat, c: Id, q: seq<Buf>, b: Buf, o: Owner)
    requires ChanOk(owner, cap, c, q) && !Owned(owner, b, Queued(c))
    ensures ChanOk(owner[b := o], cap, c, q)
  {
  }

  predicate Loose(o: Owner) {
    o.Pool? || o.Held? || o.Garbage?
  }

  /** One buffer moves between the pool, a hand and the collector. */
  lemma LooseMove(w: World, t: World, b: Buf)
    requires Valid(w) && b in t.owner && t == w.(owner := w.owner[b := t.owner[b]], pools := t.pools, next := t.next)
    requires w.next <= t.next && b.id < t.next
    requires Loose(t.owner[b]) && (b in w.owner ==> Loose(w.owner[b]))
    requires AtHome(t, b, t.owner[b])
    requires forall x :: t.pools[x] == if Owned(t.owner, x, Pool) then 1 else 0
    ensures Valid(t)
  {
    hide RingOk, ChanOk, InRing;
    forall r | r in t.rings
      ensures RingOk(t.owner, r, t.rings[r])
    {
      RingFrame(w.owner, r, w.rings[r], b, t.owner[b]);
    }
    forall c | c in t.chans
      ensures ChanOk(t.owner, t.cap, c, t.chans[c])
    {
      ChanFrame(w.owner, w.cap, c, w.chans[c], b, t.owner[b]);
    }
  }

  lemma ReturnedValid(w: World, who: Id, b: Buf)
    requires Valid(w) && Holds(w, who, b)
    ensures Valid(Returned(w, b))
  {
    hide RingOk, ChanOk, InRing;
    LooseMove(w, Returned(w, b), b);
  }

  lemma AllocateValid(w: World, who: Id, kind: Kind)
    requires Valid(w)
    ensures Valid(Do(w, who, Allocate(kind)))
  {
    hide RingOk, ChanOk, InRing;
    LooseMove(w, Do(w, who, Allocate(kind)), Buf(w.next, kind));
  }

  lemma TakeValid(w: World, who: Id, b: Buf)
    requires Valid(w) && Owned(w.owner, b, Pool)
    ensures Valid(Do(w, who, Take(b)))
  {
    hide RingOk, ChanOk, InRing;
    LooseMove(w, Do(w, who, Take(b)), b);
  }

  lemma ForgetValid(w: World, who: Id, b: Buf)
    requires Valid(w) && Legal(w, who, Forget(b))
    ensures Valid(Do(w, who, Forget(b)))
  {
    hide RingOk, ChanOk, InRing;
    LooseMove(w, Do(w, who, Forget(b)), b);
  }

  lemma QueuedMore(owner: map<Buf, Owner>, cap: nat, c: Id, q: seq<Buf>, b: Buf)
    requires ChanOk(owner, cap, c, q) && |q| < cap && !Owned(owner, b, Queued(c)) && b.kind != Pcm
    ensures ChanOk(owner[b := Queued(c)], cap, c, q + [b])
  {
  }

  lemma QueuedLess(owner: map<Buf, Owner>, cap: nat, c: Id, q: seq<Buf>, o: Owner)
    requires ChanOk(owner, cap, c, q) && q != []
    ensures ChanOk(owner[q[0] := o], cap, c, q[1..])
  {
  }

  lemma SendValid(w: World, who: Id, c: Id, b: Buf)
    requires Valid(w) && Legal(w, who, Send(c, b))
    ensures Valid(Do(w, who, Send(c, b)))
  {
    hide RingOk, ChanOk, InRing;
    var t := Do(w, who, Send(c, b));
    forall r | r in t.rings
      ensures RingOk(t.owner, r, t.rings[r])
    {
      RingFrame(w.owner, r, w.rings[r], b, Queued(c));
    }
    forall x | x in t.chans
      ensures ChanOk(t.owner, t.cap, x, t.chans[x])
    {
      if x == c { QueuedMore(w.owner, w.cap, c, w.chans[c], b); } else { ChanFrame(w.owner, w.cap, x, w.chans[x], b, Queued(c)); }
    }
  }

  lemma ReceiveValid(w: World, who: Id, c: Id)
    requires Valid(w) && Legal(w, who, Receive(c))
    ensures Valid(Do(w, who, Receive(c)))
  {
    hide RingOk, ChanOk, InRing;
    var (t, b) := (Do(w, who, Receive(c)), w.chans[c][0]);
    assert Owned(w.owner, b, Queued(c)) by { QueueHead(w.owner, w.cap, c, w.chans[c]); }
    forall r | r in t.rings
      ensures RingOk(t.owner, r, t.rings[r])
    {
      RingFrame(w.owner, r, w.rings[r], b, Held(who));
    }
    forall x | x in t.chans
      ensures ChanOk(t.owner, t.cap, x, t.chans[x])
    {
      if x == c {
        QueuedLess(w.owner, w.cap, c, w.chans[c], Held(who));
      } else {
        ChanFrame(w.owner, w.cap, x, w.chans[x], b, Held(who));
      }
    }
  }

  lemma QueueHead(owner: map<Buf, Owner>, cap: nat, c: Id, q: seq<Buf>)
    requires ChanOk(owner, cap, c, q) && q != []
    ensures Owned(owner, q[0], Queued(c))
  {
  }

  lemma InsertedValid(w: World, who: Id, r: Id, f: Frame)
    requires Valid(w) && Legal(w, who, FeedRing(r, f)) && |w.rings[r]| < CAP
    ensures Valid(Inserted(w, r, f))
  {
    hide RingOk, ChanOk, AtHome;
    var t := Inserted(w, r, f);
    forall b | b in t.owner
      ensures b.id < t.next && AtHome(t, b, t.owner[b])
    {
      InsertedAtHome(w, who, r, f, b);
    }
    forall x | x in t.rings
      ensures RingOk(t.owner, x, t.rings[x])
    {
      InsertedRingOk(w, who, r, f, x);
    }
    forall c | c in t.chans
      ensures ChanOk(t.owner, t.cap, c, t.chans[c])
    {
      InsertedChanOk(w, who, r, f, c);
    }
  }

  lemma InsertedAtHome(w: World, who: Id, r: Id, f: Frame, b: Buf)
    requires Valid(w) && Legal(w, who, FeedRing(r, f)) && |w.rings[r]| < CAP && b in Inserted(w, r, f).owner
    ensures b in w.owner && AtHome(Inserted(w, r, f), b, Inserted(w, r, f).owner[b])
  {
    hide RingOk, ChanOk;
    var (q, t) := (w.rings[r], Inserted(w, r, f));
    assert t.rings[r][|q|] == f;
    assert AtHome(w, b, w.owner[b]);
    if t.owner[b] == Slot(r) && b != f.pcm.value && b != f.opus.value {
      var i :| 0 <= i < |q| && (q[i].pcm == Some(b) || q[i].opus == Some(b));
      assert t.rings[r][i] == q[i];
    }
  }

  lemma InsertedRingOk(w: World, who: Id, r: Id, f: Frame, x: Id)
    requires Valid(w) && Legal(w, who, FeedRing(r, f)) && |w.rings[r]| < CAP && x in w.rings
    ensures RingOk(Inserted(w, r, f).owner, x, Inserted(w, r, f).rings[x])
  {
    hide ChanOk, AtHome;
    assert RingOk(w.owner, x, w.rings[x]);
  }

  lemma InsertedChanOk(w: World, who: Id, r: Id, f: Frame, c: Id)
    requires Valid(w) && Legal(w, who, FeedRing(r, f)) && |w.rings[r]| < CAP && c in w.chans
    ensures ChanOk(Inserted(w, r, f).owner, w.cap, c, w.chans[c])
  {
    hide RingOk, AtHome;
    assert ChanOk(w.owner, w.cap, c, w.chans[c]);
  }

  lemma RingHead(owner: map<Buf, Owner>, r: Id, q: seq<Frame>)
    requires RingOk(owner, r, q) && q != []
    ensures FrameOk(q[0]) && Owned(owner, q[0].pcm.value, Slot(r)) && Owned(owner, q[0].opus.value, Slot(r))
  {
  }

  lemma RingLess(owner: map<Buf, Owner>, r: Id, q: seq<Frame>, o: Owner)
    requires RingOk(owner, r, q) && q != []
    ensures FrameOk(q[0]) && RingOk(owner[q[0].pcm.value := o][q[0].opus.value := o], r, q[1..])
  {
  }

  lemma StillInRing(q: seq<Frame>, b: Buf)
    requires q != [] && InRing(q, b) && q[0].pcm != Some(b) && q[0].opus != Some(b)
    ensures InRing(q[1..], b)
  {
    var i :| 0 <= i < |q| && (q[i].pcm == Some(b) || q[i].opus == Some(b));
    assert q[1..][i - 1] == q[i];
  }

  lemma PullValid(w: World, who: Id, r: Id)
    requires Valid(w) && Legal(w, who, PullRing(r))
    ensures Valid(Do(w, who, PullRing(r)))
  {
    hide RingOk, ChanOk, InRing;
    var (f, t) := (w.rings[r][0], Do(w, who, PullRing(r)));
    RingHead(w.owner, r, w.rings[r]);
    var (p, o) := (f.pcm.value, f.opus.value);
    forall x | x in t.rings
      ensures RingOk(t.owner, x, t.rings[x])
    {
      if x == r {
        RingLess(w.owner, r, w.rings[r], Held(who));
      } else {
        RingFrame(w.owner, x, w.rings[x], p, Held(who));
        RingFrame(w.owner[p := Held(who)], x, w.rings[x], o, Held(who));
      }
    }
    forall c | c in t.chans
      ensures ChanOk(t.owner, t.cap, c, t.chans[c])
    {
      ChanFrame(w.owner, w.cap, c, w.chans[c], p, Held(who));
      ChanFrame(w.owner[p := Held(who)], w.cap, c, w.chans[c], o, Held(who));
    }
    forall b | b in t.owner
      ensures b.id < t.next && AtHome(t, b, t.owner[b])
    {
      if w.owner[b] == Slot(r) && b != p && b != o {
        StillInRing(w.rings[r], b);
      }
    }
  }

  /** Nobody's hand changed, and what was lost to the collector stays lost. */
  ghost predicate SameHands(w: World, t: World) {
    && (forall b, o: Id :: Owned(w.owner, b, Held(o)) <==> Owned(t.owner, b, Held(o)))
    && (forall b :: Owned(w.owner, b, Garbage) ==> Owned(t.owner, b, Garbage))
  }

  lemma ShortRing(w: World, r: Id)
    requires Valid(w) && r in w.rings
    ensures |w.rings[r]| <= CAP
  {
    assert RingOk(w.owner, r, w.rings[r]);
  }

  lemma HeldThenReturned(owner: map<Buf, Owner>, p: Buf, o: Buf, who: Id)
    requires p != o
    ensures owner[p := Held(who)][o := Held(who)][p := Home(p)][o := Home(o)] == owner[p := Home(p)][o := Home(o)]
  {
  }

  /** Discarding the oldest frame is pulling it and putting both buffers back. */
  lemma DiscardedIsPulled(w: World, who: Id, r: Id)
    requires Valid(w) && Legal(w, who, PullRing(r))
    ensures FrameOk(w.rings[r][0])
    ensures var (f, t) := (w.rings[r][0], Do(w, who, PullRing(r)));
            Holds(t, who, f.pcm.value) && Holds(t, who, f.opus.value)
            && Discarded(w, r) == ReturnedFrame(t, f)
  {
    HeadSlotted(w, r);
    hide Valid;
    var f := w.rings[r][0];
    HeldThenReturned(w.owner, f.pcm.value, f.opus.value, who);
  }

  lemma DiscardedValid(w: World, who: Id, r: Id)
    requires Valid(w) && r in w.rings && w.rings[r] != []
    ensures Valid(Discarded(w, r)) && Discarded(w, r).rings == w.rings[r := w.rings[r][1..]]
    ensures SameHands(w, Discarded(w, r))
  {
    hide Valid;
    DiscardedIsPulled(w, who, r);
    PullValid(w, who, r);
    var (f, t) := (w.rings[r][0], Do(w, who, PullRing(r)));
    ReturnedValid(t, who, f.pcm.value);
    ReturnedValid(Returned(t, f.pcm.value), who, f.opus.value);
    DiscardedKeepsHands(w, r);
  }

  lemma DiscardedKeepsHands(w: World, r: Id)
    requires Valid(w) && r in w.rings && w.rings[r] != []
    ensures SameHands(w, Discarded(w, r))
  {
    hide AtHome, ChanOk, RingOk;
    RingHead(w.owner, r, w.rings[r]);
  }

  lemma {:induction false} DrainedValid(w: World, r: Id)
    requires Valid(w) && r in w.rings
    ensures Valid(Drained(w, r))
    ensures SameHands(w, Drained(w, r))
    decreases |w.rings[r]|
  {
    hide Valid, Discarded;
    if w.rings[r] != [] {
      DiscardedValid(w, 0, r);
      DrainedValid(Discarded(w, r), r);
    }
  }

  lemma FeedValid(w: World, who: Id, r: Id, f: Frame)
    requires Valid(w) && Legal(w, who, FeedRing(r, f))
    ensures Valid(Do(w, who, FeedRing(r, f)))
  {
    hide Discarded;
    assert |w.rings[r]| <= CAP by { assert RingOk(w.owner, r, w.rings[r]); }
    if |w.rings[r]| == CAP {
      DiscardedValid(w, who, r);
      InsertedValid(Discarded(w, r), who, r, f);
    } else {
      InsertedValid(w, who, r, f);
    }
  }

  /** No legal step of any goroutine gives a buffer a second owner or loses one. */
  lemma LegalKeepsValid(w: World, who: Id, s: Step)
    requires Valid(w) && Legal(w, who, s)
    ensures Valid(Do(w, who, s))
  {
    match s
    case Allocate(kind) => AllocateValid(w, who, kind);
    case Take(b) => TakeValid(w, who, b);
    case PutBack(b) => ReturnedValid(w, who, b);
    case Forget(b) => ForgetValid(w, who, b);
    case Use(_) =>
    case Send(c, b) => SendValid(w, who, c, b);
    case Receive(c) => ReceiveValid(w, who, c);
    case FeedRing(r, f) => FeedValid(w, who, r, f);
    case PullRing(r) => PullValid(w, who, r);
    case DrainRing(r) => DrainedValid(w, r);
  }

  /** The ring steps act on the queue as the ring of `SourceBuffer` does, and put
      back the buffers it reports. */
  lemma RingStepsFollowTheQueue(w: World, who: Id, r: Id, f: Frame)
    requires Valid(w) && Legal(w, who, FeedRing(r, f))
    ensures Do(w, who, FeedRing(r, f)).rings == w.rings[r := Fed(w.rings[r], f)]
    ensures forall b :: b in AllCarried(Oldest(w.rings[r])) ==> Owned(Do(w, who, FeedRing(r, f)).owner, b, Home(b))
  {
    hide Valid, Discarded, Home;
    var q := w.rings[r];
    ShortRing(w, r);
    if |q| == CAP {
      assert AllCarried(q[..1]) == Carried(q[0]) + AllCarried([]) by { assert q[..1][1..] == []; }
      DiscardedValid(w, who, r);
      DiscardedHome(w, r);
      HeadSlotted(w, r);
    }
  }

  lemma {:induction false} DrainFollowsTheQueue(w: World, r: Id)
    requires Valid(w) && r in w.rings
    ensures Drained(w, r).rings == w.rings[r := []]
    ensures forall b :: b in AllCarried(w.rings[r]) ==> Owned(Drained(w, r).owner, b, Home(b))
    ensures forall b :: Owned(w.owner, b, Home(b)) ==> Owned(Drained(w, r).owner, b, Home(b))
    decreases |w.rings[r]|
  {
    hide Valid, Discarded, Owned, Home;
    var q := w.rings[r];
    if q == [] {
      assert w.rings == w.rings[r := []];
    } else {
      var t := Discarded(w, r);
      DiscardedValid(w, 0, r);
      DiscardedHome(w, r);
      DrainFollowsTheQueue(t, r);
      assert t.rings[r := []] == w.rings[r := []];
      assert AllCarried(q) == Carried(q[0]) + AllCarried(q[1..]);
    }
  }

  lemma DiscardedHome(w: World, r: Id)
    requires Valid(w) && r in w.rings && w.rings[r] != []
    ensures forall b :: b in Carried(w.rings[r][0]) ==> Owned(Discarded(w, r).owner, b, Home(b))
    ensures forall b :: Owned(w.owner, b, Home(b)) ==> Owned(Discarded(w, r).owner, b, Home(b))
  {
    hide AtHome, ChanOk, RingOk;
    RingHead(w.owner, r, w.rings[r]);
  }

  // ---------------------------------------------------------------------------
  // Every run

  function Run(w: World, trace: seq<(Id, Step)>): World {
    if trace == [] then w
    else
      var t := Run(w, trace[..|trace| - 1]);
      var (who, s) := trace[|trace| - 1];
      if Legal(t, who, s) then Do(t, who, s) else t
  }

  lemma {:induction false} RunKeepsValid(w: World, trace: seq<(Id, Step)>)
    requires Valid(w)
    ensures Valid(Run(w, trace))
  {
    hide Valid, Do, Legal;
    if trace != [] {
      var t := Run(w, trace[..|trace| - 1]);
      RunKeepsValid(w, trace[..|trace| - 1]);
      var (who, s) := trace[|trace| - 1];
      if Legal(t, who, s) {
        LegalKeepsValid(t, who, s);
      }
    }
  }

  /** Everywhere a buffer can be found. */
  datatype Place = InPool | RingPcm(source: Id, index: nat) | RingOpus(source: Id, index: nat)
                 | InChan(chan: Id, index: nat) | InHand(who: Id) | Lost

  predicate Found(w: World, b: Buf, p: Place) {
    match p
    case InPool => w.pools[b] > 0
    case RingPcm(r, i) => r in w.rings && i < |w.rings[r]| && w.rings[r][i].pcm == Some(b)
    case RingOpus(r, i) => r in w.rings && i < |w.rings[r]| && w.rings[r][i].opus == Some(b)
    case InChan(c, i) => c in w.chans && i < |w.chans[c]| && w.chans[c][i] == b
    case InHand(who) => Holds(w, who, b)
    case Lost => Owned(w.owner, b, Garbage)
  }

  lemma FoundIsOwned(w: World, b: Buf, p: Place)
    requires Valid(w) && Found(w, b, p)
    ensures b in w.owner && w.owner[b] == match p
                                          case InPool => Pool
                                          case RingPcm(r, _) => Slot(r)
                                          case RingOpus(r, _) => Slot(r)
                                          case InChan(c, _) => Queued(c)
                                          case InHand(who) => Held(who)
                                          case Lost => Garbage
    ensures p.RingPcm? ==> b.kind == Pcm
    ensures p.RingOpus? ==> b.kind != Pcm
  {
    hide AtHome;
    match p
    case InPool =>
    case RingPcm(r, i) => assert RingOk(w.owner, r, w.rings[r]);
    case RingOpus(r, i) => assert RingOk(w.owner, r, w.rings[r]);
    case InChan(c, i) => assert ChanOk(w.owner, w.cap, c, w.chans[c]);
    case InHand(who) =>
    case Lost =>
  }

  ghost predicate InOnePlace(w: World, b: Buf) {
    && w.pools[b] <= 1
    && (exists p :: Found(w, b, p))
    && (forall p, q :: Found(w, b, p) && Found(w, b, q) ==> p == q)
  }

  /** In every state of every run of legal steps, a buffer is in exactly one
      place, once; a PCM buffer is never lost. */
  lemma {:induction false} EveryBufferHasOneOwner(rings: set<Id>, chans: set<Id>, cap: nat, trace: seq<(Id, Step)>, b: Buf)
    requires b in Run(Start(rings, chans, cap), trace).owner
    ensures InOnePlace(Run(Start(rings, chans, cap), trace), b)
    ensures b.kind == Pcm ==> !Found(Run(Start(rings, chans, cap), trace), b, Lost)
  {
    StartIsValid(rings, chans, cap);
    RunKeepsValid(Start(rings, chans, cap), trace);
    var t := Run(Start(rings, chans, cap), trace);
    SomePlace(t, b);
    forall p, q | Found(t, b, p) && Found(t, b, q)
      ensures p == q
    {
      OnePlace(t, b, p, q);
    }
    NeverLost(t, b);
  }

  lemma NeverLost(w: World, b: Buf)
    requires Valid(w) && b in w.owner
    ensures b.kind == Pcm ==> !Found(w, b, Lost)
    ensures w.pools[b] <= 1
  {
    assert AtHome(w, b, w.owner[b]);
  }

  lemma OnePlace(w: World, b: Buf, p: Place, q: Place)
    requires Valid(w) && Found(w, b, p) && Found(w, b, q)
    ensures p == q
  {
    hide AtHome;
    FoundIsOwned(w, b, p);
    FoundIsOwned(w, b, q);
    if p.RingPcm? || p.RingOpus? {
      assert RingOk(w.owner, p.source, w.rings[p.source]);
    } else if p.InChan? {
      assert ChanOk(w.owner, w.cap, p.chan, w.chans[p.chan]);
    }
  }

  lemma SomePlace(w: World, b: Buf)
    requires Valid(w) && b in w.owner
    ensures exists p :: Found(w, b, p)
  {
    hide RingOk, ChanOk;
    assert AtHome(w, b, w.owner[b]);
    match w.owner[b]
    case Pool => assert Found(w, b, InPool);
    case Slot(r) =>
      var i: int :| 0 <= i < |w.rings[r]| && (w.rings[r][i].pcm == Some(b) || w.rings[r][i].opus == Some(b));
      assert Found(w, b, RingPcm(r, i)) || Found(w, b, RingOpus(r, i));
    case Queued(c) =>
      var i: int :| 0 <= i < |w.chans[c]| && w.chans[c][i] == b;
      assert Found(w, b, InChan(c, i));
    case Held(who) => assert Found(w, b, InHand(who));
    case Garbage => assert Found(w, b, Lost);
  }

  // ---------------------------------------------------------------------------
  // What a step does to the hands

  function Hand(w: World, who: Id): set<Buf> {
    set b | b in w.owner && w.owner[b] == Held(who)
  }

  /** The buffers a step adds to the hand of the goroutine making it. */
  function Gained(w: World, who: Id, s: Step): set<Buf>
    requires Legal(w, who, s)
  {
    match s
    case Allocate(kind) => {Buf(w.next, kind)}
    case Take(b) => {b}
    case Receive(c) => {w.chans[c][0]}
    case PullRing(r) => if FrameOk(w.rings[r][0]) then {w.rings[r][0].pcm.value, w.rings[r][0].opus.value} else {}
    case _ => {}
  }

  function Given(s: Step): set<Buf> {
    match s
    case PutBack(b) => {b}
    case Forget(b) => {b}
    case Send(_, b) => {b}
    case FeedRing(_, f) => if FrameOk(f) then {f.pcm.value, f.opus.value} else {}
    case _ => {}
  }

  /** A step changes no hand but its own goroutine's, and that one by exactly
      what it gained and gave away. */
  lemma HandsAfter(w: World, who: Id, s: Step, o: Id)
    requires Valid(w) && Legal(w, who, s)
    ensures Hand(Do(w, who, s), o) == if o == who then Hand(w, o) - Given(s) + Gained(w, who, s) else Hand(w, o)
  {
    hide Valid, Inserted, Discarded, Drained;
    match s
    case DrainRing(r) =>
      DrainedValid(w, r);
      SameHand(w, Drained(w, r), o);
    case FeedRing(r, f) => FeedHands(w, who, r, f, o);
    case Receive(c) => HeadQueued(w, c);
    case PullRing(r) => HeadSlotted(w, r);
    case Allocate(kind) => NextIsUnused(w, kind);
    case _ =>
  }

  lemma NextIsUnused(w: World, kind: Kind)
    requires Valid(w)
    ensures Buf(w.next, kind) !in w.owner
  {
  }

  lemma FeedHands(w: World, who: Id, r: Id, f: Frame, o: Id)
    requires Valid(w) && Legal(w, who, FeedRing(r, f))
    ensures Hand(Do(w, who, FeedRing(r, f)), o) == Hand(w, o) - if o == who then Given(FeedRing(r, f)) else {}
  {
    hide Valid, Discarded;
    if |w.rings[r]| == CAP {
      DiscardedValid(w, who, r);
      SameHand(w, Discarded(w, r), o);
    }
  }

  lemma SameHand(w: World, t: World, o: Id)
    requires SameHands(w, t)
    ensures Hand(w, o) == Hand(t, o)
  {
    forall b
      ensures b in Hand(w, o) <==> b in Hand(t, o)
    {
      assert Owned(w.owner, b, Held(o)) <==> Owned(t.owner, b, Held(o));
    }
  }

  lemma HeadQueued(w: World, c: Id)
    requires Valid(w) && c in w.chans && w.chans[c] != []
    ensures Owned(w.owner, w.chans[c][0], Queued(c))
  {
    hide AtHome, RingOk;
    assert ChanOk(w.owner, w.cap, c, w.chans[c]);
  }

  lemma HeadSlotted(w: World, r: Id)
    requires Valid(w) && r in w.rings && w.rings[r] != []
    ensures FrameOk(w.rings[r][0])
    ensures Owned(w.owner, w.rings[r][0].pcm.value, Slot(r)) && Owned(w.owner, w.rings[r][0].opus.value, Slot(r))
  {
    hide AtHome, ChanOk, RingOk;
    RingHead(w.owner, r, w.rings[r]);
  }

  /** What the collector has got, it keeps. */
  lemma GarbageStays(w: World, who: Id, s: Step)
    requires Valid(w) && Legal(w, who, s)
    ensures forall b :: Owned(w.owner, b, Garbage) ==> Owned(Do(w, who, s).owner, b, Garbage)
  {
    hide Valid, Discarded;
    match s
    case DrainRing(r) => DrainedValid(w, r);
    case FeedRing(r, f) =>
      if |w.rings[r]| == CAP {
        DiscardedValid(w, who, r);
      }
    case Receive(c) => HeadQueued(w, c);
    case PullRing(r) => HeadSlotted(w, r);
    case Allocate(kind) => NextIsUnused(w, kind);
    case _ =>
  }
}
