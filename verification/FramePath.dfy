/** The audio path of one goroutine, every other goroutine free to take any legal
    steps between any two of its own: receive, fan-out, tick, sinks, the relay
    bridge and the provider. */
module FramePath {
  import opened SourceBuffer
  import opened Ownership

  /** `t` can come after `w`. */
  ghost predicate Later(w: World, t: World) {
    && SamePlaces(w, t)
    && (forall b :: Owned(w.owner, b, Garbage) ==> Owned(t.owner, b, Garbage))
  }

  lemma LaterTwice(w: World, t: World, u: World)
    requires Later(w, t) && Later(t, u)
    ensures Later(w, u)
  {
  }

  lemma LaterAtOnce(w: World)
    ensures Later(w, w)
  {
  }

  lemma LaterKeepsCap(w: World)
    ensures forall t :: Later(w, t) ==> t.cap == w.cap
  {
  }

  lemma LaterKeepsChannel(c: Id)
    ensures forall w, t :: Later(w, t) && c in w.chans ==> c in t.chans
  {
  }

  predicate SamePlaces(w: World, t: World) {
    t.rings.Keys == w.rings.Keys && t.chans.Keys == w.chans.Keys && t.cap == w.cap
  }

  lemma {:induction false} DrainedPlaces(w: World, r: Id)
    requires r in w.rings
    ensures SamePlaces(w, Drained(w, r))
    decreases |w.rings[r]|
  {
    if w.rings[r] != [] {
      DrainedPlaces(Discarded(w, r), r);
    }
  }

  lemma DiscardedPlaces(w: World, r: Id)
    requires r in w.rings && w.rings[r] != []
    ensures SamePlaces(w, Discarded(w, r)) && Discarded(w, r).rings[r] == w.rings[r][1..]
  {
  }

  lemma StepKeepsPlaces(w: World, who: Id, s: Step)
    requires Legal(w, who, s)
    ensures SamePlaces(w, Do(w, who, s))
  {
    hide Drained, Discarded;
    match s
    case DrainRing(r) => DrainedPlaces(w, r);
    case FeedRing(r, f) => if |w.rings[r]| == CAP { DiscardedPlaces(w, r); }
    case _ =>
  }

  lemma {:induction false} DrainedQueues(w: World, r: Id)
    requires r in w.rings
    ensures Drained(w, r).chans == w.chans && Drained(w, r).rings == w.rings[r := []]
    decreases |w.rings[r]|
  {
    if w.rings[r] != [] {
      DiscardedQueues(w, r);
      DrainedQueues(Discarded(w, r), r);
    }
  }

  lemma DiscardedQueues(w: World, r: Id)
    requires r in w.rings && w.rings[r] != []
    ensures Discarded(w, r).chans == w.chans && Discarded(w, r).rings == w.rings[r := w.rings[r][1..]]
  {
  }

  /** The ring a step works on. */
  function Touched(s: Step): seq<Id> {
    match s
    case FeedRing(r, _) => [r]
    case PullRing(r) => [r]
    case DrainRing(r) => [r]
    case _ => []
  }

  /** A channel loses nothing unless somebody receives from it, and a ring stays
      as it is unless somebody works on it. */
  ghost predicate StepKept(w: World, s: Step, t: World) {
    && (forall c :: c in w.chans && s != Receive(c) ==> c in t.chans && w.chans[c] <= t.chans[c])
    && (forall r :: r in w.rings && r !in Touched(s) ==> r in t.rings && t.rings[r] == w.rings[r])
  }

  lemma StepKeeps(w: World, who: Id, s: Step)
    requires Legal(w, who, s)
    ensures StepKept(w, s, Do(w, who, s))
  {
    hide Drained, Discarded;
    match s
    case DrainRing(r) => DrainedQueues(w, r);
    case FeedRing(r, f) => if |w.rings[r]| == CAP { DiscardedQueues(w, r); }
    case _ =>
  }

  lemma SentQueue(w: World, who: Id, c: Id, b: Buf)
    requires Legal(w, who, Send(c, b))
    ensures c in Do(w, who, Send(c, b)).chans && Do(w, who, Send(c, b)).chans[c] == w.chans[c] + [b]
  {
  }

  lemma FedQueue(w: World, who: Id, r: Id, f: Frame)
    requires Legal(w, who, FeedRing(r, f))
    ensures var (q, t) := (w.rings[r], Do(w, who, FeedRing(r, f)));
            r in t.rings && t.rings[r] == (if |q| == CAP then q[1..] else q) + [f]
  {
    hide Discarded;
    if |w.rings[r]| == CAP { DiscardedQueues(w, r); }
  }

  lemma {:induction false} DrainRingIsDrained(w: World, who: Id, r: Id)
    requires Legal(w, who, DrainRing(r))
    ensures Do(w, who, DrainRing(r)) == Drained(w, r)
  {
  }

  lemma PulledQueue(w: World, who: Id, r: Id)
    requires Legal(w, who, PullRing(r))
    ensures r in Do(w, who, PullRing(r)).rings && Do(w, who, PullRing(r)).rings[r] == w.rings[r][1..]
  {
  }

  lemma ReceivedQueue(w: World, who: Id, c: Id)
    requires Legal(w, who, Receive(c))
    ensures c in Do(w, who, Receive(c)).chans && Do(w, who, Receive(c)).chans[c] == w.chans[c][1..]
  {
  }

  lemma StepIsLater(w: World, who: Id, s: Step)
    requires Valid(w) && Legal(w, who, s)
    ensures Valid(Do(w, who, s)) && Later(w, Do(w, who, s))
  {
    hide Valid, Do, Legal;
    LegalKeepsValid(w, who, s);
    GarbageStays(w, who, s);
    StepKeepsPlaces(w, who, s);
  }

  /** Where a mixer sends what it produces. */
  datatype Sink = NoSink | Speakers(outs: seq<Id>) | Guilds(guilds: map<Id, seq<Id>>, exclude: Id)

  /** A fan-out install, for one user. */
  datatype Install = Install(opusTargets: seq<Id>, callback: Sink, sources: seq<Id>)

  const ENCODED_CAP: nat := 640
  const RECEIVED_CAP: nat := 256
  const DRAIN_THRESHOLD: nat := 3
  const HARD_DRAIN_THRESHOLD: nat := 2 * DRAIN_THRESHOLD
  const AUDIO_CHAN_BUF: nat := DRAIN_THRESHOLD

  predicate Known(w: World, chans: seq<Id>) {
    forall c :: c in chans ==> c in w.chans
  }

  predicate SinkKnown(w: World, sink: Sink) {
    match sink
    case NoSink => true
    case Speakers(outs) => Known(w, outs)
    case Guilds(guilds, exclude) => forall g :: g in guilds ==> Known(w, guilds[g])
  }

  function PcmSet(frames: seq<Frame>): set<Buf> {
    set f | f in frames && f.pcm.Some? :: f.pcm.value
  }

  function OpusSet(frames: seq<Frame>): set<Buf> {
    set f | f in frames && f.opus.Some? :: f.opus.value
  }

  predicate Separate(frames: seq<Frame>) {
    && (forall i :: 0 <= i < |frames| ==> FrameOk(frames[i]))
    && (forall i, j :: 0 <= i < j < |frames| ==> frames[i].pcm != frames[j].pcm && frames[i].opus != frames[j].opus)
  }

  lemma PcmSplit(frames: seq<Frame>, i: nat)
    requires Separate(frames) && i < |frames|
    ensures PcmSet(frames[i..]) == {frames[i].pcm.value} + PcmSet(frames[i + 1..])
    ensures frames[i].pcm.value !in PcmSet(frames[i + 1..])
  {
    assert frames[i..] == [frames[i]] + frames[i + 1..];
  }

  lemma OpusSplit(frames: seq<Frame>, i: nat)
    requires Separate(frames) && i < |frames|
    ensures OpusSet(frames[i..]) == {frames[i].opus.value} + OpusSet(frames[i + 1..])
    ensures frames[i].opus.value !in OpusSet(frames[i + 1..])
  {
    assert frames[i..] == [frames[i]] + frames[i + 1..];
  }

  /** A look at a ring: the queue found there, and whether all of it was taken or
      only its head. */
  datatype Taking = Taking(source: Id, queue: seq<Frame>, all: bool)

  function Got(t: Taking): seq<Frame> {
    if t.all || t.queue == [] then t.queue else [t.queue[0]]
  }

  /** The frames that left the rings, in order. */
  function Taken(ts: seq<Taking>): seq<Frame> {
    if ts == [] then [] else Taken(ts[..|ts| - 1]) + Got(ts[|ts| - 1])
  }

  /** The frames that have samples. */
  function Playable(frames: seq<Frame>): seq<Frame> {
    if frames == [] then []
    else
      var f := frames[|frames| - 1];
      Playable(frames[..|frames| - 1]) + if f.len > 0 then [f] else []
  }

  /** The frames that have none. */
  function Silent(frames: seq<Frame>): seq<Frame> {
    if frames == [] then []
    else
      var f := frames[|frames| - 1];
      Silent(frames[..|frames| - 1]) + if f.len == 0 then [f] else []
  }

  function PcmOf(frames: seq<Frame>): seq<Buf> {
    if frames == [] then [] else PcmOf(frames[..|frames| - 1]) + Opt(frames[|frames| - 1].pcm)
  }

  function OpusOf(frames: seq<Frame>): seq<Buf> {
    if frames == [] then [] else OpusOf(frames[..|frames| - 1]) + Opt(frames[|frames| - 1].opus)
  }

  /** The frames a mixer takes out of its rings without mixing them: the silent
      ones, or all when it is paused. */
  function Unmixed(ts: seq<Taking>, paused: bool): seq<Frame> {
    if paused then Taken(ts) else Silent(Taken(ts))
  }

  /** The frames it mixes. */
  function Mixed(ts: seq<Taking>, paused: bool): seq<Frame> {
    if paused then [] else Playable(Taken(ts))
  }

  function Opt<T>(b: Option<T>): seq<T> {
    if b.Some? then [b.value] else []
  }

  function Head<T>(q: seq<T>): Option<T> {
    if q == [] then None else Some(q[0])
  }

  function Tail<T>(q: seq<T>): seq<T> {
    if q == [] then [] else q[1..]
  }

  lemma NoBufs()
    ensures PcmOf([]) == [] && OpusOf([]) == [] && Playable([]) == [] && Silent([]) == []
  {
  }

  /** Silent or mixed, every PCM buffer taken is accounted for once. */
  lemma {:induction false} MixedOrNot(frames: seq<Frame>)
    ensures multiset(PcmOf(Silent(frames))) + multiset(PcmOf(Playable(frames))) == multiset(PcmOf(frames))
  {
    hide PcmOf, Silent, Playable;
    if frames == [] {
      NoBufs();
      assert frames == [];
    } else {
      var front, f := frames[..|frames| - 1], frames[|frames| - 1];
      assert frames == front + [f];
      MixedOrNot(front);
      BufsOfMore(front, f);
      BufsOfMore(Silent(front), f);
      BufsOfMore(Playable(front), f);
      assert f.len == 0 ==> Playable(frames) == Playable(front);
      assert f.len > 0 ==> Silent(frames) == Silent(front);
    }
  }

  lemma {:induction false} BufsOfMore(frames: seq<Frame>, f: Frame)
    ensures PcmOf(frames + [f]) == PcmOf(frames) + Opt(f.pcm)
    ensures OpusOf(frames + [f]) == OpusOf(frames) + Opt(f.opus)
    ensures Playable(frames + [f]) == Playable(frames) + if f.len > 0 then [f] else []
    ensures Silent(frames + [f]) == Silent(frames) + if f.len == 0 then [f] else []
  {
    assert (frames + [f])[..|frames|] == frames;
  }

  lemma {:induction false} BufsOfBoth(a: seq<Frame>, b: seq<Frame>)
    ensures PcmOf(a + b) == PcmOf(a) + PcmOf(b)
    ensures OpusOf(a + b) == OpusOf(a) + OpusOf(b)
  {
    hide PcmOf, OpusOf, Silent, Playable;
    if b == [] {
      NoBufs();
      assert b == [] && a + b == a;
    } else {
      var front, f := b[..|b| - 1], b[|b| - 1];
      assert b == front + [f];
      BufsOfBoth(a, front);
      BufsOfMore(front, f);
      BufsOfMore(a + front, f);
      assert a + b == a + front + [f];
    }
  }

  /** One more look at a ring: at all of it, or at its head. */
  lemma OneMoreLook(ts: seq<Taking>, t: Taking)
    ensures PcmOf(Unmixed(ts + [t], t.all)) == PcmOf(Unmixed(ts, t.all)) + if t.all then PcmOf(t.queue) else MutedPcm(t.queue)
    ensures OpusOf(Unmixed(ts + [t], t.all)) == OpusOf(Unmixed(ts, t.all)) + if t.all then OpusOf(t.queue) else MutedOpus(t.queue)
    ensures Mixed(ts + [t], t.all) == Mixed(ts, t.all) + if t.all then [] else Opt(Chosen(t.queue))
  {
    hide PcmOf, OpusOf, Playable, Silent, Taken;
    TakenMore(ts, t);
    if t.all {
      BufsOfBoth(Taken(ts), t.queue);
    } else if t.queue == [] {
      assert Taken(ts + [t]) == Taken(ts);
    } else {
      var f := t.queue[0];
      BufsOfMore(Taken(ts), f);
      BufsOfMore(Silent(Taken(ts)), f);
      assert f.len > 0 ==> Silent(Taken(ts) + [f]) == Silent(Taken(ts));
      assert f.len == 0 ==> Playable(Taken(ts) + [f]) == Playable(Taken(ts));
    }
  }

  lemma {:induction false} TakenMore(ts: seq<Taking>, t: Taking)
    ensures Taken(ts + [t]) == Taken(ts) + Got(t)
  {
    assert (ts + [t])[..|ts|] == ts;
  }

  /** The frame a pull of the queue keeps. */
  function Chosen(q: seq<Frame>): Option<Frame> {
    if q != [] && q[0].len > 0 then Some(q[0]) else None
  }

  /** The buffers it puts back at once. */
  function MutedPcm(q: seq<Frame>): seq<Buf> {
    if q != [] && q[0].len == 0 then Opt(q[0].pcm) else []
  }

  function MutedOpus(q: seq<Frame>): seq<Buf> {
    if q != [] && q[0].len == 0 then Opt(q[0].opus) else []
  }

  /** A buffer offered to a channel, and what was queued there at that instant. */
  datatype Offering = Offering(chan: Id, buf: Buf, queue: seq<Buf>)

  /** A frame fed to a ring. */
  datatype Feeding = Feeding(ring: Id, frame: Frame)

  /** One buffer for each channel, in order. */
  predicate Offered(news: seq<Offering>, chans: seq<Id>) {
    |news| == |chans| && forall i :: 0 <= i < |news| ==> news[i].chan == chans[i]
  }

  /** One frame of that many samples for each ring, in order. */
  predicate FedTo(news: seq<Feeding>, rings: seq<Id>, samples: nat) {
    |news| == |rings| && forall i :: 0 <= i < |news| ==> news[i].ring == rings[i] && news[i].frame.len == samples
  }

  /** The buffers that met a full channel. */
  function Refused(news: seq<Offering>, cap: nat): seq<Buf> {
    if news == [] then []
    else
      var o := news[|news| - 1];
      Refused(news[..|news| - 1], cap) + if |o.queue| < cap then [] else [o.buf]
  }

  lemma {:induction false} RefusedMore(news: seq<Offering>, o: Offering, cap: nat)
    ensures Refused(news + [o], cap) == Refused(news, cap) + if |o.queue| < cap then [] else [o.buf]
  {
    assert (news + [o])[..|news|] == news;
  }

  lemma {:induction false} RefusedBoth(news: seq<Offering>, more: seq<Offering>, cap: nat)
    ensures Refused(news + more, cap) == Refused(news, cap) + Refused(more, cap)
  {
    hide Refused;
    if more == [] {
      assert Refused(more, cap) == [] by { NoneRefused(cap); }
      assert news + more == news;
    } else {
      var front, o := more[..|more| - 1], more[|more| - 1];
      assert more == front + [o] && news + more == news + front + [o];
      RefusedBoth(news, front, cap);
      RefusedMore(front, o, cap);
      RefusedMore(news + front, o, cap);
    }
  }

  lemma {:induction false} NoneRefused(cap: nat)
    ensures Refused([], cap) == []
  {
  }

  lemma OfferedNone()
    ensures Offered([], [])
  {
  }

  lemma OfferedBoth(news: seq<Offering>, chans: seq<Id>, more: seq<Offering>, others: seq<Id>)
    requires Offered(news, chans) && Offered(more, others)
    ensures Offered(news + more, chans + others)
  {
  }

  lemma FedNone(rings: seq<Id>, decoded: Option<nat>)
    ensures rings == [] && decoded.Some? ==> FedTo([], rings, decoded.value)
  {
  }

  /** What a ring holds after the frames fed to it came in, the oldest going out
      of a full one. */
  function RingAfter(q: seq<Frame>, news: seq<Feeding>, r: Id): seq<Frame> {
    if news == [] then q
    else
      var (before, last) := (RingAfter(q, news[..|news| - 1], r), news[|news| - 1]);
      if last.ring != r then before else (if |before| == CAP then before[1..] else before) + [last.frame]
  }

  lemma {:induction false} RingAfterMore(q: seq<Frame>, news: seq<Feeding>, r: Id, f: Frame, x: Id)
    ensures var before := RingAfter(q, news, x);
            RingAfter(q, news + [Feeding(r, f)], x)
            == if x != r then before else (if |before| == CAP then before[1..] else before) + [f]
  {
    assert (news + [Feeding(r, f)])[..|news|] == news;
  }

  /** What a sink puts back of a packet and its copies. */
  function PutBySink(sink: Sink, news: seq<Offering>, pkt: Buf, cap: nat): seq<Buf> {
    Refused(news, cap) + if sink == NoSink || sink == Speakers([]) || sink.Guilds? then [pkt] else []
  }

  /** The last of a mixer's destinations gets the packet itself. */
  predicate LastIsPacket(sink: Sink, news: seq<Offering>, pkt: Buf) {
    sink.Speakers? && sink.outs != [] ==> news != [] && news[|news| - 1].buf == pkt
  }

  /** The second offer found the first one's buffer, if there was room for that. */
  predicate Behind(o: Offering, p: Offering, cap: nat) {
    |o.queue| < cap ==> o.queue + [o.buf] <= p.queue
  }

  predicate Holding(w: World, o: Offering) {
    o.chan in w.chans && o.buf in w.chans[o.chan]
  }

  lemma BehindStanding(before: World, o: Offering, mid: World, p: Offering, after: World)
    requires Stands(before, o, mid) && Stands(mid, p, after) && o.chan == p.chan && mid.cap == after.cap
    ensures Behind(o, p, after.cap)
  {
  }

  /** The offer found everything that was queued before, and where there was room
      the buffer came behind it and is still there. */
  predicate Stands(before: World, o: Offering, after: World) {
    && o.chan in before.chans && o.chan in after.chans
    && before.chans[o.chan] <= o.queue <= after.chans[o.chan]
    && (|o.queue| < after.cap ==> o.queue + [o.buf] <= after.chans[o.chan])
  }

  function DrainCount(depth: nat): nat {
    if depth > HARD_DRAIN_THRESHOLD then depth - DRAIN_THRESHOLD
    else if depth > DRAIN_THRESHOLD then 1
    else 0
  }

  class Audio {
    var w: World
    var clock: nat
    ghost var offers: seq<Offering> // the buffers this goroutine offered
    ghost var feeds: seq<Feeding> // the frames it fed
    ghost var taken: seq<Taking> // the rings it looked into
    ghost var received: seq<Buf> // the buffers it received
    ghost var pcmPut: seq<Buf> // the PCM buffers it put back
    ghost var opusPut: seq<Buf> // the Opus buffers it put back
    const me: Id
    const noise: nat -> seq<(Id, Step)> // what the others do between two steps

    ghost function Mine(): set<Buf>
      reads this
    {
      Hand(w, me)
    }

    constructor (w: World, me: Id, noise: nat -> seq<(Id, Step)>)
      requires Valid(w)
      ensures this.w == w && this.me == me && this.noise == noise && offers == [] && feeds == []
      ensures taken == [] && received == [] && pcmPut == [] && opusPut == []
    {
      this.w, this.me, this.noise := w, me, noise;
      clock, offers, feeds := 0, [], [];
      taken, received, pcmPut, opusPut := [], [], [], [];
    }

    /** Nobody else receives from the channel. */
    ghost predicate Sole(c: Id) {
      forall n, k :: 0 <= k < |noise(n)| ==> noise(n)[k].1 != Receive(c)
    }

    /** Nobody else works on the ring. */
    ghost predicate Still(r: Id) {
      forall n, k :: 0 <= k < |noise(n)| ==> r !in Touched(noise(n)[k].1)
    }

    /** What was queued on channels that only this goroutine receives from still is. */
    ghost predicate ChansKept(a: World, b: World) {
      forall c :: c in a.chans && Sole(c) ==> c in b.chans && a.chans[c] <= b.chans[c]
    }

    /** The rings only this goroutine works on are as they were, apart from `but`. */
    ghost predicate RingsKept(a: World, b: World, but: seq<Id>) {
      forall r :: r in a.rings && Still(r) && r !in but ==> r in b.rings && b.rings[r] == a.rings[r]
    }

    ghost predicate Kept(a: World, b: World) {
      ChansKept(a, b) && RingsKept(a, b, [])
    }

    lemma KeptChan(a: World, b: World, c: Id)
      requires Kept(a, b) && c in a.chans
      ensures Sole(c) ==> c in b.chans && a.chans[c] <= b.chans[c]
    {
    }

    lemma KeptRing(a: World, b: World, r: Id)
      requires Kept(a, b) && r in a.rings
      ensures Still(r) ==> r in b.rings && b.rings[r] == a.rings[r]
    {
    }

    lemma KeptOn()
      ensures forall a, b, c :: Kept(a, b) && Kept(b, c) ==> Kept(a, c)
      ensures forall a :: Kept(a, a)
    {
    }

    lemma KeptThen(a: World, b: World, c: World, but: seq<Id>)
      requires Kept(a, b)
      ensures ChansKept(b, c) ==> ChansKept(a, c)
      ensures RingsKept(b, c, but) ==> RingsKept(a, c, but)
    {
    }

    lemma NoiseKept(start: World, a: World, b: World, n: nat, i: nat)
      requires i < |noise(n)| && Kept(start, a) && StepKept(a, noise(n)[i].1, b)
      ensures Kept(start, b)
    {
      hide Touched;
    }

    lemma OwnKept(a: World, b: World, s: Step)
      requires StepKept(a, s, b)
      ensures !s.Receive? ==> ChansKept(a, b)
      ensures RingsKept(a, b, Touched(s))
      ensures !s.Receive? && Touched(s) == [] ==> Kept(a, b)
    {
    }

    /** Every offer on a channel nobody else receives from stands, later ones
        behind earlier ones. */
    ghost predicate Standing(before: World, news: seq<Offering>, after: World) {
      && (forall i :: 0 <= i < |news| && Sole(news[i].chan) ==> Stands(before, news[i], after))
      && (forall i, j :: 0 <= i < j < |news| && news[i].chan == news[j].chan && Sole(news[i].chan) ==>
            Behind(news[i], news[j], after.cap))
    }

    lemma NoOffers(w: World)
      ensures Standing(w, [], w) && Kept(w, w)
    {
    }

    lemma StandsKept(before: World, mid: World, o: Offering, after: World, last: World)
      requires ChansKept(before, mid) && ChansKept(after, last) && after.cap == last.cap
      requires o.chan in before.chans && Sole(o.chan) && Stands(mid, o, after)
      ensures Stands(before, o, last)
    {
    }

    lemma StandingKept(before: World, mid: World, news: seq<Offering>, after: World, last: World)
      requires ChansKept(before, mid) && ChansKept(after, last) && SamePlaces(before, mid) && SamePlaces(after, last)
      requires Standing(mid, news, after)
      ensures Standing(before, news, last)
    {
      hide Audio.Sole, Audio.ChansKept;
      forall i | 0 <= i < |news| && Sole(news[i].chan)
        ensures Stands(before, news[i], last)
      {
        StandsKept(before, mid, news[i], after, last);
      }
    }

    /** More offers, after the first ones. */
    lemma StandingMore(before: World, news: seq<Offering>, mid: World, more: seq<Offering>, after: World)
      requires Standing(before, news, mid) && Kept(before, mid) && SamePlaces(before, mid)
      requires Standing(mid, more, after) && Kept(mid, after) && SamePlaces(mid, after)
      ensures Standing(before, news + more, after) && Kept(before, after)
    {
      hide Audio.Sole, Audio.ChansKept, Audio.RingsKept, Stands;
      KeptThen(before, mid, after, []);
      ChansKeptAtOnce(before);
      ChansKeptAtOnce(after);
      StandingKept(before, before, news, mid, after);
      StandingKept(before, mid, more, after, after);
      forall i, j | 0 <= i < |news| && 0 <= j < |more| && news[i].chan == more[j].chan && Sole(news[i].chan)
        ensures Behind(news[i], more[j], after.cap)
      {
        BehindStanding(before, news[i], mid, more[j], after);
      }
    }

    /** Where there was room, every destination holds a buffer of its own. */
    lemma OwnBuffers(before: World, news: seq<Offering>, after: World, i: nat, j: nat)
      requires Valid(after) && Standing(before, news, after) && i < j < |news|
      requires Sole(news[i].chan) && |news[i].queue| < after.cap && Sole(news[j].chan) && |news[j].queue| < after.cap
      ensures Holding(after, news[i]) && Holding(after, news[j]) && news[i].buf != news[j].buf
    {
      hide AtHome, RingOk;
      var (a, b) := (news[i], news[j]);
      assert Stands(before, a, after) && Stands(before, b, after);
      assert ChanOk(after.owner, after.cap, a.chan, after.chans[a.chan]);
      assert ChanOk(after.owner, after.cap, b.chan, after.chans[b.chan]);
      assert after.chans[a.chan][|a.queue|] == a.buf && after.chans[b.chan][|b.queue|] == b.buf;
      if a.chan == b.chan {
        assert Behind(a, b, after.cap) && |a.queue| < |b.queue|;
      }
    }

    lemma StillStanding(start: World, news: seq<Offering>, mid: World, after: World)
      requires Kept(start, mid) && Kept(mid, after) && SamePlaces(mid, after) && Standing(start, news, mid)
      ensures Kept(start, after) && Standing(start, news, after)
    {
      hide Audio.Standing, Audio.ChansKept, Audio.RingsKept;
      KeptThen(start, mid, after, []);
      ChansKeptAtOnce(start);
      StandingKept(start, start, news, mid, after);
    }

    lemma ChansKeptAtOnce(w: World)
      ensures ChansKept(w, w)
    {
    }

    /** Every ring nobody else works on holds what was fed to it. */
    ghost predicate Heard(before: World, news: seq<Feeding>, after: World) {
      forall r :: r in before.rings && Still(r) ==> r in after.rings && after.rings[r] == RingAfter(before.rings[r], news, r)
    }

    lemma NothingFed(w: World)
      ensures Heard(w, [], w) && RingsKept(w, w, [])
    {
    }

    lemma HeardKept(before: World, mid: World, fed: seq<Feeding>, after: World, last: World)
      requires RingsKept(before, mid, []) && RingsKept(after, last, []) && Heard(mid, fed, after)
      ensures Heard(before, fed, last)
    {
      hide Audio.Still, RingAfter;
    }

    lemma HeardMore(before: World, fed: seq<Feeding>, mid: World, r: Id, f: Frame, q: seq<Frame>, after: World)
      requires Heard(before, fed, mid) && RingsKept(mid, after, [r]) && r in mid.rings && r in after.rings
      requires after.rings[r] == (if |q| == CAP then q[1..] else q) + [f] && (Still(r) ==> q == mid.rings[r])
      ensures Heard(before, fed + [Feeding(r, f)], after)
    {
      hide Audio.Still, RingAfter;
      forall x | x in before.rings && Still(x)
        ensures x in after.rings && after.rings[x] == RingAfter(before.rings[x], fed + [Feeding(r, f)], x)
      {
        RingAfterMore(before.rings[x], fed, r, f, x);
      }
    }

    /** Whatever the other goroutines do here. */
    method Others()
      requires Valid(w)
      modifies this`w, this`clock
      ensures Valid(w) && Later(old(w), w) && Mine() == old(Mine()) && Kept(old(w), w)
    {
      hide Valid, StepKept, Audio.Kept;
      ghost var n := clock;
      var steps := noise(clock);
      clock := clock + 1;
      var i := 0;
      KeptOn();
      while i < |steps|
        invariant i <= |steps|
        invariant Valid(w) && Later(old(w), w) && Mine() == old(Mine()) && Kept(old(w), w)
      {
        var (who, s) := steps[i];
        if who != me && Legal(w, who, s) {
          ghost var before := w;
          Other(who, s);
          NoiseKept(old(w), before, w, n, i);
        }
        i := i + 1;
      }
    }

    method Other(who: Id, s: Step)
      requires Valid(w) && who != me && Legal(w, who, s)
      modifies this`w
      ensures Valid(w) && Later(old(w), w) && Mine() == old(Mine()) && StepKept(old(w), s, w)
    {
      hide Valid, Do, Later, StepKept;
      HandsAfter(w, who, s, me);
      StepIsLater(w, who, s);
      StepKeeps(w, who, s);
      w := Do(w, who, s);
    }

    /** A step of this goroutine. */
    method Act(s: Step)
      requires Valid(w) && Legal(w, me, s)
      modifies this`w
      ensures w == Do(old(w), me, s) && Valid(w) && Later(old(w), w)
      ensures Mine() == old(Mine()) - Given(s) + old(Gained(w, me, s))
      ensures RingsKept(old(w), w, Touched(s)) && (!s.Receive? ==> ChansKept(old(w), w))
      ensures !s.Receive? && Touched(s) == [] ==> Kept(old(w), w)
    {
      hide Valid, Do, Later, StepKept, Touched, Audio.Kept, Audio.ChansKept, Audio.RingsKept;
      HandsAfter(w, me, s, me);
      StepIsLater(w, me, s);
      StepKeeps(w, me, s);
      OwnKept(w, Do(w, me, s), s);
      w := Do(w, me, s);
    }

    // -------------------------------------------------------------------------
    // Pools

    method Get(kind: Kind) returns (b: Buf)
      requires Valid(w)
      modifies this`w, this`clock
      ensures Valid(w) && Later(old(w), w) && Kept(old(w), w) && Mine() == old(Mine()) + {b} && b !in old(Mine()) && b.kind == kind
    {
      hide Valid, Audio.Kept;
      KeptOn();
      Others();
      if * {
        b := Buf(w.next, kind);
        NextIsUnused(w, kind);
        Act(Allocate(kind));
      } else if exists p :: p in w.owner && w.owner[p] == Pool && p.kind == kind {
        b :| b in w.owner && w.owner[b] == Pool && b.kind == kind;
        Act(Take(b));
      } else {
        b := Buf(w.next, kind);
        NextIsUnused(w, kind);
        Act(Allocate(kind));
      }
    }

    method GetRecvFrame(len: nat) returns (b: Buf)
      requires Valid(w)
      modifies this`w, this`clock
      ensures Valid(w) && Later(old(w), w) && Kept(old(w), w) && Mine() == old(Mine()) + {b} && b !in old(Mine()) && b.kind != Pcm
    {
      hide Valid, Audio.Kept;
      KeptOn();
      if len > RECEIVED_CAP {
        b := Get(Oversize);
      } else {
        b := Get(Received);
      }
    }

    method PutPcm(b: Buf)
      requires Valid(w) && b in Mine() && b.kind == Pcm
      modifies this`w, this`clock, this`pcmPut
      ensures Valid(w) && Later(old(w), w) && Kept(old(w), w) && Mine() == old(Mine()) - {b}
      ensures pcmPut == old(pcmPut) + [b] && Owned(w.owner, b, Pool)
    {
      hide Valid, Audio.Kept;
      KeptOn();
      Others();
      Act(PutBack(b));
      pcmPut := pcmPut + [b];
    }

    method PutEncoded(b: Buf)
      requires Valid(w) && b in Mine() && b.kind != Pcm
      modifies this`w, this`clock, this`opusPut
      ensures Valid(w) && Later(old(w), w) && Kept(old(w), w) && Mine() == old(Mine()) - {b}
      ensures opusPut == old(opusPut) + [b] && Owned(w.owner, b, if b.kind == Oversize then Garbage else Pool)
    {
      hide Valid, Audio.Kept;
      KeptOn();
      Others();
      Act(PutBack(b));
      opusPut := opusPut + [b];
    }

    /** Lets a buffer go without putting it back. */
    method Leave(b: Buf)
      requires Valid(w) && b in Mine() && b.kind != Pcm
      modifies this`w, this`clock
      ensures Valid(w) && Later(old(w), w) && Kept(old(w), w) && Mine() == old(Mine()) - {b} && Owned(w.owner, b, Garbage)
    {
      hide Valid, Audio.Kept;
      KeptOn();
      Others();
      Act(Forget(b));
    }

    /** `PutEncodedFrame` ignores nil. */
    method PutOption(b: Option<Buf>)
      requires Valid(w) && (b.Some? ==> b.value in Mine() && b.value.kind != Pcm)
      modifies this`w, this`clock, this`opusPut
      ensures Valid(w) && Later(old(w), w) && Kept(old(w), w) && Mine() == old(Mine()) - if b.Some? then {b.value} else {}
      ensures opusPut == old(opusPut) + Opt(b)
    {
      hide Valid, Audio.Kept;
      KeptOn();
      if b.Some? {
        PutEncoded(b.value);
      } else {
        Others();
      }
    }

    method Read(b: Buf)
      requires Valid(w) && b in Mine()
      modifies this`w, this`clock
      ensures Valid(w) && Later(old(w), w) && Kept(old(w), w) && Mine() == old(Mine())
    {
      hide Valid, Audio.Kept;
      KeptOn();
      Others();
      Act(Use(b));
    }

    /** A pooled copy of `src`, which the caller keeps. */
    method CopyOpusFrame(src: Buf, len: nat) returns (b: Buf)
      requires Valid(w) && src in Mine()
      modifies this`w, this`clock
      ensures Valid(w) && Later(old(w), w) && Kept(old(w), w) && Mine() == old(Mine()) + {b} && b !in old(Mine()) && b.kind != Pcm
    {
      hide Valid, Audio.Kept;
      KeptOn();
      b := GetRecvFrame(len);
      Read(src);
    }

    // -------------------------------------------------------------------------
    // Channels and rings

    /** Sends without blocking; a buffer that does not fit is put back. `q` is what
        was queued at that instant. */
    method Offer(c: Id, b: Buf) returns (ghost q: seq<Buf>)
      requires Valid(w) && b in Mine() && b.kind != Pcm && c in w.chans
      modifies this`w, this`clock, this`opusPut, this`offers
      ensures Valid(w) && Later(old(w), w) && Kept(old(w), w) && Mine() == old(Mine()) - {b}
      ensures offers == old(offers) + [Offering(c, b, q)] && (Sole(c) ==> old(w.chans[c]) <= q)
      ensures c in w.chans && |q| <= w.cap
      ensures |q| < w.cap ==> w.chans[c] == q + [b] && opusPut == old(opusPut)
      ensures |q| == w.cap ==> (Sole(c) ==> w.chans[c] == q) && opusPut == old(opusPut) + [b]
    {
      hide Valid, Audio.Kept, Audio.Sole, Do;
      KeptOn();
      LaterKeepsChannel(c);
      ghost var start := w;
      Others();
      KeptChan(start, w, c);
      q := w.chans[c];
      offers := offers + [Offering(c, b, q)];
      WithinCap(w, c);
      if |w.chans[c]| < w.cap {
        SentQueue(w, me, c, b);
        Act(Send(c, b));
      } else {
        ghost var full := w;
        PutEncoded(b);
        WithinCap(w, c);
        KeptChan(full, w, c);
      }
    }

    /** An offer stands right after it was made. */
    lemma OfferStands(before: World, o: Offering, after: World)
      requires o.chan in before.chans && o.chan in after.chans
      requires Sole(o.chan) ==> before.chans[o.chan] <= o.queue
      requires |o.queue| < after.cap ==> after.chans[o.chan] == o.queue + [o.buf]
      requires |o.queue| >= after.cap && Sole(o.chan) ==> after.chans[o.chan] == o.queue
      ensures Standing(before, [o], after)
    {
    }

    /** Receives without blocking; `q` is what was queued at that instant. */
    method TryReceive(c: Id) returns (b: Option<Buf>, ghost q: seq<Buf>)
      requires Valid(w) && c in w.chans
      modifies this`w, this`clock, this`received
      ensures Valid(w) && Later(old(w), w) && RingsKept(old(w), w, [])
      ensures Mine() == old(Mine()) + if b.Some? then {b.value} else {}
      ensures b.Some? ==> b.value !in old(Mine()) && b.value.kind != Pcm
      ensures b == Head(q) && received == old(received) + Opt(b)
      ensures c in w.chans && w.chans[c] == Tail(q) && (Sole(c) ==> old(w.chans[c]) <= q)
    {
      hide Valid, Do, Audio.Kept, Audio.RingsKept, Audio.Sole;
      LaterKeepsChannel(c);
      ghost var start := w;
      Others();
      KeptChan(start, w, c);
      q := w.chans[c];
      assert RingsKept(start, w, []) by { KeptParts(start, w, []); }
      if w.chans[c] == [] {
        return None, q;
      }
      b := Some(w.chans[c][0]);
      HeadQueued(w, c);
      HeadIsOpus(w, c);
      ReceivedQueue(w, me, c);
      received := received + [b.value];
      ghost var found := w;
      Act(Receive(c));
      KeptThen(start, found, w, []);
    }

    lemma KeptParts(a: World, b: World, but: seq<Id>)
      requires Kept(a, b)
      ensures ChansKept(a, b) && RingsKept(a, b, but)
    {
    }

    method Depth(c: Id) returns (depth: nat)
      requires Valid(w) && c in w.chans
      modifies this`w, this`clock
      ensures Valid(w) && Later(old(w), w) && Mine() == old(Mine()) && depth <= w.cap
      ensures c in w.chans && depth == |w.chans[c]| && Kept(old(w), w)
    {
      hide Valid;
      Others();
      depth := |w.chans[c]|;
      WithinCap(w, c);
    }

    /** Puts a frame in a ring, the oldest going out of a full one; `q` is what the
        ring held. */
    method Feed(r: Id, f: Frame) returns (ghost q: seq<Frame>)
      requires Valid(w) && FrameOk(f) && f.pcm.value in Mine() && f.opus.value in Mine() && r in w.rings
      modifies this`w, this`clock, this`feeds
      ensures Valid(w) && Later(old(w), w) && ChansKept(old(w), w) && RingsKept(old(w), w, [r])
      ensures Mine() == old(Mine()) - {f.pcm.value, f.opus.value}
      ensures feeds == old(feeds) + [Feeding(r, f)]
      ensures r in w.rings && w.rings[r] == (if |q| == CAP then q[1..] else q) + [f]
      ensures Still(r) ==> q == old(w.rings[r])
    {
      hide Valid, Do, Audio.Kept, Audio.ChansKept, Audio.RingsKept, Audio.Still;
      ghost var start := w;
      Others();
      KeptRing(start, w, r);
      q := w.rings[r];
      feeds := feeds + [Feeding(r, f)];
      FedQueue(w, me, r, f);
      ghost var found := w;
      Act(FeedRing(r, f));
      KeptThen(start, found, w, [r]);
    }

    /** Takes the head of a ring; `q` is the queue found there. */
    method Pull(r: Id) returns (f: Option<Frame>, ghost q: seq<Frame>)
      requires Valid(w) && r in w.rings
      modifies this`w, this`clock, this`taken
      ensures Valid(w) && Later(old(w), w) && ChansKept(old(w), w) && RingsKept(old(w), w, [r])
      ensures f.Some? ==> FrameOk(f.value) && f.value.pcm.value !in old(Mine()) && f.value.opus.value !in old(Mine())
      ensures Mine() == old(Mine()) + if f.Some? then {f.value.pcm.value, f.value.opus.value} else {}
      ensures f == Head(q) && taken == old(taken) + [Taking(r, q, false)]
      ensures r in w.rings && w.rings[r] == Tail(q) && (Still(r) ==> q == old(w.rings[r]))
    {
      hide Valid, Do, Audio.Kept, Audio.ChansKept, Audio.RingsKept, Audio.Still;
      ghost var start := w;
      Others();
      KeptRing(start, w, r);
      q := w.rings[r];
      taken := taken + [Taking(r, q, false)];
      KeptParts(start, w, [r]);
      if w.rings[r] == [] {
        return None, q;
      }
      f := Some(w.rings[r][0]);
      HeadSlotted(w, r);
      PulledQueue(w, me, r);
      ghost var found := w;
      Act(PullRing(r));
      KeptThen(start, found, w, [r]);
    }

    /** Empties a ring, putting back what was queued there. */
    method Drain(r: Id) returns (ghost q: seq<Frame>)
      requires Valid(w) && r in w.rings
      modifies this`w, this`clock, this`taken, this`pcmPut, this`opusPut
      ensures Valid(w) && Later(old(w), w) && ChansKept(old(w), w) && RingsKept(old(w), w, [r]) && Mine() == old(Mine())
      ensures taken == old(taken) + [Taking(r, q, true)] && r in w.rings && w.rings[r] == []
      ensures pcmPut == old(pcmPut) + PcmOf(q) && opusPut == old(opusPut) + OpusOf(q)
      ensures Still(r) ==> q == old(w.rings[r])
    {
      hide Valid, Do, Audio.Kept, Audio.ChansKept, Audio.RingsKept, Audio.Still;
      ghost var start := w;
      Others();
      KeptRing(start, w, r);
      q := w.rings[r];
      taken := taken + [Taking(r, q, true)];
      DrainRingIsDrained(w, me, r);
      DrainedQueues(w, r);
      ghost var found := w;
      Act(DrainRing(r));
      KeptThen(start, found, w, [r]);
      pcmPut, opusPut := pcmPut + PcmOf(q), opusPut + OpusOf(q);
    }

    // -------------------------------------------------------------------------
    // Sinks

    /** One more buffer for one more channel. */
    method OfferMore(c: Id, b: Buf, ghost start: World, ghost log: seq<Offering>, ghost put: seq<Buf>, ghost news: seq<Offering>)
      returns (ghost more: seq<Offering>)
      requires Valid(w) && b in Mine() && b.kind != Pcm && c in w.chans
      requires Later(start, w) && Kept(start, w) && Standing(start, news, w)
      requires offers == log + news && opusPut == put + Refused(news, w.cap)
      modifies this`w, this`clock, this`opusPut, this`offers
      ensures Valid(w) && Mine() == old(Mine()) - {b}
      ensures Later(old(w), w) && Later(start, w) && Kept(start, w) && Standing(start, more, w)
      ensures offers == log + more && opusPut == put + Refused(more, w.cap)
      ensures |more| == |news| + 1 && more[..|news|] == news && more[|news|].chan == c && more[|news|].buf == b
    {
      hide Valid, Hand, Audio.Kept, Audio.Standing, Audio.Sole, Refused;
      ghost var before := w;
      ghost var q := Offer(c, b);
      ghost var o := Offering(c, b, q);
      OfferStands(before, o, w);
      more := news + [o];
      StandingMore(start, news, before, [o], w);
      RefusedMore(news, o, w.cap);
    }

    /** A channel mixer's sink: every destination is offered its own buffer, the
        last one `pkt` itself. */
    method ToSpeakers(outs: seq<Id>, pkt: Buf, len: nat) returns (ghost news: seq<Offering>)
      requires Valid(w) && pkt in Mine() && pkt.kind != Pcm && Known(w, outs)
      modifies this`w, this`clock, this`opusPut, this`offers
      ensures Valid(w) && Later(old(w), w) && Kept(old(w), w) && Mine() == old(Mine()) - {pkt}
      ensures offers == old(offers) + news && Offered(news, outs) && Standing(old(w), news, w)
      ensures if outs == [] then opusPut == old(opusPut) + [pkt]
              else opusPut == old(opusPut) + Refused(news, w.cap) && news[|outs| - 1].buf == pkt
    {
      hide Valid, Hand, Audio.Kept, Audio.Standing, Refused;
      news := [];
      NoOffers(w);
      NoneRefused(w.cap);
      if |outs| == 0 {
        ghost var start := w;
        PutEncoded(pkt);
        StillStanding(start, [], start, w);
        return;
      }
      var i := 0;
      while i < |outs| - 1
        invariant i <= |outs| - 1
        invariant Valid(w) && Later(old(w), w) && Kept(old(w), w) && Mine() == old(Mine())
        invariant offers == old(offers) + news && Offered(news, outs[..i]) && Standing(old(w), news, w)
        invariant opusPut == old(opusPut) + Refused(news, w.cap)
      {
        var buf := CopyForMore(pkt, len, old(w), news);
        news := OfferMore(outs[i], buf, old(w), old(offers), old(opusPut), news);
        i := i + 1;
      }
      news := OfferMore(outs[|outs| - 1], pkt, old(w), old(offers), old(opusPut), news);
      assert outs == outs[..|outs| - 1] + [outs[|outs| - 1]];
    }

    /** A copy made between two offers. */
    method CopyForMore(src: Buf, len: nat, ghost start: World, ghost news: seq<Offering>) returns (b: Buf)
      requires Valid(w) && src in Mine() && Later(start, w) && Kept(start, w) && Standing(start, news, w)
      modifies this`w, this`clock
      ensures Valid(w) && Mine() == old(Mine()) + {b} && b !in old(Mine()) && b.kind != Pcm
      ensures Later(old(w), w) && Later(start, w) && Kept(start, w) && Standing(start, news, w)
    {
      hide Valid, Hand, Audio.Kept, Audio.Standing;
      ghost var before := w;
      b := CopyOpusFrame(src, len);
      StillStanding(start, news, before, w);
    }

    /** A session broadcast: every channel of every other guild is offered its own
        copy, and `pkt` goes back. `order` is the order the guilds came up in. */
    method Broadcast(guilds: map<Id, seq<Id>>, exclude: Id, pkt: Buf, len: nat) returns (order: seq<Id>, ghost news: seq<Offering>)
      requires Valid(w) && pkt in Mine() && pkt.kind != Pcm && SinkKnown(w, Guilds(guilds, exclude))
      modifies this`w, this`clock, this`opusPut, this`offers
      ensures Valid(w) && Later(old(w), w) && Kept(old(w), w) && Mine() == old(Mine()) - {pkt}
      ensures EachOnce(order, guilds.Keys)
      ensures offers == old(offers) + news && Offered(news, AllOuts(guilds, exclude, order)) && Standing(old(w), news, w)
      ensures opusPut == old(opusPut) + Refused(news, w.cap) + [pkt]
    {
      hide Valid, Hand, EachOnce, AllOuts, Audio.Kept, Audio.Standing, Refused, Offered;
      order := AnyOrder(guilds.Keys);
      EachIsIn(order, guilds.Keys);
      NoneYet(guilds, exclude);
      news := [];
      NoOffers(w);
      NoneRefused(w.cap);
      assert Offered(news, AllOuts(guilds, exclude, [])) by { OfferedNone(); }
      var i := 0;
      while i < |order|
        invariant i <= |order|
        invariant Valid(w) && Later(old(w), w) && Kept(old(w), w) && Mine() == old(Mine())
        invariant offers == old(offers) + news && Standing(old(w), news, w)
        invariant Offered(news, AllOuts(guilds, exclude, order[..i]))
        invariant opusPut == old(opusPut) + Refused(news, w.cap)
      {
        OneMore(guilds, exclude, order, i);
        if order[i] != exclude {
          assert Known(old(w), guilds[order[i]]);
          ghost var mid := w;
          ghost var more := ToGuild(guilds[order[i]], pkt, len);
          StandingMore(old(w), news, mid, more, w);
          RefusedBoth(news, more, w.cap);
          OfferedBoth(news, AllOuts(guilds, exclude, order[..i]), more, guilds[order[i]]);
          news := news + more;
        } else {
          assert AllOuts(guilds, exclude, order[..i + 1]) == AllOuts(guilds, exclude, order[..i]);
        }
        i := i + 1;
      }
      assert order[..|order|] == order;
      ghost var mid := w;
      PutEncoded(pkt);
      StillStanding(old(w), news, mid, w);
    }

    method ToGuild(chs: seq<Id>, pkt: Buf, len: nat) returns (ghost news: seq<Offering>)
      requires Valid(w) && pkt in Mine() && Known(w, chs)
      modifies this`w, this`clock, this`opusPut, this`offers
      ensures Valid(w) && Later(old(w), w) && Kept(old(w), w) && Mine() == old(Mine())
      ensures offers == old(offers) + news && Offered(news, chs) && Standing(old(w), news, w)
      ensures opusPut == old(opusPut) + Refused(news, w.cap)
    {
      hide Valid, Hand, Audio.Kept, Audio.Standing, Refused;
      news := [];
      NoOffers(w);
      NoneRefused(w.cap);
      var i := 0;
      while i < |chs|
        invariant i <= |chs|
        invariant Valid(w) && Later(old(w), w) && Kept(old(w), w) && Mine() == old(Mine())
        invariant offers == old(offers) + news && Offered(news, chs[..i]) && Standing(old(w), news, w)
        invariant opusPut == old(opusPut) + Refused(news, w.cap)
      {
        var buf := CopyForMore(pkt, len, old(w), news);
        news := OfferMore(chs[i], buf, old(w), old(offers), old(opusPut), news);
        i := i + 1;
      }
      assert chs[..|chs|] == chs;
    }

    /** `order` is the order a broadcast took the guilds in. */
    method Emit(sink: Sink, pkt: Buf, len: nat) returns (order: seq<Id>, ghost news: seq<Offering>)
      requires Valid(w) && pkt in Mine() && pkt.kind != Pcm && SinkKnown(w, sink)
      modifies this`w, this`clock, this`opusPut, this`offers
      ensures Valid(w) && Later(old(w), w) && Kept(old(w), w) && Mine() == old(Mine()) - {pkt}
      ensures OrderOk(sink, order) && offers == old(offers) + news && Offered(news, Outs(sink, order)) && Standing(old(w), news, w)
      ensures opusPut == old(opusPut) + PutBySink(sink, news, pkt, w.cap) && LastIsPacket(sink, news, pkt)
      ensures sink == NoSink ==> opusPut == old(opusPut) + [pkt]
    {
      hide Valid, Hand, EachOnce, AllOuts, Audio.Kept, Audio.Standing, Refused;
      order, news := [], [];
      NoneRefused(w.cap);
      ghost var start := w;
      match sink {
        case NoSink =>
          PutEncoded(pkt);
          NoOffers(start);
          StillStanding(start, [], start, w);
        case Speakers(outs) =>
          news := ToSpeakers(outs, pkt, len);
          assert outs == [] ==> news == [];
        case Guilds(guilds, exclude) =>
          order, news := Broadcast(guilds, exclude, pkt, len);
      }
    }

    // -------------------------------------------------------------------------
    // Receive

    /** One packet from Discord, which stays the library's: every raw target, the
        relay and every ring gets its own copies. `decoded` is the number of
        samples, or none when the packet does not decode; `done` tells that the
        receiver closes before or during the call. */
    method DispatchFanout(install: Install, hasDecoder: bool, decoded: Option<nat>, len: nat, done: bool)
      returns (closing: bool, order: seq<Id>, ghost news: seq<Offering>, ghost fed: seq<Feeding>)
      requires Valid(w) && Known(w, install.opusTargets) && SinkKnown(w, install.callback)
      requires forall r :: r in install.sources ==> r in w.rings
      modifies this`w, this`clock, this`opusPut, this`offers, this`feeds
      ensures Valid(w) && Later(old(w), w) && Mine() == old(Mine()) && (closing ==> done)
      ensures offers == old(offers) + news && Standing(old(w), news, w)
      ensures feeds == old(feeds) + fed && Heard(old(w), fed, w)
      ensures closing ==> fed == [] && |news| < |install.opusTargets| && Offered(news, install.opusTargets[..|news|])
      ensures !closing ==> OrderOk(install.callback, order)
                           && Offered(news, install.opusTargets + Outs(install.callback, order))
                           && if hasDecoder && decoded.Some? then FedTo(fed, install.sources, decoded.value) else fed == []
    {
      hide Valid, Hand, OrderOk, Audio.ChansKept, Audio.RingsKept, Audio.Standing, Audio.Heard, Refused, Offered, FedTo;
      order, fed := [], [];
      ghost var start := w;
      NothingFed(w);
      closing, news := ToTargets(install.opusTargets, len, done);
      ghost var mid := w;
      HeardKept(start, start, [], start, w);
      if closing {
        return;
      }
      ghost var more;
      order, more := ToCallback(install.callback, len);
      StandingMore(start, news, mid, more, w);
      OfferedBoth(news, install.opusTargets, more, Outs(install.callback, order));
      news := news + more;
      KeptThen(start, mid, w, []);
      HeardKept(start, start, [], start, w);
      if |install.sources| == 0 || !hasDecoder || decoded == None {
        FedNone(install.sources, decoded);
        return;
      }
      ghost var last := w;
      fed := FeedAll(install.sources, decoded.value, len);
      FedKept(start, last, news, fed, w);
    }

    lemma FedKept(start: World, mid: World, news: seq<Offering>, fed: seq<Feeding>, after: World)
      requires Kept(start, mid) && ChansKept(mid, after) && SamePlaces(start, mid) && SamePlaces(mid, after)
      requires Standing(start, news, mid) && Heard(mid, fed, after)
      ensures Standing(start, news, after) && Heard(start, fed, after)
    {
      hide Audio.Standing, Audio.Heard, Audio.ChansKept, Audio.RingsKept;
      ChansKeptAtOnce(start);
      StandingKept(start, start, news, mid, after);
      NothingFed(after);
      HeardKept(start, mid, fed, after, after);
    }

    /** The relay's copy, if there is a relay. */
    method ToCallback(callback: Sink, len: nat) returns (order: seq<Id>, ghost news: seq<Offering>)
      requires Valid(w) && SinkKnown(w, callback)
      modifies this`w, this`clock, this`opusPut, this`offers
      ensures Valid(w) && Later(old(w), w) && Kept(old(w), w) && Mine() == old(Mine())
      ensures OrderOk(callback, order) && offers == old(offers) + news && Offered(news, Outs(callback, order))
      ensures Standing(old(w), news, w)
    {
      hide Valid, Hand, OrderOk, Audio.Kept, Audio.Standing, Outs;
      order, news := [], [];
      ghost var start := w;
      if callback == NoSink {
        NoOrder(callback);
        NoOffers(w);
        assert Outs(callback, order) == [] by { NoOuts(callback, order); }
        return;
      }
      var buf := GetRecvFrame(len);
      ghost var mid := w;
      order, news := Emit(callback, buf, len);
      KeptOn();
      KeptParts(start, mid, []);
      ChansKeptAtOnce(w);
      StandingKept(start, mid, news, w, w);
    }

    /** Stops early when the receiver closes while a send is up. */
    method ToTargets(targets: seq<Id>, len: nat, done: bool) returns (closing: bool, ghost news: seq<Offering>)
      requires Valid(w) && Known(w, targets)
      modifies this`w, this`clock, this`opusPut, this`offers
      ensures Valid(w) && Later(old(w), w) && Kept(old(w), w) && Mine() == old(Mine()) && (closing ==> done)
      ensures offers == old(offers) + news && Standing(old(w), news, w)
      ensures if closing then |news| < |targets| && Offered(news, targets[..|news|]) else Offered(news, targets)
      ensures !closing ==> opusPut == old(opusPut) + Refused(news, w.cap)
    {
      hide Valid, Hand, Audio.Kept, Audio.Standing, Refused;
      news := [];
      NoOffers(w);
      NoneRefused(w.cap);
      var i := 0;
      while i < |targets|
        invariant i <= |targets|
        invariant Valid(w) && Later(old(w), w) && Kept(old(w), w) && Mine() == old(Mine())
        invariant offers == old(offers) + news && Offered(news, targets[..i]) && Standing(old(w), news, w)
        invariant opusPut == old(opusPut) + Refused(news, w.cap)
      {
        var buf := PacketForMore(len, old(w), news);
        var now: bool := *;
        if done && now {
          ghost var mid := w;
          PutEncoded(buf);
          StillStanding(old(w), news, mid, w);
          return true, news;
        }
        news := OfferMore(targets[i], buf, old(w), old(offers), old(opusPut), news);
        i := i + 1;
      }
      assert targets[..|targets|] == targets;
      return false, news;
    }

    /** A buffer for the library's packet, taken between two offers. */
    method PacketForMore(len: nat, ghost start: World, ghost news: seq<Offering>) returns (b: Buf)
      requires Valid(w) && Later(start, w) && Kept(start, w) && Standing(start, news, w)
      modifies this`w, this`clock
      ensures Valid(w) && Mine() == old(Mine()) + {b} && b !in old(Mine()) && b.kind != Pcm
      ensures Later(old(w), w) && Later(start, w) && Kept(start, w) && Standing(start, news, w)
    {
      hide Valid, Hand, Audio.Kept, Audio.Standing;
      ghost var before := w;
      b := GetRecvFrame(len);
      StillStanding(start, news, before, w);
    }

    method FeedAll(sources: seq<Id>, samples: nat, len: nat) returns (ghost fed: seq<Feeding>)
      requires Valid(w) && forall r :: r in sources ==> r in w.rings
      modifies this`w, this`clock, this`feeds
      ensures Valid(w) && Later(old(w), w) && ChansKept(old(w), w) && Mine() == old(Mine())
      ensures feeds == old(feeds) + fed && FedTo(fed, sources, samples) && Heard(old(w), fed, w)
    {
      hide Valid, Hand, Audio.ChansKept, Audio.RingsKept, Audio.Heard;
      fed := [];
      NothingFed(w);
      ChansKeptAtOnce(w);
      var i := 0;
      while i < |sources|
        invariant i <= |sources|
        invariant Valid(w) && Later(old(w), w) && ChansKept(old(w), w) && Mine() == old(Mine())
        invariant feeds == old(feeds) + fed && FedTo(fed, sources[..i], samples) && Heard(old(w), fed, w)
      {
        ghost var before := w;
        var pcm := Get(Pcm);
        ghost var mid := w;
        var opusCopy := GetRecvFrame(len);
        StillHeard(old(w), fed, before, mid, w);
        fed := FeedMore(sources[i], Frame(Some(pcm), samples, Some(opusCopy)), old(w), old(feeds), fed);
        i := i + 1;
      }
      assert sources[..|sources|] == sources;
    }

    lemma StillHeard(start: World, fed: seq<Feeding>, before: World, mid: World, after: World)
      requires ChansKept(start, before) && Heard(start, fed, before) && Kept(before, mid) && Kept(mid, after)
      ensures ChansKept(start, after) && Heard(start, fed, after)
    {
      hide Audio.Heard;
      NothingFed(start);
      KeptThen(before, mid, after, []);
      HeardKept(start, start, fed, before, after);
    }

    /** One more frame for one more ring. */
    method FeedMore(r: Id, f: Frame, ghost start: World, ghost log: seq<Feeding>, ghost fed: seq<Feeding>)
      returns (ghost more: seq<Feeding>)
      requires Valid(w) && FrameOk(f) && f.pcm.value in Mine() && f.opus.value in Mine() && r in w.rings
      requires Later(start, w) && ChansKept(start, w) && Heard(start, fed, w) && feeds == log + fed
      modifies this`w, this`clock, this`feeds
      ensures Valid(w) && Mine() == old(Mine()) - {f.pcm.value, f.opus.value}
      ensures Later(old(w), w) && Later(start, w) && ChansKept(start, w) && Heard(start, more, w) && feeds == log + more
      ensures more == fed + [Feeding(r, f)]
    {
      hide Valid, Hand, Audio.Heard, Audio.RingsKept, Audio.Still;
      ghost var before := w;
      ghost var q := Feed(r, f);
      HeardMore(start, fed, before, r, f, q, w);
      more := fed + [Feeding(r, f)];
    }

    /** One packet of the relay bridge. */
    method BridgePacket(input: Id, sources: seq<Id>, decoded: Option<nat>, len: nat)
      returns (got: bool, ghost q: seq<Buf>, ghost fed: seq<Feeding>)
      requires Valid(w) && input in w.chans && forall r :: r in sources ==> r in w.rings
      modifies this`w, this`clock, this`opusPut, this`received, this`feeds
      ensures Valid(w) && Later(old(w), w) && Mine() == old(Mine())
      ensures feeds == old(feeds) + fed && Heard(old(w), fed, w)
      ensures if got && len > 0 && decoded.Some? then FedTo(fed, sources, decoded.value) else fed == []
      ensures (got <==> q != []) && received == old(received) + Opt(Head(q)) && opusPut == old(opusPut) + Opt(Head(q))
      ensures Sole(input) ==> old(w.chans[input]) <= q
    {
      hide Valid, Hand, Audio.ChansKept, Audio.RingsKept, Audio.Heard, FedTo;
      ghost var start := w;
      fed := [];
      NothingFed(w);
      var pkt;
      pkt, q := TryReceive(input);
      HeardKept(start, start, [], start, w);
      got := pkt.Some?;
      if !got {
        return;
      }
      ghost var mid := w;
      if len > 0 && decoded.Some? {
        fed := FeedCopies(sources, decoded.value, pkt.value, len);
        NothingFed(w);
        HeardKept(start, mid, fed, w, w);
      }
      ghost var last := w;
      PutEncoded(pkt.value);
      NothingFed(start);
      HeardKept(start, start, fed, last, w);
    }

    /** Every ring gets its own copies of a packet in hand. */
    method FeedCopies(sources: seq<Id>, samples: nat, pkt: Buf, len: nat) returns (ghost fed: seq<Feeding>)
      requires Valid(w) && pkt in Mine() && forall r :: r in sources ==> r in w.rings
      modifies this`w, this`clock, this`feeds
      ensures Valid(w) && Later(old(w), w) && Mine() == old(Mine())
      ensures feeds == old(feeds) + fed && FedTo(fed, sources, samples) && Heard(old(w), fed, w)
    {
      hide Valid, Hand, Audio.ChansKept, Audio.RingsKept, Audio.Heard;
      fed := [];
      NothingFed(w);
      ChansKeptAtOnce(w);
      var i := 0;
      while i < |sources|
        invariant i <= |sources|
        invariant Valid(w) && Later(old(w), w) && ChansKept(old(w), w) && Mine() == old(Mine())
        invariant feeds == old(feeds) + fed && FedTo(fed, sources[..i], samples) && Heard(old(w), fed, w)
      {
        ghost var before := w;
        var pcm := Get(Pcm);
        ghost var mid := w;
        var opusCopy := CopyOpusFrame(pkt, len);
        StillHeard(old(w), fed, before, mid, w);
        fed := FeedMore(sources[i], Frame(Some(pcm), samples, Some(opusCopy)), old(w), old(feeds), fed);
        i := i + 1;
      }
      assert sources[..|sources|] == sources;
    }

    // -------------------------------------------------------------------------
    // Tick

    /** One frame from every ring; those with samples are kept. A paused mixer
        empties the rings instead. */
    method CollectFrames(entries: seq<Id>, paused: bool) returns (frames: seq<Frame>, ghost ts: seq<Taking>)
      requires Valid(w) && forall r :: r in entries ==> r in w.rings
      modifies this`w, this`clock, this`taken, this`pcmPut, this`opusPut
      ensures Valid(w) && Later(old(w), w) && ChansKept(old(w), w) && Separate(frames)
      ensures taken == old(taken) + ts && LooksAt(ts, entries, paused) && Found(old(w), ts)
      ensures frames == Mixed(ts, paused)
      ensures pcmPut == old(pcmPut) + PcmOf(Unmixed(ts, paused))
      ensures opusPut == old(opusPut) + OpusOf(Unmixed(ts, paused))
      ensures PcmSet(frames) !! old(Mine()) && OpusSet(frames) !! old(Mine())
      ensures Mine() == old(Mine()) + PcmSet(frames) + OpusSet(frames)
    {
      hide Valid, Hand, PcmSet, OpusSet, Separate, PcmOf, OpusOf, Mixed, Unmixed, Chosen, MutedPcm, MutedOpus, Audio.Looked,
        Audio.ChansKept, Audio.RingsKept, Audio.Still;
      frames, ts := [], [];
      NoFrames();
      ghost var start := w;
      NothingLooked(w, paused);
      var i := 0;
      while i < |entries|
        invariant i <= |entries|
        invariant Valid(w) && Later(old(w), w) && Separate(frames)
        invariant taken == old(taken) + ts && Looked(old(w), ts, entries[..i], paused, w)
        invariant frames == Mixed(ts, paused)
        invariant pcmPut == old(pcmPut) + PcmOf(Unmixed(ts, paused))
        invariant opusPut == old(opusPut) + OpusOf(Unmixed(ts, paused))
        invariant PcmSet(frames) !! old(Mine()) && OpusSet(frames) !! old(Mine())
        invariant Mine() == old(Mine()) + PcmSet(frames) + OpusSet(frames)
      {
        ghost var q: seq<Frame>;
        ghost var mid := w;
        if paused {
          q := Drain(entries[i]);
        } else {
          var f;
          f, q := CollectOne(entries[i]);
          if f.Some? {
            Appended(frames, f.value, old(Mine()));
            frames := frames + [f.value];
          }
        }
        LookedMore(start, ts, entries, i, paused, mid, q, w);
        OneMoreLook(ts, Taking(entries[i], q, paused));
        ts := ts + [Taking(entries[i], q, paused)];
        i := i + 1;
      }
      assert entries[..i] == entries;
      LookedAll(start, ts, entries, paused, w);
    }

    /** Pulls one frame; one without samples is put back at once. */
    method CollectOne(r: Id) returns (f: Option<Frame>, ghost q: seq<Frame>)
      requires Valid(w) && r in w.rings
      modifies this`w, this`clock, this`taken, this`pcmPut, this`opusPut
      ensures Valid(w) && Later(old(w), w) && ChansKept(old(w), w) && RingsKept(old(w), w, [r])
      ensures f.Some? ==> FrameOk(f.value) && f.value.pcm.value !in old(Mine()) && f.value.opus.value !in old(Mine())
      ensures Mine() == old(Mine()) + if f.Some? then {f.value.pcm.value, f.value.opus.value} else {}
      ensures taken == old(taken) + [Taking(r, q, false)] && (Still(r) ==> q == old(w.rings[r]))
      ensures f == Chosen(q)
      ensures pcmPut == old(pcmPut) + MutedPcm(q)
      ensures opusPut == old(opusPut) + MutedOpus(q)
    {
      hide Valid, Hand, Audio.ChansKept, Audio.RingsKept, Audio.Still;
      ghost var start := w;
      f, q := Pull(r);
      if f.Some? && f.value.len == 0 {
        ghost var mid := w;
        PutPcm(f.value.pcm.value);
        ghost var next := w;
        PutEncoded(f.value.opus.value);
        KeptThen(mid, next, w, []);
        PulledThen(start, mid, w, r);
        f := None;
      }
    }

    lemma PulledThen(a: World, b: World, c: World, r: Id)
      requires ChansKept(a, b) && RingsKept(a, b, [r]) && Kept(b, c)
      ensures ChansKept(a, c) && RingsKept(a, c, [r])
    {
    }

    /** What a first look at a ring finds there, if nobody else works on it. */
    ghost predicate Found(before: World, ts: seq<Taking>) {
      forall i :: 0 <= i < |ts| && Still(ts[i].source) && (forall j :: 0 <= j < i ==> ts[j].source != ts[i].source) ==>
        ts[i].source in before.rings && ts[i].queue == before.rings[ts[i].source]
    }

    /** One look at each ring, nothing else of what only this goroutine works on
        being touched. */
    ghost predicate Looked(before: World, ts: seq<Taking>, rings: seq<Id>, paused: bool, after: World) {
      LooksAt(ts, rings, paused) && Found(before, ts) && RingsKept(before, after, rings) && ChansKept(before, after)
    }

    lemma NothingLooked(w: World, paused: bool)
      ensures Looked(w, [], [], paused, w)
    {
    }

    lemma LookedAll(before: World, ts: seq<Taking>, rings: seq<Id>, paused: bool, after: World)
      requires Looked(before, ts, rings, paused, after)
      ensures LooksAt(ts, rings, paused) && Found(before, ts) && ChansKept(before, after)
    {
    }

    lemma LookedMore(before: World, ts: seq<Taking>, rings: seq<Id>, i: nat, paused: bool, mid: World, q: seq<Frame>, after: World)
      requires i < |rings| && Looked(before, ts, rings[..i], paused, mid) && rings[i] in before.rings && rings[i] in mid.rings
      requires RingsKept(mid, after, [rings[i]]) && ChansKept(mid, after) && (Still(rings[i]) ==> q == mid.rings[rings[i]])
      ensures Looked(before, ts + [Taking(rings[i], q, paused)], rings[..i + 1], paused, after)
    {
      hide Audio.RingsKept, Audio.ChansKept, Audio.Still, Audio.Found;
      FoundMore(before, ts, rings[..i], mid, Taking(rings[i], q, paused), after);
      assert rings[..i + 1] == rings[..i] + [rings[i]];
    }

    lemma FoundMore(before: World, ts: seq<Taking>, looked: seq<Id>, mid: World, t: Taking, after: World)
      requires Found(before, ts) && |ts| == |looked| && forall i :: 0 <= i < |ts| ==> ts[i].source == looked[i]
      requires RingsKept(before, mid, looked) && RingsKept(mid, after, [t.source])
      requires ChansKept(before, mid) && ChansKept(mid, after)
      requires t.source in before.rings && t.source in mid.rings && (Still(t.source) ==> t.queue == mid.rings[t.source])
      ensures Found(before, ts + [t]) && RingsKept(before, after, looked + [t.source]) && ChansKept(before, after)
    {
      hide Audio.Still, Audio.Sole;
      var more := ts + [t];
      forall i | 0 <= i < |more| && Still(more[i].source) && (forall j :: 0 <= j < i ==> more[j].source != more[i].source)
        ensures more[i].source in before.rings && more[i].queue == before.rings[more[i].source]
      {
        if i < |ts| {
          forall j | 0 <= j < i ensures ts[j].source != ts[i].source {
            assert more[j] == ts[j];
          }
        } else {
          forall j | 0 <= j < |ts| ensures ts[j].source != t.source {
            assert more[j] == ts[j];
          }
          assert t.source !in looked;
        }
      }
    }

    method RecyclePcm(frames: seq<Frame>)
      requires Valid(w) && Separate(frames) && PcmSet(frames) <= Mine()
      modifies this`w, this`clock, this`pcmPut
      ensures Valid(w) && Later(old(w), w) && Kept(old(w), w) && Mine() == old(Mine()) - PcmSet(frames)
      ensures pcmPut == old(pcmPut) + PcmOf(frames)
    {
      hide Valid, Hand, Audio.Kept;
      KeptOn();
      var i := 0;
      assert frames[0..] == frames;
      while i < |frames|
        invariant i <= |frames|
        invariant Valid(w) && Later(old(w), w) && Kept(old(w), w)
        invariant PcmSet(frames[i..]) <= Mine() && Mine() == old(Mine()) - PcmSet(frames) + PcmSet(frames[i..])
        invariant pcmPut == old(pcmPut) + PcmOf(frames[..i])
      {
        PcmSplit(frames, i);
        assert frames[..i + 1][..i] == frames[..i];
        PutPcm(frames[i].pcm.value);
        i := i + 1;
      }
      assert frames[..i] == frames;
    }

    /** The Opus copies of mixed frames go out of use without being put back. */
    method LeaveOpus(frames: seq<Frame>)
      requires Valid(w) && Separate(frames) && OpusSet(frames) <= Mine()
      modifies this`w, this`clock
      ensures Valid(w) && Later(old(w), w) && Kept(old(w), w) && Mine() == old(Mine()) - OpusSet(frames)
      ensures forall b :: b in OpusSet(frames) ==> Owned(w.owner, b, Garbage)
    {
      hide Valid, Hand, Audio.Kept;
      KeptOn();
      var i := 0;
      assert frames[0..] == frames && OpusSet([]) == {};
      while i < |frames|
        invariant i <= |frames|
        invariant Valid(w) && Later(old(w), w) && Kept(old(w), w)
        invariant OpusSet(frames[i..]) <= Mine() && Mine() == old(Mine()) - OpusSet(frames) + OpusSet(frames[i..])
        invariant forall b :: b in OpusSet(frames) - OpusSet(frames[i..]) ==> Owned(w.owner, b, Garbage)
      {
        OpusSplit(frames, i);
        Leave(frames[i].opus.value);
        i := i + 1;
      }
    }

    /** Reads every frame, puts every PCM buffer back once, and encodes the mix
        into a pooled buffer unless the encoder fails (`encoded` is none). */
    method MixAndEncode(frames: seq<Frame>, encoded: Option<nat>) returns (out: Option<Buf>)
      requires Valid(w) && Separate(frames) && PcmSet(frames) <= Mine()
      modifies this`w, this`clock, this`pcmPut
      ensures pcmPut == old(pcmPut) + PcmOf(frames)
      ensures Valid(w) && Later(old(w), w) && Kept(old(w), w)
      ensures out.Some? <==> encoded.Some?
      ensures out.Some? ==> out.value !in old(Mine()) - PcmSet(frames) && out.value.kind != Pcm
      ensures Mine() == old(Mine()) - PcmSet(frames) + if out.Some? then {out.value} else {}
    {
      hide Valid, Hand, Audio.Kept;
      KeptOn();
      var i := 0;
      while i < |frames|
        invariant i <= |frames|
        invariant Valid(w) && Later(old(w), w) && Kept(old(w), w) && Mine() == old(Mine()) && pcmPut == old(pcmPut)
      {
        Read(frames[i].pcm.value);
        i := i + 1;
      }
      RecyclePcm(frames);
      if encoded == None {
        return None;
      }
      var b;
      if encoded.value > ENCODED_CAP {
        b := Get(Oversize);
      } else {
        b := Get(Encoded);
      }
      out := Some(b);
    }

    /** One tick of a mixer. It takes the head of every ring, or all of them when
        paused. Whatever happens next, each PCM buffer it took is put back exactly
        once and no other is, nothing stays in hand, and the sink is called once
        if there was something to play: with the lone frame's own packet, or with
        the mix. */
    method Tick(entries: seq<Id>, paused: bool, encoded: Option<nat>, sink: Sink, len: nat)
      returns (frames: seq<Frame>, played: Option<Buf>, order: seq<Id>, ghost ts: seq<Taking>, ghost news: seq<Offering>)
      requires Valid(w) && SinkKnown(w, sink) && forall r :: r in entries ==> r in w.rings
      modifies this`w, this`clock, this`taken, this`pcmPut, this`opusPut, this`offers
      ensures Valid(w) && Later(old(w), w) && Mine() == old(Mine())
      ensures taken == old(taken) + ts && LooksAt(ts, entries, paused) && Found(old(w), ts)
      ensures frames == Mixed(ts, paused)
      ensures pcmPut == old(pcmPut) + PcmOf(Unmixed(ts, paused)) + PcmOf(frames)
      ensures multiset(pcmPut) == multiset(old(pcmPut)) + multiset(PcmOf(Taken(ts)))
      ensures opusPut == old(opusPut) + OpusOf(Unmixed(ts, paused))
                         + if played.Some? then PutBySink(sink, news, played.value, w.cap) else []
      ensures |frames| > 1 ==> forall b :: b in OpusSet(frames) ==> Owned(w.owner, b, Garbage)
      ensures PlayedOf(frames, encoded, played)
      ensures Sent(old(w), sink, order, played, news, w) && offers == old(offers) + news
    {
      hide Valid, Hand, PcmOf, OpusOf, Mixed, Unmixed, Taken, PcmSet, Separate, SinkKnown, PutBySink,
        Audio.Found, Audio.Sent, Audio.ChansKept, Audio.RingsKept;
      order, played, news := [], None, [];
      ghost var start := w;
      frames, ts := CollectFrames(entries, paused);
      ghost var mid := w;
      NoFrames();
      AllAccounted(old(pcmPut), ts, paused);
      if paused || |frames| == 0 {
        assert frames == [];
        RecyclePcm(frames);
        NothingSent(start, sink, w);
        return;
      }
      SinkStays(old(w), w, sink);
      played, order, news := PlayFrames(frames, encoded, sink, len);
      SentSince(start, mid, sink, order, played, news, w);
    }

    /** What a sink was given arrived where there was room. */
    ghost predicate Sent(before: World, sink: Sink, order: seq<Id>, played: Option<Buf>, news: seq<Offering>, after: World) {
      if played.Some? then
        OrderOk(sink, order) && Offered(news, Outs(sink, order)) && LastIsPacket(sink, news, played.value)
        && Standing(before, news, after)
      else news == []
    }

    lemma NothingSent(before: World, sink: Sink, after: World)
      ensures Sent(before, sink, [], None, [], after)
    {
    }

    lemma SentSince(start: World, mid: World, sink: Sink, order: seq<Id>, played: Option<Buf>, news: seq<Offering>, after: World)
      requires ChansKept(start, mid) && SamePlaces(start, mid) && Sent(mid, sink, order, played, news, after)
      ensures Sent(start, sink, order, played, news, after)
    {
      hide Audio.ChansKept, Audio.Standing, OrderOk, Offered, Outs, LastIsPacket;
      ChansKeptAtOnce(after);
      if played.Some? { StandingKept(start, mid, news, after, after); }
    }

    /** A lone frame is passed on as it is, several are mixed and encoded. */
    method PlayFrames(frames: seq<Frame>, encoded: Option<nat>, sink: Sink, len: nat)
      returns (played: Option<Buf>, order: seq<Id>, ghost news: seq<Offering>)
      requires Valid(w) && SinkKnown(w, sink) && |frames| > 0 && Separate(frames)
      requires PcmSet(frames) + OpusSet(frames) <= Mine()
      modifies this`w, this`clock, this`pcmPut, this`opusPut, this`offers
      ensures Valid(w) && Later(old(w), w) && Mine() == old(Mine()) - PcmSet(frames) - OpusSet(frames)
      ensures pcmPut == old(pcmPut) + PcmOf(frames)
      ensures opusPut == old(opusPut) + if played.Some? then PutBySink(sink, news, played.value, w.cap) else []
      ensures |frames| > 1 ==> forall b :: b in OpusSet(frames) ==> Owned(w.owner, b, Garbage)
      ensures PlayedOf(frames, encoded, played)
      ensures Sent(old(w), sink, order, played, news, w) && offers == old(offers) + news
    {
      hide Valid, Hand, OrderOk, Outs, PcmOf, OpusOf, PcmSet, OpusSet, Offered, PutBySink, LastIsPacket,
        Audio.Kept, Audio.ChansKept, Audio.Standing, Audio.Sent;
      played, order, news := None, [], [];
      ghost var start := w;
      OpusIsNotPcm(frames);
      if |frames| == 1 {
        Lone(frames);
        PutPcm(frames[0].pcm.value);
        ghost var mid := w;
        played := frames[0].opus;
        order, news := Emit(sink, played.value, len);
        EmitSent(start, mid, sink, order, played, news, w);
        return;
      }
      played := MixAndEncode(frames, encoded);
      ghost var mixed := w;
      LeaveOpus(frames);
      ghost var mid := w;
      KeptOn();
      if played.Some? {
        order, news := Emit(sink, played.value, len);
        EmitSent(start, mid, sink, order, played, news, w);
      } else {
        NothingSent(start, sink, w);
      }
    }

    lemma EmitSent(start: World, mid: World, sink: Sink, order: seq<Id>, played: Option<Buf>, news: seq<Offering>, after: World)
      requires played.Some? && OrderOk(sink, order) && Offered(news, Outs(sink, order)) && LastIsPacket(sink, news, played.value)
      requires Kept(start, mid) && SamePlaces(start, mid) && Standing(mid, news, after)
      ensures Sent(start, sink, order, played, news, after)
    {
      hide Audio.ChansKept, Audio.RingsKept, Audio.Standing, OrderOk, Offered, Outs, LastIsPacket;
      SentSince(start, mid, sink, order, played, news, after);
    }
  }

  /** What a tick plays: the lone frame's packet, or a mix unless the encoder fails. */
  predicate PlayedOf(frames: seq<Frame>, encoded: Option<nat>, played: Option<Buf>) {
    && (|frames| == 0 ==> played == None)
    && (|frames| == 1 ==> played == frames[0].opus && played.Some?)
    && (|frames| > 1 ==> (played.Some? <==> encoded.Some?))
  }

  lemma SinkStays(w: World, t: World, sink: Sink)
    requires Later(w, t) && SinkKnown(w, sink)
    ensures SinkKnown(t, sink)
  {
  }

  /** Whatever was mixed and whatever was not, each PCM buffer taken counts once. */
  lemma {:induction false} AllAccounted(before: seq<Buf>, ts: seq<Taking>, paused: bool)
    ensures multiset(before + PcmOf(Unmixed(ts, paused)) + PcmOf(Mixed(ts, paused)))
            == multiset(before) + multiset(PcmOf(Taken(ts)))
  {
    hide PcmOf, Silent, Playable, Taken;
    NoBufs();
    if !paused { MixedOrNot(Taken(ts)); }
  }

  /** One look at each ring, in order. */
  predicate LooksAt(ts: seq<Taking>, entries: seq<Id>, all: bool) {
    |ts| == |entries| && forall i :: 0 <= i < |ts| ==> ts[i].source == entries[i] && ts[i].all == all
  }

  function OneSet(b: Option<Buf>): set<Buf> {
    if b.Some? then {b.value} else {}
  }

  class VoiceProvider {
    const audio: Audio
    const ch: Id
    var prev: Option<Buf> // the frame the library is still sending

    constructor (audio: Audio, ch: Id)
      ensures this.audio == audio && this.ch == ch && prev == None
    {
      this.audio, this.ch, prev := audio, ch, None;
    }

    /** Puts the previous frame back, once, and hands out the next; none when the
        provider is closed, or closes while waiting (`closing`). Of the frames received all
        but the last go back too. `depth` is the queue length read after the first
        frame; as the only consumer the call bleeds off exactly `DrainCount(depth)`
        frames, and on a channel no longer than the threshold, none. */
    method ProvideOpusFrame(closing: bool) returns (data: Option<Buf>, dropped: nat, ghost depth: nat, ghost got: seq<Buf>)
      requires Valid(audio.w) && ch in audio.w.chans && OneSet(prev) <= audio.Mine() && (prev.Some? ==> prev.value.kind != Pcm)
      modifies this, audio`w, audio`clock, audio`opusPut, audio`received
      ensures Valid(audio.w) && Later(old(audio.w), audio.w) && (prev.Some? ==> prev.value.kind != Pcm)
      ensures data == prev && audio.Mine() == old(audio.Mine()) - OneSet(old(prev)) + OneSet(prev)
      ensures audio.received == old(audio.received) + got
      ensures if got == [] then data == None && audio.opusPut == old(audio.opusPut) + Opt(old(prev)) && dropped == 0
              else data == Some(got[|got| - 1]) && dropped == |got| - 1
                   && audio.opusPut == old(audio.opusPut) + Opt(old(prev)) + got[..|got| - 1]
      ensures depth <= audio.w.cap && dropped <= DrainCount(depth)
      ensures audio.Sole(ch) && data.Some? ==> dropped == DrainCount(depth) && depth + 1 >= |old(audio.w.chans[ch])|
      ensures audio.w.cap <= AUDIO_CHAN_BUF ==> dropped == 0
      ensures audio.Sole(ch) && old(audio.w.chans[ch]) != [] && !closing ==> data.Some?
      ensures audio.Sole(ch) && data.Some? && depth > HARD_DRAIN_THRESHOLD ==> depth - dropped == DRAIN_THRESHOLD
      ensures audio.Sole(ch) && data.Some? && DRAIN_THRESHOLD < depth <= HARD_DRAIN_THRESHOLD ==> dropped == 1
    {
      hide Valid, Hand, Later, Audio.Sole, Audio.Kept, Audio.RingsKept;
      dropped, depth, got := 0, 0, [];
      ghost var w0, put0, received0 := audio.w, audio.opusPut, audio.received;
      LaterKeepsChannel(ch);
      audio.PutOption(prev);
      audio.KeptChan(w0, audio.w, ch);
      prev := None;
      var now: bool := *;
      if closing && now {
        return None, 0, 0, [];
      }
      ghost var w1 := audio.w;
      ghost var q;
      data, q := audio.TryReceive(ch);
      ghost var w2 := audio.w;
      LaterTwice(w0, w1, w2);
      if data == None {
        return;
      }
      data, dropped, depth, got := BleedOff(data.value);
      LaterTwice(w0, w2, audio.w);
      assert audio.received == received0 + got by { assert got == [got[0]] + got[1..]; }
      prev := data;
    }

    method BleedOff(data: Buf) returns (last: Option<Buf>, dropped: nat, ghost depth: nat, ghost got: seq<Buf>)
      requires Valid(audio.w) && ch in audio.w.chans && data in audio.Mine() && data.kind != Pcm
      modifies audio`w, audio`clock, audio`opusPut, audio`received
      ensures Valid(audio.w) && Later(old(audio.w), audio.w)
      ensures |got| == dropped + 1 && got[0] == data && last == Some(got[dropped]) && last.value.kind != Pcm
      ensures audio.received == old(audio.received) + got[1..]
      ensures audio.opusPut == old(audio.opusPut) + got[..dropped]
      ensures depth <= audio.w.cap && dropped <= DrainCount(depth)
      ensures audio.Sole(ch) ==> dropped == DrainCount(depth) && depth >= |old(audio.w.chans[ch])|
      ensures audio.Mine() == old(audio.Mine()) - {data} + {last.value}
    {
      hide Valid, Hand, Later, Audio.Sole, Audio.Kept;
      last, dropped, got := Some(data), 0, [data];
      ghost var start := audio.w;
      LaterKeepsChannel(ch);
      LaterKeepsCap(start);
      var queued := audio.Depth(ch);
      ghost var mid := audio.w;
      audio.KeptChan(start, mid, ch);
      depth := queued;
      if queued > HARD_DRAIN_THRESHOLD {
        last, dropped, got := Drain(data, queued - DRAIN_THRESHOLD);
      } else if queued > DRAIN_THRESHOLD {
        last, dropped, got := Drain(data, 1);
      }
      LaterAtOnce(mid);
      LaterTwice(start, mid, audio.w);
    }

    /** Replaces `data` by a newer frame up to `drop` times. */
    method Drain(data: Buf, drop: nat) returns (last: Option<Buf>, dropped: nat, ghost got: seq<Buf>)
      requires Valid(audio.w) && ch in audio.w.chans && data in audio.Mine() && data.kind != Pcm
      modifies audio`w, audio`clock, audio`opusPut, audio`received
      ensures Valid(audio.w) && Later(old(audio.w), audio.w)
      ensures |got| == dropped + 1 && dropped <= drop && got[0] == data && last == Some(got[dropped]) && last.value.kind != Pcm
      ensures audio.received == old(audio.received) + got[1..]
      ensures audio.opusPut == old(audio.opusPut) + got[..dropped]
      ensures audio.Sole(ch) && drop <= |old(audio.w.chans[ch])| ==> dropped == drop
      ensures audio.Mine() == old(audio.Mine()) - {data} + {last.value}
    {
      hide Valid, Hand, Later, Audio.Sole, Audio.Kept, Audio.RingsKept;
      ghost var start := audio.w;
      LaterKeepsChannel(ch);
      LaterAtOnce(start);
      dropped, got := 0, [data];
      last := Some(data);
      while dropped < drop
        invariant Valid(audio.w) && Later(old(audio.w), audio.w)
        invariant |got| == dropped + 1 && dropped <= drop && got[0] == data && last == Some(got[dropped]) && last.value.kind != Pcm
        invariant last.value !in old(audio.Mine()) - {data}
        invariant audio.Mine() == old(audio.Mine()) - {data} + {last.value}
        invariant audio.received == old(audio.received) + got[1..]
        invariant audio.opusPut == old(audio.opusPut) + got[..dropped]
        invariant audio.Sole(ch) ==> |audio.w.chans[ch]| >= |old(audio.w.chans[ch])| - dropped
      {
        ghost var before := audio.w;
        var newer, q := audio.TryReceive(ch);
        LaterTwice(start, before, audio.w);
        if newer == None {
          return;
        }
        ghost var between := audio.w;
        audio.PutEncoded(last.value);
        audio.KeptChan(between, audio.w, ch);
        LaterTwice(start, between, audio.w);
        assert (got + [newer.value])[..dropped + 1] == got[..dropped] + [got[dropped]];
        assert (got + [newer.value])[1..] == got[1..] + [newer.value];
        got := got + [newer.value];
        dropped := dropped + 1;
        last := newer;
      }
    }

    /** Takes one queued frame, if there is one, and puts it back. */
    method DiscardFrame() returns (any: bool, ghost q: seq<Buf>)
      requires Valid(audio.w) && ch in audio.w.chans
      modifies audio`w, audio`clock, audio`opusPut, audio`received
      ensures Valid(audio.w) && Later(old(audio.w), audio.w) && audio.Mine() == old(audio.Mine())
      ensures any <==> q != []
      ensures audio.received == old(audio.received) + Opt(Head(q))
      ensures audio.opusPut == old(audio.opusPut) + Opt(Head(q))
      ensures audio.Sole(ch) ==> old(audio.w.chans[ch]) <= q && Tail(q) <= audio.w.chans[ch]
    {
      hide Valid, Hand, Audio.Sole, Audio.Kept, Audio.RingsKept;
      var data;
      data, q := audio.TryReceive(ch);
      if data == None {
        return false, q;
      }
      ghost var mid := audio.w;
      audio.PutEncoded(data.value);
      audio.KeptChan(mid, audio.w, ch);
      return true, q;
    }
  }

  /** The channels of the guilds in `order`, `exclude` left out. */
  function AllOuts(guilds: map<Id, seq<Id>>, exclude: Id, order: seq<Id>): seq<Id> {
    if order == [] then []
    else
      var g := order[|order| - 1];
      AllOuts(guilds, exclude, order[..|order| - 1]) + if g != exclude && g in guilds then guilds[g] else []
  }

  /** The keys of a map in the order a loop over it takes them. */
  method AnyOrder(ids: set<Id>) returns (order: seq<Id>)
    ensures EachOnce(order, ids)
  {
    order := [];
    var todo := ids;
    while todo != {}
      invariant todo <= ids && EachOnce(order, ids - todo)
      decreases |todo|
    {
      var id :| id in todo;
      assert ids - (todo - {id}) == ids - todo + {id};
      order := order + [id];
      todo := todo - {id};
    }
    assert ids - todo == ids;
  }

  lemma EachIsIn(order: seq<Id>, ids: set<Id>)
    requires EachOnce(order, ids)
    ensures forall i :: 0 <= i < |order| ==> order[i] in ids
  {
    forall i | 0 <= i < |order|
      ensures order[i] in ids
    {
      assert order[i] in multiset(order);
    }
  }

  predicate OrderOk(sink: Sink, order: seq<Id>) {
    sink.Guilds? ==> EachOnce(order, sink.guilds.Keys)
  }

  lemma NoOrder(sink: Sink)
    requires sink == NoSink
    ensures forall order :: OrderOk(sink, order)
  {
  }

  lemma NoOuts(sink: Sink, order: seq<Id>)
    requires sink == NoSink
    ensures Outs(sink, order) == []
  {
  }

  /** The channels a sink offers a packet to, each as often as it is listed. */
  function Outs(sink: Sink, order: seq<Id>): seq<Id> {
    match sink
    case NoSink => []
    case Speakers(outs) => outs
    case Guilds(guilds, exclude) => AllOuts(guilds, exclude, order)
  }

  predicate EachOnce(order: seq<Id>, ids: set<Id>) {
    multiset(order) == multiset(ids)
  }

  lemma {:induction false} NoneYet(guilds: map<Id, seq<Id>>, exclude: Id)
    ensures AllOuts(guilds, exclude, []) == []
  {
  }

  lemma {:induction false} OneMore(guilds: map<Id, seq<Id>>, exclude: Id, order: seq<Id>, i: nat)
    requires i < |order| && order[i] in guilds
    ensures AllOuts(guilds, exclude, order[..i + 1])
            == AllOuts(guilds, exclude, order[..i]) + if order[i] != exclude then guilds[order[i]] else []
  {
    assert order[..i + 1][..i] == order[..i];
  }

  /** Guild by guild, a broadcast offers a buffer for every channel of every guild
      but the excluded one: `at[i]` is where the `i`th guild begins. */
  ghost predicate EachReached(guilds: map<Id, seq<Id>>, exclude: Id, order: seq<Id>, chans: seq<Id>, at: seq<nat>) {
    && |at| == |order| + 1 && at[0] == 0 && at[|order|] == |chans|
    && (forall i: nat :: i < |order| ==> ReachedAt(guilds, exclude, order, chans, at, i))
  }

  predicate ReachedAt(guilds: map<Id, seq<Id>>, exclude: Id, order: seq<Id>, chans: seq<Id>, at: seq<nat>, i: nat)
    requires i < |order| && i + 1 < |at|
  {
    && order[i] in guilds && at[i] <= at[i + 1] <= |chans|
    && chans[at[i]..at[i + 1]] == if order[i] == exclude then [] else guilds[order[i]]
  }

  lemma {:induction false} AllOutsReach(guilds: map<Id, seq<Id>>, exclude: Id, order: seq<Id>) returns (at: seq<nat>)
    requires forall i :: 0 <= i < |order| ==> order[i] in guilds
    ensures EachReached(guilds, exclude, order, AllOuts(guilds, exclude, order), at)
  {
    if order == [] {
      at := [0];
    } else {
      var (n, g) := (|order| - 1, order[|order| - 1]);
      var front := AllOutsReach(guilds, exclude, order[..n]);
      var some := AllOuts(guilds, exclude, order[..n]);
      var more := if g == exclude then [] else guilds[g];
      assert order == order[..n] + [g] && AllOuts(guilds, exclude, order) == some + more;
      at := front + [|some + more|];
      OneMoreReached(guilds, exclude, order[..n], some, front, g, more);
    }
  }

  lemma OneMoreReached(guilds: map<Id, seq<Id>>, exclude: Id, order: seq<Id>, chans: seq<Id>, at: seq<nat>, g: Id, more: seq<Id>)
    requires EachReached(guilds, exclude, order, chans, at) && g in guilds
    requires more == if g == exclude then [] else guilds[g]
    ensures EachReached(guilds, exclude, order + [g], chans + more, at + [|chans + more|])
  {
    var (order', chans', at') := (order + [g], chans + more, at + [|chans + more|]);
    forall i: nat | i < |order'|
      ensures ReachedAt(guilds, exclude, order', chans', at', i)
    {
      if i < |order| {
        assert ReachedAt(guilds, exclude, order, chans, at, i);
        assert chans'[at'[i]..at'[i + 1]] == chans[at[i]..at[i + 1]];
      } else {
        assert chans'[|chans|..] == more;
      }
    }
  }

  /** What a sink is given is offered to all its destinations. */
  lemma {:induction false} EverybodyOffered(sink: Sink, order: seq<Id>, chans: seq<Id>) returns (at: seq<nat>)
    requires OrderOk(sink, order) && chans == Outs(sink, order)
    ensures sink.Speakers? ==> chans == sink.outs
    ensures sink.Guilds? ==> EachOnce(order, sink.guilds.Keys) && EachReached(sink.guilds, sink.exclude, order, chans, at)
  {
    hide EachOnce, AllOuts, EachReached;
    at := [];
    if sink.Guilds? {
      EachIsIn(order, sink.guilds.Keys);
      at := AllOutsReach(sink.guilds, sink.exclude, order);
    }
  }

  lemma NoFrames()
    ensures PcmSet([]) == {} && OpusSet([]) == {} && Separate([])
    ensures PcmOf([]) == [] && OpusOf([]) == [] && forall paused :: Mixed([], paused) == [] && Unmixed([], paused) == []
    ensures forall ts :: Mixed(ts, true) == []
  {
  }

  lemma Appended(frames: seq<Frame>, f: Frame, mine: set<Buf>)
    requires Separate(frames) && FrameOk(f)
    requires f.pcm.value !in mine + PcmSet(frames) + OpusSet(frames)
    requires f.opus.value !in mine + PcmSet(frames) + OpusSet(frames)
    ensures Separate(frames + [f])
    ensures PcmSet(frames + [f]) == PcmSet(frames) + {f.pcm.value}
    ensures OpusSet(frames + [f]) == OpusSet(frames) + {f.opus.value}
  {
    forall i | 0 <= i < |frames|
      ensures frames[i].pcm != f.pcm && frames[i].opus != f.opus
    {
      assert frames[i] in frames;
      assert frames[i].pcm.value in PcmSet(frames) && frames[i].opus.value in OpusSet(frames);
    }
  }

  lemma WithinCap(w: World, c: Id)
    requires Valid(w) && c in w.chans
    ensures |w.chans[c]| <= w.cap
  {
    hide AtHome, RingOk;
    assert ChanOk(w.owner, w.cap, c, w.chans[c]);
  }

  lemma HeadIsOpus(w: World, c: Id)
    requires Valid(w) && c in w.chans && w.chans[c] != []
    ensures w.chans[c][0].kind != Pcm
  {
    hide AtHome, RingOk;
    assert ChanOk(w.owner, w.cap, c, w.chans[c]);
  }

  lemma {:induction false} Lone(frames: seq<Frame>)
    requires Separate(frames) && |frames| == 1
    ensures PcmSet(frames) == {frames[0].pcm.value} && OpusSet(frames) == {frames[0].opus.value}
    ensures PcmOf(frames) == [frames[0].pcm.value]
  {
    NoBufs();
    BufsOfMore([], frames[0]);
    assert frames == [] + [frames[0]];
  }

  lemma OpusIsNotPcm(frames: seq<Frame>)
    requires Separate(frames)
    ensures PcmSet(frames) !! OpusSet(frames)
  {
  }
}
