/** Audio frames, the pooled buffers they carry, and the three-frame ring that
    feeds a mixer input: the ring is a drop-oldest queue. */
module SourceBuffer {
  /** Which pool a buffer returns to, told by its capacity. `Oversize` buffers
      were allocated past the pool sizes and return to none. */
  datatype Kind = Pcm | Received | Encoded | Oversize

  datatype Buf = Buf(id: nat, kind: Kind)

  /** At most one element: a buffer or nil. */
  datatype Option<T> = None | Some(value: T)

  /** `len` is the number of samples in `pcm`. */
  datatype Frame = Frame(pcm: Option<Buf>, len: nat, opus: Option<Buf>)

  const NO_FRAME := Frame(None, 0, None)

  const CAP: nat := 3

  function One(b: Option<Buf>): seq<Buf> {
    if b.Some? then [b.value] else []
  }

  /** The buffers a discarded frame hands back to the pools. */
  function Carried(f: Frame): seq<Buf> {
    One(f.pcm) + One(f.opus)
  }

  function AllCarried(q: seq<Frame>): seq<Buf> {
    if q == [] then [] else Carried(q[0]) + AllCarried(q[1..])
  }

  // ---------------------------------------------------------------------------
  // The queue the ring stands for

  function Oldest(q: seq<Frame>): seq<Frame> {
    if |q| == CAP then q[..1] else []
  }

  /** `q` after `f` came in. */
  function Fed(q: seq<Frame>, f: Frame): seq<Frame> {
    q[|Oldest(q)|..] + [f]
  }

  class Ring {
    const buf: array<Frame>
    var head: nat
    var n: nat
    var drops: nat // how often the overflow callback ran

    ghost predicate Valid()
      reads this, buf
    {
      buf.Length == CAP && head < CAP && n <= CAP
    }

    ghost function Queue(): (q: seq<Frame>)
      requires Valid()
      reads this, buf
      ensures |q| == n
    {
      seq(n, i requires 0 <= i < n reads this, buf requires Valid() => buf[(head + i) % CAP])
    }

    constructor ()
      ensures Valid() && fresh(buf)
      ensures Queue() == [] && drops == 0
    {
      buf := new Frame[CAP](_ => NO_FRAME);
      head, n, drops := 0, 0, 0;
    }

    /** Returns how many frames were ahead, and the buffers it put back. */
    method Feed(f: Frame) returns (ahead: nat, returned: seq<Buf>)
      requires Valid()
      modifies this, buf
      ensures Valid()
      ensures Queue() == Fed(old(Queue()), f)
      ensures ahead == |old(Queue())|
      ensures returned == AllCarried(Oldest(old(Queue())))
      ensures drops == old(drops) + |Oldest(old(Queue()))|
      ensures ahead < CAP ==> Queue() == old(Queue()) + [f] && returned == [] && drops == old(drops)
      ensures ahead == CAP ==> Queue() == old(Queue())[1..] + [f] && drops == old(drops) + 1
    {
      hide AllCarried, One;
      ahead := n;
      returned := [];
      ghost var q := Queue();
      var dropped := false;
      if n == CAP {
        assert q[..1] == [q[0]];
        OneCarried(q[0]);
        var oldest := Dequeue();
        returned := returned + One(oldest.pcm);
        returned := returned + One(oldest.opus);
        dropped := true;
      } else {
        NothingCarried();
      }
      assert Queue() == q[|Oldest(q)|..];
      Enqueue(f);
      if dropped {
        drops := drops + 1;
      }
    }

    method Enqueue(f: Frame)
      requires Valid() && n < CAP
      modifies this`n, buf
      ensures Valid() && Queue() == old(Queue()) + [f]
    {
      ghost var q := Queue();
      buf[(head + n) % CAP] := f;
      n := n + 1;
      assert Queue()[..n - 1] == q;
    }

    method Len() returns (k: nat)
      requires Valid()
      ensures k == |Queue()|
    {
      k := n;
    }

    method Pull() returns (f: Option<Frame>)
      requires Valid()
      modifies this`head, this`n
      ensures Valid()
      ensures old(Queue()) == [] ==> f == None && Queue() == []
      ensures old(Queue()) != [] ==> f == Some(old(Queue())[0]) && Queue() == old(Queue())[1..]
    {
      if n == 0 {
        return None;
      }
      var oldest := Dequeue();
      f := Some(oldest);
    }

    method Drain() returns (returned: seq<Buf>)
      requires Valid()
      modifies this`head, this`n
      ensures Valid() && Queue() == []
      ensures returned == AllCarried(old(Queue()))
    {
      hide AllCarried, One, Ring.Queue;
      returned := [];
      ghost var q, k := Queue(), 0;
      assert q[0..] == q;
      while n > 0
        invariant Valid() && k <= |q| && Queue() == q[k..]
        invariant returned + AllCarried(q[k..]) == AllCarried(q)
      {
        Unroll(q, k);
        var f := Dequeue();
        assert f == q[k];
        ghost var before := returned;
        returned := returned + One(f.pcm);
        returned := returned + One(f.opus);
        assert returned + AllCarried(q[k + 1..]) == before + (One(f.pcm) + One(f.opus) + AllCarried(q[k + 1..]));
        k := k + 1;
      }
      assert q[k..] == [];
      NothingCarried();
    }

    /** Takes the oldest frame out. */
    method Dequeue() returns (f: Frame)
      requires Valid() && n > 0
      modifies this`head, this`n
      ensures Valid() && n == old(n) - 1
      ensures f == old(Queue())[0] && Queue() == old(Queue())[1..]
    {
      f := buf[head];
      head := (head + 1) % CAP;
      n := n - 1;
    }
  }

  lemma OneCarried(f: Frame)
    ensures AllCarried([f]) == One(f.pcm) + One(f.opus)
  {
    assert [f][1..] == [];
  }

  lemma NothingCarried()
    ensures AllCarried([]) == []
  {
  }

  lemma Unroll(q: seq<Frame>, k: nat)
    requires k < |q|
    ensures AllCarried(q[k..]) == One(q[k].pcm) + One(q[k].opus) + AllCarried(q[k + 1..])
  {
    assert q[k..][1..] == q[k + 1..];
  }

  // ---------------------------------------------------------------------------
  // Every run

  datatype Op = Feed(frame: Frame) | Pull | Drain

  /** What a run has done so far. */
  datatype Log = Log(queue: seq<Frame>, fed: seq<Frame>, pulled: seq<Frame>, evicted: seq<Frame>, drained: seq<Frame>)

  function After(l: Log, op: Op): Log {
    match op
    case Feed(f) => l.(queue := Fed(l.queue, f), fed := l.fed + [f], evicted := l.evicted + Oldest(l.queue))
    case Pull => if l.queue == [] then l else l.(queue := l.queue[1..], pulled := l.pulled + l.queue[..1])
    case Drain => l.(queue := [], drained := l.drained + l.queue)
  }

  function Replay(ops: seq<Op>): Log {
    if ops == [] then Log([], [], [], [], []) else After(Replay(ops[..|ops| - 1]), ops[|ops| - 1])
  }

  datatype Fate = WasPulled | WasEvicted | WasDrained

  function Repeat(fate: Fate, k: nat): (r: seq<Fate>)
    ensures |r| == k
  {
    seq(k, _ => fate)
  }

  /** The fates a run dealt, in the order it dealt them. */
  function Fates(ops: seq<Op>): seq<Fate> {
    if ops == [] then []
    else
      var q := Replay(ops[..|ops| - 1]).queue;
      Fates(ops[..|ops| - 1]) + Dealt(q, ops[|ops| - 1])
  }

  /** The frames that met `fate`, in order. */
  function Met(frames: seq<Frame>, fates: seq<Fate>, fate: Fate): seq<Frame>
    requires |frames| == |fates|
  {
    if frames == [] then []
    else Met(frames[..|frames| - 1], fates[..|fates| - 1], fate)
         + if fates[|fates| - 1] == fate then frames[|frames| - 1..] else []
  }

  lemma {:induction false} MetAppend(frames: seq<Frame>, fates: seq<Fate>, more: seq<Frame>, given: Fate, fate: Fate)
    requires |frames| == |fates|
    ensures Met(frames + more, fates + Repeat(given, |more|), fate)
            == Met(frames, fates, fate) + if given == fate then more else []
  {
    if more == [] {
      assert frames + more == frames && fates + Repeat(given, 0) == fates;
    } else {
      var k := |more| - 1;
      MetAppend(frames, fates, more[..k], given, fate);
      assert (frames + more)[..|frames| + k] == frames + more[..k];
      assert (fates + Repeat(given, k + 1))[..|frames| + k] == fates + Repeat(given, k);
      assert (frames + more)[|frames| + k..] == more[k..] && more[..k] + more[k..] == more;
    }
  }

  /** The frames that left are exactly the first ones fed, each with one fate and
      in the order they came; what is left is the newest three at most. So the
      pulled frames are an in-order selection of the fed ones, and fed = pulled
      + evicted + drained + buffered. */
  ghost predicate DropsOldest(l: Log, fates: seq<Fate>) {
    && |l.queue| <= CAP
    && |fates| + |l.queue| == |l.fed|
    && l.queue == l.fed[|fates|..]
    && l.pulled == Met(l.fed[..|fates|], fates, WasPulled)
    && l.evicted == Met(l.fed[..|fates|], fates, WasEvicted)
    && l.drained == Met(l.fed[..|fates|], fates, WasDrained)
  }

  /** The first `k` buffered frames leave with `fate`. */
  lemma {:induction false} Leaving(l: Log, fates: seq<Fate>, k: nat, fate: Fate)
    requires DropsOldest(l, fates) && k <= |l.queue|
    ensures forall other: Fate :: Met(l.fed[..|fates| + k], fates + Repeat(fate, k), other)
                                  == Met(l.fed[..|fates|], fates, other) + if fate == other then l.queue[..k] else []
  {
    hide Met;
    var (before, gone) := (l.fed[..|fates|], l.queue[..k]);
    assert l.fed[..|fates| + k] == before + gone;
    forall other: Fate
      ensures Met(before + gone, fates + Repeat(fate, k), other) == Met(before, fates, other) + if fate == other then gone else []
    {
      MetAppend(before, fates, gone, fate, other);
    }
  }

  /** The fates one operation deals. */
  function Dealt(q: seq<Frame>, op: Op): seq<Fate> {
    match op
    case Feed(f) => Repeat(WasEvicted, |Oldest(q)|)
    case Pull => Repeat(WasPulled, if q == [] then 0 else 1)
    case Drain => Repeat(WasDrained, |q|)
  }

  lemma StepDropsOldest(l: Log, fates: seq<Fate>, op: Op)
    requires DropsOldest(l, fates)
    ensures DropsOldest(After(l, op), fates + Dealt(l.queue, op))
  {
    hide Met;
    var gone := |Dealt(l.queue, op)|;
    var fate := match op case Feed(_) => WasEvicted case Pull => WasPulled case Drain => WasDrained;
    Leaving(l, fates, gone, fate);
    var t := After(l, op);
    assert t.fed[..|fates| + gone] == l.fed[..|fates| + gone];
    assert l.queue[gone..] == l.fed[|fates| + gone..];
    match op
    case Feed(f) => assert t.queue == t.fed[|fates| + gone..];
    case Pull =>
      assert t.queue == l.queue[gone..] && t.pulled == l.pulled + l.queue[..gone];
    case Drain =>
      assert l.queue[..|l.queue|] == l.queue;
  }

  lemma {:induction false} RingDropsOldest(ops: seq<Op>)
    ensures DropsOldest(Replay(ops), Fates(ops))
  {
    if ops != [] {
      RingDropsOldest(ops[..|ops| - 1]);
      StepDropsOldest(Replay(ops[..|ops| - 1]), Fates(ops[..|ops| - 1]), ops[|ops| - 1]);
    }
  }

  /** Over every run a frame is evicted exactly when another comes in while three
      are queued, and it is the oldest; otherwise the newcomer just queues up. */
  lemma {:induction false} EvictsOnlyWhenFull(ops: seq<Op>, op: Op)
    ensures var (l, t) := (Replay(ops), Replay(ops + [op]));
            if op.Feed? && |l.queue| == CAP
            then t.evicted == l.evicted + [l.queue[0]] && t.queue == l.queue[1..] + [op.frame]
            else t.evicted == l.evicted && (op.Feed? ==> |l.queue| < CAP && t.queue == l.queue + [op.frame])
  {
    RingDropsOldest(ops);
    assert (ops + [op])[..|ops|] == ops;
  }

  /** A ring driven by any run does what the queue does, calls its overflow
      callback once per evicted frame, and puts back exactly the buffers of the
      evicted and drained frames. */
  method Drive(ops: seq<Op>) returns (pulled: seq<Frame>, returned: seq<Buf>, drops: nat)
    ensures pulled == Replay(ops).pulled
    ensures drops == |Replay(ops).evicted|
    ensures multiset(returned) == multiset(AllCarried(Replay(ops).evicted)) + multiset(AllCarried(Replay(ops).drained))
  {
    hide Follows, Performed, After;
    var ring := new Ring();
    pulled, returned := [], [];
    NothingFollows(ring.Queue());
    var i := 0;
    while i < |ops|
      invariant i <= |ops| && ring.Valid() && fresh(ring) && fresh(ring.buf)
      invariant Follows(ring.Queue(), ring.drops, pulled, returned, Replay(ops[..i]))
    {
      assert ops[..i + 1][..i] == ops[..i];
      ghost var (before, q, drops0) := (Replay(ops[..i]), ring.Queue(), ring.drops);
      var out, put := Perform(ring, ops[i]);
      StepFollows(q, drops0, pulled, returned, before, ops[i], ring.Queue(), out, put);
      pulled := pulled + out;
      returned := returned + put;
      i := i + 1;
    }
    assert ops[..|ops|] == ops;
    drops := ring.drops;
    FollowsMeans(ring.Queue(), drops, pulled, returned, Replay(ops));
  }

  method Perform(ring: Ring, op: Op) returns (out: seq<Frame>, put: seq<Buf>)
    requires ring.Valid()
    modifies ring, ring.buf
    ensures ring.Valid()
    ensures Performed(old(ring.Queue()), op, ring.Queue(), out, put)
    ensures ring.drops == old(ring.drops) + if op.Feed? then |Oldest(old(ring.Queue()))| else 0
  {
    hide Oldest, Fed, AllCarried;
    out, put := [], [];
    match op
    case Feed(f) =>
      var ahead;
      ahead, put := ring.Feed(f);
    case Pull =>
      var f := ring.Pull();
      if f.Some? {
        out := [f.value];
      }
    case Drain =>
      put := ring.Drain();
  }

  ghost predicate Performed(q: seq<Frame>, op: Op, t: seq<Frame>, out: seq<Frame>, put: seq<Buf>) {
    match op
    case Feed(f) => t == Fed(q, f) && out == [] && put == AllCarried(Oldest(q))
    case Pull => put == [] && if q == [] then t == [] && out == [] else t == q[1..] && out == [q[0]]
    case Drain => t == [] && out == [] && put == AllCarried(q)
  }

  /** A ring's state, and what it gave out, are those of the run. */
  ghost predicate Follows(q: seq<Frame>, drops: nat, pulled: seq<Frame>, returned: seq<Buf>, l: Log) {
    q == l.queue && drops == |l.evicted| && pulled == l.pulled
    && multiset(returned) == multiset(AllCarried(l.evicted)) + multiset(AllCarried(l.drained))
  }

  lemma NothingFollows(q: seq<Frame>)
    requires q == []
    ensures Follows(q, 0, [], [], Replay([]))
  {
  }

  lemma FollowsMeans(q: seq<Frame>, drops: nat, pulled: seq<Frame>, returned: seq<Buf>, l: Log)
    requires Follows(q, drops, pulled, returned, l)
    ensures pulled == l.pulled && drops == |l.evicted|
    ensures multiset(returned) == multiset(AllCarried(l.evicted)) + multiset(AllCarried(l.drained))
  {
  }

  lemma StepFollows(q: seq<Frame>, drops: nat, pulled: seq<Frame>, returned: seq<Buf>, l: Log, op: Op,
                    t: seq<Frame>, out: seq<Frame>, put: seq<Buf>)
    requires Follows(q, drops, pulled, returned, l) && Performed(q, op, t, out, put)
    ensures Follows(t, drops + if op.Feed? then |Oldest(q)| else 0, pulled + out, returned + put, After(l, op))
  {
    match op
    case Feed(f) =>
      hide AllCarried, Fed;
      AllCarriedConcat(l.evicted, Oldest(l.queue));
      assert multiset(returned + put) == multiset(returned) + multiset(put);
      assert pulled + out == pulled;
    case Pull =>
      hide AllCarried;
      assert returned + put == returned;
    case Drain =>
      hide AllCarried;
      AllCarriedConcat(l.drained, l.queue);
      assert pulled + out == pulled;
  }

  lemma {:induction false} AllCarriedConcat(p: seq<Frame>, q: seq<Frame>)
    ensures AllCarried(p + q) == AllCarried(p) + AllCarried(q)
  {
    hide Carried;
    if p == [] {
      assert p + q == q;
    } else {
      assert (p + q)[0] == p[0] && (p + q)[1..] == p[1..] + q;
      AllCarriedConcat(p[1..], q);
    }
  }
}
