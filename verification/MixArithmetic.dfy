/** The fixed-point mix: 32-bit accumulation, equal-power scaling in Q15, and
    clamping to 16 bits, against the same formula over unbounded integers. */
module MixArithmetic {
  type Samples = seq<int>

  const PCM_BUF: nat := 1920
  const TWO_15: int := 0x8000
  const TWO_30: int := 0x4000_0000
  const TWO_31: int := 0x8000_0000
  const TWO_32: int := 0x1_0000_0000

  /** A result as the source's 32-bit integers keep it. */
  function Wrap32(x: int): (r: int)
    ensures -TWO_31 <= r < TWO_31
    ensures -TWO_31 <= x < TWO_31 ==> r == x
  {
    (x + TWO_31) % TWO_32 - TWO_31
  }

  function Distance(x: int, y: int): nat {
    if x < y then y - x else x - y
  }

  /** The 16-bit sample nearest to a value; so one in range is kept. */
  function Clamp16(x: int): (r: int)
    ensures -TWO_15 <= r < TWO_15
    ensures forall y :: -TWO_15 <= y < TWO_15 ==> Distance(x, r) <= Distance(x, y)
  {
    if x < -TWO_15 then -TWO_15 else if x >= TWO_15 then TWO_15 - 1 else x
  }

  /** The largest k up to `from` with k * sqrt(n) within 2^15. */
  function ScaleFrom(n: nat, from: nat): (k: nat)
    requires 0 < n && (from + 1) * (from + 1) * n > TWO_30
    ensures k * k * n <= TWO_30 < (k + 1) * (k + 1) * n
  {
    if from == 0 || from * from * n <= TWO_30 then from else ScaleFrom(n, from - 1)
  }

  /** 2^15 / sqrt(n), rounded down. */
  function Scale(n: nat): (k: nat)
    requires 0 < n
    ensures k * k * n <= TWO_30 < (k + 1) * (k + 1) * n
  {
    StartIsAbove(n);
    ScaleFrom(n, 0x8000)
  }

  lemma StartIsAbove(n: nat)
    requires 0 < n
    ensures 0x8001 * 0x8001 * n > TWO_30
  {
  }

  predicate FullRange(frames: seq<Samples>) {
    forall f :: f in frames ==> forall j :: 0 <= j < |f| ==> -TWO_15 <= f[j] < TWO_15
  }

  /** Frame lengths the unrolled loop takes. */
  predicate Unrollable(frames: seq<Samples>) {
    forall f :: f in frames ==> |f| <= PCM_BUF && |f| % 4 == 0
  }

  function At(f: Samples, j: nat): int {
    if j < |f| then f[j] else 0
  }

  /** The sum of the `j`th samples. */
  function Column(frames: seq<Samples>, j: nat): int {
    if frames == [] then 0 else Column(frames[..|frames| - 1], j) + At(frames[|frames| - 1], j)
  }

  /** What the source computes from a sum. */
  function Output(sum: int, n: nat): int
    requires 0 < n
  {
    Clamp16(Wrap32(Wrap32(sum) * Scale(n)) / TWO_15)
  }

  /** The same without a word size. */
  function Exact(sum: int, n: nat): int
    requires 0 < n
  {
    Clamp16(sum * Scale(n) / TWO_15)
  }

  // ---------------------------------------------------------------------------
  // The loops

  /** One frame added into the accumulator, four samples at a time. */
  method AddFrame(mixed: array<int>, pcm: Samples)
    requires |pcm| <= mixed.Length && |pcm| % 4 == 0
    modifies mixed
    ensures forall j :: 0 <= j < mixed.Length ==> mixed[j] == if j < |pcm| then Wrap32(old(mixed[j]) + pcm[j]) else old(mixed[j])
  {
    var i := 0;
    while i < |pcm|
      invariant 0 <= i <= |pcm| && i % 4 == 0
      invariant forall j :: 0 <= j < i ==> mixed[j] == Wrap32(old(mixed[j]) + pcm[j])
      invariant forall j :: i <= j < mixed.Length ==> mixed[j] == old(mixed[j])
    {
      mixed[i] := Wrap32(mixed[i] + pcm[i]);
      mixed[i + 1] := Wrap32(mixed[i + 1] + pcm[i + 1]);
      mixed[i + 2] := Wrap32(mixed[i + 2] + pcm[i + 2]);
      mixed[i + 3] := Wrap32(mixed[i + 3] + pcm[i + 3]);
      i := i + 4;
    }
  }

  lemma WrapAdds(x: int, y: int)
    ensures Wrap32(Wrap32(x) + y) == Wrap32(x + y)
  {
    WrapIsCongruent(x);
    CongruentWraps(Wrap32(x) + y, x + y, (Wrap32(x) - x) / TWO_32);
  }

  lemma WrapScales(x: int, k: int)
    ensures Wrap32(Wrap32(x) * k) == Wrap32(x * k)
  {
    WrapIsCongruent(x);
    var q := (Wrap32(x) - x) / TWO_32;
    assert Wrap32(x) * k == x * k + q * k * TWO_32 by { assert Wrap32(x) == x + q * TWO_32; }
    CongruentWraps(Wrap32(x) * k, x * k, q * k);
  }

  lemma WrapIsCongruent(x: int)
    ensures Wrap32(x) == x + (Wrap32(x) - x) / TWO_32 * TWO_32
  {
    assert Wrap32(x) - x == -((x + TWO_31) / TWO_32) * TWO_32;
  }

  lemma CongruentWraps(x: int, y: int, q: int)
    requires x == y + q * TWO_32
    ensures Wrap32(x) == Wrap32(y)
  {
    assert x + TWO_31 == (y + TWO_31) % TWO_32 + ((y + TWO_31) / TWO_32 + q) * TWO_32;
  }

  method Accumulate(mixed: array<int>, frames: seq<Samples>)
    requires mixed.Length == PCM_BUF
    requires Unrollable(frames)
    modifies mixed
    ensures forall j :: 0 <= j < PCM_BUF ==> mixed[j] == Wrap32(Column(frames, j))
  {
    for i := 0 to PCM_BUF
      invariant forall j :: 0 <= j < i ==> mixed[j] == 0
    {
      mixed[i] := 0;
    }
    for k := 0 to |frames|
      invariant forall j :: 0 <= j < PCM_BUF ==> mixed[j] == Wrap32(Column(frames[..k], j))
    {
      AddFrame(mixed, frames[k]);
      forall j | 0 <= j < PCM_BUF
        ensures mixed[j] == Wrap32(Column(frames[..k + 1], j))
      {
        assert frames[..k + 1][..k] == frames[..k];
        WrapAdds(Column(frames[..k], j), At(frames[k], j));
      }
    }
    assert frames[..|frames|] == frames;
  }

  /** The mix of at least one frame, as the encoder gets it. */
  method Mix(mixed: array<int>, pcm: array<int>, frames: seq<Samples>)
    requires mixed != pcm && mixed.Length == PCM_BUF && pcm.Length == PCM_BUF && frames != []
    requires Unrollable(frames)
    modifies mixed, pcm
    ensures forall j :: 0 <= j < PCM_BUF ==> pcm[j] == Output(Column(frames, j), |frames|)
    ensures |frames| <= 4 && FullRange(frames) ==>
              forall j :: 0 <= j < PCM_BUF ==> pcm[j] == Clamp16(Column(frames, j) * Scale(|frames|) / TWO_15)
  {
    Accumulate(mixed, frames);
    var scale := Scale(|frames|);
    for i := 0 to PCM_BUF
      invariant forall j :: 0 <= j < PCM_BUF ==> mixed[j] == Wrap32(Column(frames, j))
      invariant forall j :: 0 <= j < i ==> pcm[j] == Output(Column(frames, j), |frames|)
    {
      pcm[i] := Clamp16(Wrap32(mixed[i] * scale) / TWO_15);
    }
    if |frames| <= 4 && FullRange(frames) {
      forall j | 0 <= j < PCM_BUF
        ensures pcm[j] == Exact(Column(frames, j), |frames|)
      {
        FourFit(frames, j);
      }
    }
  }

  // ---------------------------------------------------------------------------
  // When nothing wraps

  lemma {:induction false} ColumnBounds(frames: seq<Samples>, j: nat)
    requires FullRange(frames)
    ensures -TWO_15 * |frames| <= Column(frames, j) <= (TWO_15 - 1) * |frames|
  {
    if frames != [] {
      assert frames[|frames| - 1] in frames;
      ColumnBounds(frames[..|frames| - 1], j);
    }
  }

  lemma ScaleIs(n: nat, k: nat)
    requires 0 < n && k * k * n <= TWO_30 < (k + 1) * (k + 1) * n
    ensures Scale(n) == k
  {
    var s := Scale(n);
    NotBelow(n, k, s);
    NotBelow(n, s, k);
  }

  lemma NotBelow(n: nat, k: nat, s: nat)
    requires k * k * n <= TWO_30 < (s + 1) * (s + 1) * n
    ensures k <= s
  {
    if s < k {
      MulSquare(s + 1, k);
      MulLe(n, (s + 1) * (s + 1), k * k);
    }
  }

  /** The attenuations for up to five frames. */
  lemma FirstScales()
    ensures Scale(1) == 32768 && Scale(2) == 23170 && Scale(3) == 18918 && Scale(4) == 16384 && Scale(5) == 14654
  {
    ScaleIs(1, 32768);
    ScaleIs(2, 23170);
    ScaleIs(3, 18918);
    ScaleIs(4, 16384);
    ScaleIs(5, 14654);
  }

  /** Up to four frames, neither the sum nor the product leaves 32 bits; four
      frames at full negative scale reach the very bottom. */
  lemma {:induction false} FourFit(frames: seq<Samples>, j: nat)
    requires 0 < |frames| <= 4 && FullRange(frames)
    ensures -TWO_31 <= Column(frames, j) < TWO_31
    ensures -TWO_31 <= Column(frames, j) * Scale(|frames|) < TWO_31
    ensures Output(Column(frames, j), |frames|) == Exact(Column(frames, j), |frames|)
  {
    ColumnBounds(frames, j);
    SumFits(Column(frames, j), |frames|);
  }

  lemma SumFits(sum: int, n: nat)
    requires 0 < n <= 4 && -TWO_15 * n <= sum <= (TWO_15 - 1) * n
    ensures -TWO_31 <= sum < TWO_31
    ensures -TWO_31 <= sum * Scale(n) < TWO_31
    ensures Output(sum, n) == Exact(sum, n)
  {
    hide Scale;
    FirstScales();
    var product := sum * Scale(n);
    assert -TWO_31 <= product < TWO_31 by {
      if n == 1 {
      } else if n == 2 {
      } else if n == 3 {
      } else {
        assert n == 4;
      }
    }
    assert Wrap32(sum) == sum && Wrap32(product) == product;
  }

  /** The mix of any `n` frames the loops take is always the exact one. */
  ghost predicate AlwaysExact(n: nat)
    requires 0 < n
  {
    forall frames: seq<Samples>, j: nat ::
      |frames| == n && Unrollable(frames) && FullRange(frames) && j < PCM_BUF
      ==> Output(Column(frames, j), n) == Exact(Column(frames, j), n)
  }

  /** A frame of four samples, all silent but the first. */
  function Click(x: int): (f: Samples)
    ensures |f| == 4
  {
    [x, 0, 0, 0]
  }

  /** `n` clicks that sum to `s`. */
  function Spread(s: nat, n: nat): (frames: seq<Samples>)
    ensures |frames| == n
  {
    if n == 0 then []
    else
      var x := if s >= TWO_15 then TWO_15 - 1 else s;
      Spread(s - x, n - 1) + [Click(x)]
  }

  lemma ClickMore(frames: seq<Samples>, x: int)
    requires FullRange(frames) && Unrollable(frames) && -TWO_15 <= x < TWO_15
    ensures FullRange(frames + [Click(x)]) && Unrollable(frames + [Click(x)])
  {
  }

  lemma {:induction false} ColumnMore(frames: seq<Samples>, x: int)
    ensures Column(frames + [Click(x)], 0) == Column(frames, 0) + x
  {
    assert (frames + [Click(x)])[..|frames|] == frames;
  }

  lemma {:induction false} SpreadSums(s: nat, n: nat)
    requires s <= (TWO_15 - 1) * n
    ensures FullRange(Spread(s, n)) && Unrollable(Spread(s, n)) && Column(Spread(s, n), 0) == s
  {
    hide FullRange, Column, Unrollable, Click;
    if n == 0 {
      NoFrames();
    } else {
      var x := if s >= TWO_15 then TWO_15 - 1 else s;
      SpreadSums(s - x, n - 1);
      ClickMore(Spread(s - x, n - 1), x);
      ColumnMore(Spread(s - x, n - 1), x);
    }
  }

  lemma NoFrames()
    ensures FullRange([]) && Unrollable([]) && Column([], 0) == 0
  {
  }

  lemma Gap(n: nat)
    requires 5 <= n <= 65538
    ensures (65538 + n) * (65538 + n) < TWO_30 * n
  {
    MulLe(n, n, 65538);
  }

  /** From five frames on, a full-scale product passes 2^31. */
  lemma ProductPasses(n: nat)
    requires 5 <= n <= TWO_30
    ensures Scale(n) >= 1 && n * Scale(n) >= 65539
  {
    var k := Scale(n);
    MulLe(n, 1, k);
    if n <= 65538 {
      var m := n * (k + 1);
      Square(n, k + 1);
      MulLt(TWO_30, (k + 1) * (k + 1) * n, n);
      Gap(n);
      if m <= 65538 + n {
        MulSquare(m, 65538 + n);
      }
    }
  }

  lemma MulLe(n: nat, a: int, b: int)
    requires a <= b
    ensures n * a <= n * b
  {
  }

  lemma MulLt(a: int, b: int, n: nat)
    requires a < b && n > 0
    ensures a * n < b * n
  {
  }

  lemma MulSquare(a: nat, b: nat)
    requires a <= b
    ensures a * a <= b * b
  {
    MulLe(a, a, b);
    MulLe(b, a, b);
  }

  lemma Square(n: nat, k: nat)
    ensures (n * k) * (n * k) == k * k * n * n
  {
  }

  lemma WrapsBadly(s: nat, n: nat)
    requires 0 < n && TWO_31 <= s * Scale(n) < TWO_32
    ensures Output(s, n) != Exact(s, n)
  {
    WrapScales(s, Scale(n));
    var p := s * Scale(n);
    assert Wrap32(p) == p - TWO_32;
    assert Wrap32(p) / TWO_15 < 0;
    assert p / TWO_15 >= 65536;
  }

  /** The smallest sum whose product wraps. */
  lemma Overflowing(n: nat) returns (frames: seq<Samples>)
    requires 5 <= n <= TWO_30
    ensures |frames| == n && FullRange(frames) && Unrollable(frames)
    ensures Output(Column(frames, 0), n) != Exact(Column(frames, 0), n)
  {
    ProductPasses(n);
    var k := Scale(n);
    assert k <= 0x8000 by { if k > 0x8000 { MulSquare(0x8001, k); MulLe(k * k, 1, n); } }
    var s := (TWO_31 + k - 1) / k;
    assert TWO_31 <= s * k < TWO_31 + k by { Ceiling(TWO_31, k); }
    CeilingFits(s, n, k);
    frames := Spread(s, n);
    SpreadSums(s, n);
    WrapsBadly(s, n);
  }

  lemma CeilingFits(s: nat, n: nat, k: nat)
    requires k > 0 && n * k >= 65539 && s * k < TWO_31 + k
    ensures s <= (TWO_15 - 1) * n
  {
    var t := (TWO_15 - 1) * n;
    assert t * k == (TWO_15 - 1) * (n * k);
    if s > t {
      MulLe(k, t + 1, s);
    }
  }

  lemma Ceiling(a: nat, k: nat)
    requires k > 0
    ensures a <= (a + k - 1) / k * k < a + k
  {
    var q := (a + k - 1) / k;
    assert a + k - 1 == q * k + (a + k - 1) % k;
  }

  /** The 32-bit mix is exact for every input exactly up to four frames (past
      2^30 frames the scale is zero, and both formulas give silence). */
  lemma ExactUpToFourFrames(n: nat)
    requires 0 < n
    ensures AlwaysExact(n) <==> n <= 4 || n > TWO_30
  {
    if n <= 4 {
      forall frames: seq<Samples>, j: nat | |frames| == n && Unrollable(frames) && FullRange(frames) && j < PCM_BUF
        ensures Output(Column(frames, j), n) == Exact(Column(frames, j), n)
      {
        FourFit(frames, j);
      }
    } else if n <= TWO_30 {
      var frames := Overflowing(n);
    } else {
      ScaleIs(n, 0);
    }
  }
}
