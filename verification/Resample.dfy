/** Streaming mono resampling (server/crates/dialf/src/audio/resample.rs).

    A read position is a whole number of 1/dst source samples, so `pos` is exact; samples are
    combined over the reals and rounded once, as `clamp_i16` does. Each class carries a predicate
    `After(fed)`: "this is the state that streaming `fed` leaves behind". */
module Resample {
  import opened Arithmetic
  import opened Seqs

  function RoundHalfAway(v: real): int {
    if v >= 0.0 then (v + 0.5).Floor else -(0.5 - v).Floor
  }

  function ClampI16(v: real): Sample {
    var r := RoundHalfAway(v);
    if r < -0x8000 then -0x8000 else if r > 0x7fff then 0x7fff else r
  }

  /** The nearest sample, a half away from zero; past either end of the range it is that end. */
  lemma ClampIsNearest(v: real)
    ensures var r := ClampI16(v) as real;
      && (v >= 32767.5 ==> r == 32767.0) && (v <= -32768.5 ==> r == -32768.0)
      && (-32768.5 < v < 32767.5 ==> v - 0.5 <= r <= v + 0.5)
      && (-32768.5 < v < 32767.5 ==> (r == v - 0.5 ==> v < 0.0) && (r == v + 0.5 ==> v > 0.0))
  {
  }

  // ---- linear interpolation ------------------------------------------------------------

  /** How many outputs n inputs allow: the ceiling of (n-1)*dst/src. */
  function OutCount(n: nat, src: nat, dst: nat): nat
    requires src > 0 && dst > 0
  {
    if n == 0 then 0 else ((n - 1) * dst + (src - 1)) / src
  }

  /** The read position of output k, in units of 1/dst of a source sample: k steps of src. */
  function Pos(k: nat, src: nat): nat {
    if k == 0 then 0 else Pos(k - 1, src) + src
  }

  lemma {:induction false} PosIsProduct(k: nat, src: nat)
    ensures Pos(k, src) == k * src
  {
    if k > 0 {
      PosIsProduct(k - 1, src);
      assert k * src == (k - 1) * src + src;
    }
  }

  /** Output k exists exactly when both source samples around its position do. */
  lemma OutCountExact(n: nat, src: nat, dst: nat, k: nat)
    requires src > 0 && dst > 0
    ensures k < OutCount(n, src, dst) <==> Pos(k, src) / dst + 1 < n
  {
    PosIsProduct(k, src);
    if n > 0 {
      CeilDiv((n - 1) * dst, src, k);
      FloorBelow(k * src, dst, n - 1);
    } else {
      FloorBelow(k * src, dst, 0);
    }
  }

  function Lerp(lo: real, hi: real, f: real): real {
    lo + (hi - lo) * f
  }

  /** The point num/den of the way from `lo` to `hi`, rounded to a sample. */
  function Blend(lo: Sample, hi: Sample, num: nat, den: nat): Sample
    requires den > 0
  {
    ClampI16(Lerp(lo as real, hi as real, num as real / den as real))
  }

  /** Output k of the stream `s`: the value at its read position, between the two samples there. */
  function Interpolate(s: seq<Sample>, k: nat, src: nat, dst: nat): Sample
    requires dst > 0
    requires Pos(k, src) / dst + 1 < |s|
  {
    var p := Pos(k, src);
    Blend(s[p / dst], s[p / dst + 1], p % dst, dst)
  }

  /** Everything the interpolator has to say about the stream `s`. */
  function LinearOut(s: seq<Sample>, src: nat, dst: nat): (r: seq<Sample>)
    requires src > 0 && dst > 0
    ensures |r| == OutCount(|s|, src, dst)
  {
    seq(OutCount(|s|, src, dst), k requires 0 <= k < OutCount(|s|, src, dst) =>
      OutCountExact(|s|, src, dst, k); Interpolate(s, k, src, dst))
  }

  /** Where output k sits relative to the chunk `input`, once `fed` has been consumed: never before
      the carried sample, and past the chunk exactly when `input` does not reach it yet. */
  lemma ChunkPosition(fed: seq<Sample>, input: seq<Sample>, src: nat, dst: nat, k: nat)
    requires src > 0 && dst > 0 && input != []
    requires OutCount(|fed|, src, dst) <= k <= OutCount(|fed + input|, src, dst)
    ensures var rel := Pos(k, src) / dst - |fed|;
      && -1 <= rel
      && (rel == -1 ==> fed != [])
      && (rel + 1 < |input| <==> k < OutCount(|fed + input|, src, dst))
      && (rel + 1 < |input| ==>
            LinearOut(fed + input, src, dst)[k] ==
            Blend(if rel < 0 then fed[|fed| - 1] else input[rel], input[rel + 1], Pos(k, src) % dst, dst))
  {
    OutCountExact(|fed + input|, src, dst, k);
    OutCountExact(|fed|, src, dst, k);
    FloorBelow(Pos(k, src), dst, 0);
  }

  class LinearResampler {
    const src: nat
    const dst: nat
    var pos: nat
    var last: Sample
    var primed: bool
    var consumed: nat

    ghost predicate After(fed: seq<Sample>)
      reads this
    {
      && src > 0 && dst > 0
      && consumed == |fed|
      && primed == (fed != [])
      && (fed != [] ==> last == fed[|fed| - 1])
      && pos == Pos(OutCount(|fed|, src, dst), src)
    }

    constructor (src: nat, dst: nat)
      requires src > 0 && dst > 0
      ensures this.src == src && this.dst == dst && After([])
    {
      this.src, this.dst := src, dst;
      pos, last, primed, consumed := 0, 0, false, 0;
    }

    /** The next output, unless its position runs past the chunk `input`. */
    method Ready(input: seq<Sample>, base: nat, ghost fed: seq<Sample>, ghost k: nat) returns (y: Option<Sample>)
      requires src > 0 && dst > 0 && input != []
      requires base == |fed| && primed == (fed != []) && (fed != [] ==> last == fed[|fed| - 1])
      requires OutCount(|fed|, src, dst) <= k <= OutCount(|fed + input|, src, dst) && pos == Pos(k, src)
      ensures y.None? <==> k == OutCount(|fed + input|, src, dst)
      ensures y.Some? ==> y.value == LinearOut(fed + input, src, dst)[k]
    {
      ChunkPosition(fed, input, src, dst, k);
      var rel := pos / dst - base;
      if rel < -1 {
        assert false;
      }
      if rel + 1 >= |input| {
        return None;
      }
      if rel < 0 && !primed {
        assert false;
      }
      var lo := if rel < 0 then last else input[rel];
      return Some(Blend(lo, input[rel + 1], pos % dst, dst));
    }

    method Process(input: seq<Sample>, ghost fed: seq<Sample>) returns (out: seq<Sample>)
      requires After(fed)
      modifies this
      ensures After(fed + input)
      ensures LinearOut(fed + input, src, dst) == LinearOut(fed, src, dst) + out
    {
      out := [];
      if input == [] {
        assert fed + input == fed;
        return;
      }
      ghost var target := LinearOut(fed + input, src, dst);
      ghost var first, k := OutCount(|fed|, src, dst), OutCount(|fed|, src, dst);
      CountsGrow(fed, input, src, dst);
      while true
        invariant pos == Pos(k, src) && first <= k <= |target|
        invariant out == target[first..k]
        invariant consumed == |fed| && primed == (fed != []) && (fed != [] ==> last == fed[|fed| - 1])
        decreases |target| - k
      {
        var y := Ready(input, consumed, fed, k);
        if y.None? {
          break;
        }
        out := out + [y.value];
        pos := pos + src;
        k := k + 1;
      }
      consumed := consumed + |input|;
      last := input[|input| - 1];
      primed := true;
    }
  }

  /** More input never withdraws or changes an output. */
  lemma CountsGrow(s: seq<Sample>, t: seq<Sample>, src: nat, dst: nat)
    requires src > 0 && dst > 0
    ensures LinearOut(s, src, dst) <= LinearOut(s + t, src, dst)
  {
    var m := OutCount(|s|, src, dst);
    if m > 0 {
      OutCountExact(|s|, src, dst, m - 1);
      OutCountExact(|s + t|, src, dst, m - 1);
    }
    forall k | 0 <= k < m
      ensures LinearOut(s, src, dst)[k] == LinearOut(s + t, src, dst)[k]
    {
      OutCountExact(|s|, src, dst, k);
      OutCountExact(|s + t|, src, dst, k);
    }
  }

  lemma RoundBetween(v: real, lo: int, hi: int)
    requires lo as real <= v <= hi as real
    ensures lo <= RoundHalfAway(v) <= hi
  {
  }

  lemma ScaleDown(d: real, f: real)
    requires 0.0 <= f <= 1.0
    ensures 0.0 <= d ==> 0.0 <= d * f <= d
    ensures d <= 0.0 ==> d <= d * f <= 0.0
  {
  }

  lemma LerpBetween(lo: real, hi: real, f: real)
    requires 0.0 <= f <= 1.0
    ensures lo <= hi ==> lo <= Lerp(lo, hi, f) <= hi
    ensures hi <= lo ==> hi <= Lerp(lo, hi, f) <= lo
  {
    var d := hi - lo;
    ScaleDown(d, f);
    assert Lerp(lo, hi, f) == lo + d * f;
  }

  lemma FractionBelowOne(num: nat, den: nat)
    requires num < den
    ensures 0.0 <= num as real / den as real <= 1.0
  {
  }

  /** Interpolation never leaves the two samples it lies between, so the clamp never bites. */
  lemma BlendBetween(lo: Sample, hi: Sample, num: nat, den: nat)
    requires num < den
    ensures Min(lo, hi) <= Blend(lo, hi, num, den) <= Max(lo, hi)
    ensures Blend(lo, hi, num, den) == RoundHalfAway(Lerp(lo as real, hi as real, num as real / den as real))
  {
    FractionBelowOne(num, den);
    var f := num as real / den as real;
    LerpBetween(lo as real, hi as real, f);
    RoundBetween(Lerp(lo as real, hi as real, f), Min(lo, hi), Max(lo, hi));
  }

  /** The output is the point that far between the two samples, to the nearest whole number. */
  lemma BlendIsNearest(lo: Sample, hi: Sample, num: nat, den: nat)
    requires num < den
    ensures var exact := lo as real + (hi as real - lo as real) * (num as real / den as real);
      exact - 0.5 <= Blend(lo, hi, num, den) as real <= exact + 0.5
  {
    FractionBelowOne(num, den);
    var f := num as real / den as real;
    LerpBetween(lo as real, hi as real, f);
    ClampIsNearest(Lerp(lo as real, hi as real, f));
  }

  lemma LinearBetween(s: seq<Sample>, k: nat, src: nat, dst: nat)
    requires src > 0 && dst > 0 && k < OutCount(|s|, src, dst)
    ensures var i := k * src / dst;
      && 0 <= i < |s| - 1
      && Min(s[i], s[i + 1]) <= LinearOut(s, src, dst)[k] <= Max(s[i], s[i + 1])
      && LinearOut(s, src, dst)[k] == Blend(s[i], s[i + 1], k * src % dst, dst)
  {
    PosIsProduct(k, src);
    OutCountExact(|s|, src, dst, k);
    FloorBelow(k * src, dst, 0);
    BlendBetween(s[k * src / dst], s[k * src / dst + 1], k * src % dst, dst);
  }

  /** The loop of `process` terminates because the step is positive: with a zero source rate the
      read position stays put, and the exit test of a chunk of two or more samples never passes. */
  lemma {:induction false} ZeroRateNeverExits(k: nat, dst: nat, input: seq<Sample>)
    requires dst > 0
    ensures Pos(k, 0) / dst + 1 >= |input| <==> |input| <= 1
  {
    PosIsProduct(k, 0);
  }

  // ---- integer decimation ----------------------------------------------------------------

  /** The stream with silence before its start. */
  function At(s: seq<Sample>, i: int): real {
    if 0 <= i < |s| then s[i] as real else 0.0
  }

  /** The first m products of the taps with the |taps| samples that end at position n. */
  function Fir(taps: seq<real>, s: seq<Sample>, n: nat, m: nat): real
    requires m <= |taps|
  {
    if m == 0 then 0.0
    else Fir(taps, s, n, m - 1) + At(s, n - |taps| + (m - 1)) * taps[m - 1]
  }

  /** Samples read since the last output, after n samples. */
  function Phase(n: nat, factor: nat): nat {
    if n == 0 then 0 else var p := Phase(n - 1, factor) + 1; if p == factor then 0 else p
  }

  /** Everything the decimator has to say about `s`: one filtered value per `factor` samples. */
  function DecimateOut(s: seq<Sample>, factor: nat, taps: seq<real>): seq<Sample>
    requires factor > 0
  {
    if s == [] then []
    else (
      DecimateOut(s[..|s| - 1], factor, taps)
      + if Phase(|s|, factor) == 0 then [ClampI16(Fir(taps, s, |s|, |taps|))] else []
    )
  }

  /** The filter answers one lone sample with the tap it stands under, the oldest sample under the first. */
  lemma {:induction false} FirOfImpulse(taps: seq<real>, s: seq<Sample>, n: nat, m: nat, p: nat)
    requires m <= |taps| && p < |s| && forall i :: 0 <= i < |s| && i != p ==> s[i] == 0
    ensures Fir(taps, s, n, m) ==
      if n - |taps| <= p < n - |taps| + m then s[p] as real * taps[p - (n - |taps|)] else 0.0
  {
    if m > 0 {
      FirOfImpulse(taps, s, n, m - 1, p);
    }
  }

  /** Filtering a sum is summing what is filtered: with `FirOfImpulse` that settles every stream. */
  lemma {:induction false} FirAdds(taps: seq<real>, s: seq<Sample>, t: seq<Sample>, sum: seq<Sample>, n: nat, m: nat)
    requires m <= |taps| && |s| == |t| == |sum|
    requires forall i :: 0 <= i < |s| ==> sum[i] as int == s[i] as int + t[i] as int
    ensures Fir(taps, sum, n, m) == Fir(taps, s, n, m) + Fir(taps, t, n, m)
  {
    if m > 0 {
      FirAdds(taps, s, t, sum, n, m - 1);
      var i := n - |taps| + (m - 1);
      assert At(sum, i) == At(s, i) + At(t, i);
      assert At(sum, i) * taps[m - 1] == At(s, i) * taps[m - 1] + At(t, i) * taps[m - 1];
    }
  }

  lemma {:induction false} FirPrefix(taps: seq<real>, s: seq<Sample>, t: seq<Sample>, n: nat, m: nat)
    requires m <= |taps| && n <= |s|
    ensures Fir(taps, s + t, n, m) == Fir(taps, s, n, m)
  {
    if m > 0 {
      FirPrefix(taps, s, t, n, m - 1);
    }
  }

  lemma {:induction false} PhaseIsMod(n: nat, factor: nat)
    requires factor > 0
    ensures Phase(n, factor) == n % factor
  {
    if n == 0 {
      DivUnique(0, factor, 0, 0);
    } else {
      PhaseIsMod(n - 1, factor);
      DivStep(n - 1, factor);
    }
  }

  lemma {:induction false} DecimateCount(s: seq<Sample>, factor: nat, taps: seq<real>)
    requires factor > 0
    ensures |DecimateOut(s, factor, taps)| == |s| / factor
  {
    if s == [] {
      DivUnique(0, factor, 0, 0);
    } else {
      DecimateCount(s[..|s| - 1], factor, taps);
      PhaseIsMod(|s|, factor);
      DivStep(|s| - 1, factor);
    }
  }

  /** Output j is the taps applied to the |taps| samples of the zero-prefixed stream that end at
      input (j+1)*factor, and n inputs give the floor of n/factor outputs. */
  lemma {:induction false} DecimateClosedForm(s: seq<Sample>, factor: nat, taps: seq<real>, j: nat)
    requires factor > 0
    ensures |DecimateOut(s, factor, taps)| == |s| / factor
    ensures j < |s| / factor ==> (j + 1) * factor <= |s|
    ensures j < |s| / factor ==>
      DecimateOut(s, factor, taps)[j] == ClampI16(Fir(taps, s, (j + 1) * factor, |taps|))
  {
    DecimateCount(s, factor, taps);
    if j < |s| / factor {
      GroupFits(|s|, factor, j);
      var init := s[..|s| - 1];
      DecimateClosedForm(init, factor, taps, j);
      DivStep(|init|, factor);
      PhaseIsMod(|s|, factor);
      if j < |init| / factor {
        assert s == init + [s[|s| - 1]];
        FirPrefix(taps, init, [s[|s| - 1]], (j + 1) * factor, |taps|);
      }
    }
  }

  class Decimator {
    const factor: nat
    const taps: seq<real>
    var history: seq<real>
    var phase: nat

    ghost predicate After(fed: seq<Sample>)
      reads this
    {
      && factor > 0
      && Window(fed)
      && phase == Phase(|fed|, factor)
    }

    /** The history is the end of the zero-prefixed stream: all taps wide once a sample arrived. */
    ghost predicate Window(fed: seq<Sample>)
      reads this
    {
      && |history| == (if fed == [] && taps != [] then |taps| - 1 else |taps|)
      && forall i :: 0 <= i < |history| ==> history[i] == At(fed, |fed| - |history| + i)
    }

    constructor (factor: nat, taps: seq<real>)
      ensures this.factor == Max(factor, 1) && this.taps == taps && After([])
    {
      this.factor, this.taps := Max(factor, 1), taps;
      history, phase := Repeat(0.0, if taps == [] then 0 else |taps| - 1), 0;
    }

    method Slide(x: Sample, ghost fed: seq<Sample>)
      requires Window(fed)
      modifies this`history
      ensures Window(fed + [x])
    {
      history := history + [x as real];
      if |history| > |taps| {
        history := history[1..];
      }
      forall i | 0 <= i < |history|
        ensures history[i] == At(fed + [x], |fed| + 1 - |history| + i)
      {
        assert i + 1 < |history| ==>
          At(fed + [x], |fed| + 1 - |history| + i) == At(fed, |fed| + 1 - |history| + i);
      }
    }

    method Convolve(ghost fed: seq<Sample>) returns (acc: real)
      requires Window(fed) && fed != []
      ensures acc == Fir(taps, fed, |fed|, |taps|)
    {
      acc := 0.0;
      for i := 0 to |taps|
        invariant acc == Fir(taps, fed, |fed|, i)
      {
        acc := acc + history[i] * taps[i];
      }
    }

    /** One round of the loop in `Process`: nothing, or the one value this sample completes. */
    method Step(x: Sample, ghost fed: seq<Sample>) returns (out: seq<Sample>)
      requires After(fed)
      modifies this
      ensures After(fed + [x])
      ensures DecimateOut(fed + [x], factor, taps) == DecimateOut(fed, factor, taps) + out
    {
      assert (fed + [x])[..|fed|] == fed;
      Slide(x, fed);
      phase := phase + 1;
      out := [];
      if phase == factor {
        phase := 0;
        if |history| == |taps| {
          var acc := Convolve(fed + [x]);
          out := [ClampI16(acc)];
        } else {
          assert false;
        }
      }
    }

    method Process(input: seq<Sample>, ghost fed: seq<Sample>) returns (out: seq<Sample>)
      requires After(fed)
      modifies this
      ensures After(fed + input)
      ensures DecimateOut(fed + input, factor, taps) == DecimateOut(fed, factor, taps) + out
    {
      out := [];
      TakeEnds(fed, input);
      for i := 0 to |input|
        invariant After(fed + input[..i])
        invariant DecimateOut(fed + input[..i], factor, taps) == DecimateOut(fed, factor, taps) + out
      {
        TakeOneMore(fed, input, i);
        var more := Step(input[i], fed + input[..i]);
        out := out + more;
      }
    }
  }

  // ---- choosing between them ---------------------------------------------------------------

  /** A conversion from `src` to `dst` samples a second, with the anti-alias taps it would use. */
  datatype Conversion = Conversion(src: nat, dst: nat, taps: seq<real>) {
    predicate Valid() { src > 0 && dst > 0 }

    predicate Decimates() requires Valid() { src > dst && src % dst == 0 }

    /** What resampling the whole stream `s` in one go produces. */
    function Whole(s: seq<Sample>): seq<Sample>
      requires Valid()
    {
      if src == dst then s
      else if Decimates() then DecimateOut(s, Max(src / dst, 1), taps)
      else LinearOut(s, src, dst)
    }
  }

  datatype Resampler = Passthrough | Decimate(d: Decimator) | Linear(l: LinearResampler) {
    function Footprint(): set<object> {
      match this
      case Passthrough => {}
      case Decimate(d) => {d}
      case Linear(l) => {l}
    }

    ghost predicate After(c: Conversion, fed: seq<Sample>)
      reads Footprint()
    {
      && c.Valid()
      && match this
         case Passthrough => c.src == c.dst
         case Decimate(d) =>
           c.src != c.dst && c.Decimates() && d.factor == Max(c.src / c.dst, 1) && d.taps == c.taps && d.After(fed)
         case Linear(l) =>
           c.src != c.dst && !c.Decimates() && l.src == c.src && l.dst == c.dst && l.After(fed)
    }

    static method New(c: Conversion) returns (r: Resampler)
      requires c.Valid()
      ensures r.After(c, []) && fresh(r.Footprint())
    {
      if c.src == c.dst {
        r := Passthrough;
      } else if c.src > c.dst && c.src % c.dst == 0 {
        var d := new Decimator(c.src / c.dst, c.taps);
        r := Decimate(d);
      } else {
        var l := new LinearResampler(c.src, c.dst);
        r := Linear(l);
      }
    }

    method Process(input: seq<Sample>, ghost c: Conversion, ghost fed: seq<Sample>) returns (out: seq<Sample>)
      requires After(c, fed)
      modifies Footprint()
      ensures After(c, fed + input)
      ensures c.Whole(fed + input) == c.Whole(fed) + out
    {
      match this
      case Passthrough => out := input;
      case Decimate(d) => out := d.Process(input, fed);
      case Linear(l) => out := l.Process(input, fed);
    }
  }

  /** However a stream is cut into chunks, a fresh resampler's outputs spell what one call on the
      whole stream gives: the right-hand side does not depend on the cuts. */
  method ResampleChunks(c: Conversion, chunks: seq<seq<Sample>>) returns (out: seq<Sample>)
    requires c.Valid()
    ensures out == c.Whole(Flatten(chunks))
  {
    var r := Resampler.New(c);
    out := [];
    WholeOfNothing(c);
    for i := 0 to |chunks|
      invariant fresh(r.Footprint()) && r.After(c, Flatten(chunks[..i]))
      invariant out == c.Whole(Flatten(chunks[..i]))
    {
      FlattenTake(chunks, i);
      var more := r.Process(chunks[i], c, Flatten(chunks[..i]));
      out := out + more;
    }
    assert chunks[..|chunks|] == chunks;
  }

  /** A second of input makes a second of output, whatever the two rates: n samples at `src` a second give
      n*dst/src at `dst`, but for less than one sample more, or one step of the slower rate less. */
  lemma WholeCount(c: Conversion, s: seq<Sample>)
    requires c.Valid()
    ensures |s| * c.dst - Max(c.src, c.dst) <= |c.Whole(s)| * c.src < |s| * c.dst + c.src
  {
    var n, src, dst := |s|, c.src, c.dst;
    if src == dst {
    } else if c.Decimates() {
      DecimateCount(s, src / dst, c.taps);
      DecimatedCount(n, src, dst);
    } else {
      LinearCount(n, src, dst);
    }
  }

  lemma DecimatedCount(n: nat, src: nat, dst: nat)
    requires src > dst > 0 && src % dst == 0
    ensures src / dst > 0 && n * dst - src <= n / (src / dst) * src <= n * dst
  {
    DivAtLeastOne(src, dst);
    var f := src / dst;
    var q, r := n / f, n % f;
    assert n == q * f + r && src == f * dst;
    assert q * src == (q * f) * dst by {
      assert q * src == q * (f * dst);
    }
    assert n * dst == (q * f) * dst + r * dst;
    MulLe(r, f, dst);
    MulLe(0, r, dst);
  }

  lemma LinearCount(n: nat, src: nat, dst: nat)
    requires src > 0 && dst > 0
    ensures n * dst - dst <= OutCount(n, src, dst) * src < n * dst + src
  {
    if n > 0 {
      var m := OutCount(n, src, dst);
      CeilDiv((n - 1) * dst, src, m);
      MulPred(n, dst);
      if m > 0 {
        CeilDiv((n - 1) * dst, src, m - 1);
        MulPred(m, src);
      }
    }
  }

  /** At equal rates the output is the input. At a whole number of input samples to one output it is the
      filtered value there. */
  lemma WholeFiltered(c: Conversion, s: seq<Sample>, k: nat)
    requires c.Valid() && k < |c.Whole(s)|
    ensures c.src == c.dst ==> k < |s| && c.Whole(s)[k] == s[k]
    ensures c.src > c.dst && c.src % c.dst == 0 ==>
      && (k + 1) * (c.src / c.dst) <= |s|
      && c.Whole(s)[k] == ClampI16(Fir(c.taps, s, (k + 1) * (c.src / c.dst), |c.taps|))
  {
    if c.src > c.dst && c.src % c.dst == 0 {
      DivAtLeastOne(c.src, c.dst);
      DecimateClosedForm(s, c.src / c.dst, c.taps, k);
    }
  }

  /** At any other two rates it is the value at k*src/dst. */
  lemma WholeInterpolated(c: Conversion, s: seq<Sample>, k: nat)
    requires c.Valid() && k < |c.Whole(s)|
    requires c.src < c.dst || c.src % c.dst != 0
    ensures var i := k * c.src / c.dst;
      0 <= i < |s| - 1 && c.Whole(s)[k] == Blend(s[i], s[i + 1], k * c.src % c.dst, c.dst)
  {
    RatesDiffer(c);
    LinearBetween(s, k, c.src, c.dst);
  }

  lemma RatesDiffer(c: Conversion)
    requires c.Valid() && (c.src < c.dst || c.src % c.dst != 0)
    ensures c.src != c.dst && !c.Decimates()
  {
  }

  lemma WholeOfNothing(c: Conversion)
    requires c.Valid()
    ensures c.Whole([]) == []
  {
  }

  /** Outputs already given are never revised by later input. */
  lemma WholeGrows(c: Conversion, s: seq<Sample>, t: seq<Sample>)
    requires c.Valid()
    ensures c.Whole(s) <= c.Whole(s + t)
  {
    if c.src == c.dst {
    } else if c.Decimates() {
      DecimateGrows(s, t, Max(c.src / c.dst, 1), c.taps);
    } else {
      CountsGrow(s, t, c.src, c.dst);
    }
  }

  lemma {:induction false} DecimateGrows(s: seq<Sample>, t: seq<Sample>, factor: nat, taps: seq<real>)
    requires factor > 0
    ensures DecimateOut(s, factor, taps) <= DecimateOut(s + t, factor, taps)
  {
    if t == [] {
      assert s + t == s;
    } else {
      assert (s + t)[..|s + t| - 1] == s + t[..|t| - 1];
      DecimateGrows(s, t[..|t| - 1], factor, taps);
    }
  }
}
