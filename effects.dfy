/** The non-destructive effects pipeline of effects.py. Each stage is a pure
    function on a sample sequence; `Pipeline` applies the enabled stages in
    the fixed order normalize, compress, echo, speed, fade-in, fade-out.
    The methods below run the stages the way `_rebuild` does, on arrays and
    partly in place, and are proved to compute `Pipeline`. Samples and
    seconds are exact reals; the sample rate `sr` is a parameter. */
module Effects {
  import opened Common
  import opened SoundRecord

  // ---------------------------------------------------------------- keys

  /** `EFFECTS`: effect key to its display label. */
  const EffectLabels: map<string, string> := map[
    "fade_in" := "Fade In",
    "fade_out" := "Fade Out",
    "normalize" := "Normalize",
    "echo" := "Echo",
    "compress" := "Compress",
    "speed_up" := "Speed \U{D7}1.5",
    "slow_down" := "Speed \U{D7}0.75"]

  /** The flags `init_sound_effects` creates: every effect off. */
  function AllOff(): (fx: map<string, bool>)
    ensures fx.Keys == EffectLabels.Keys
    ensures forall k :: k in fx ==> !fx[k]
  {
    map k | k in EffectLabels.Keys :: false
  }

  /** The parameters `init_sound_effects` creates. */
  const DefaultParams: map<string, real> :=
    map["echo_delay" := 0.3, "echo_decay" := 0.5, "fade_duration" := 0.5]

  /** `effects.get(key)` used as a condition: a missing key is off. */
  predicate Flag(fx: map<string, bool>, key: string)
  {
    key in fx && fx[key]
  }

  /** `float(params.get(key, default))`. */
  function Param(params: map<string, real>, key: string, default: real): real
  {
    if key in params then params[key] else default
  }

  /** `get_active_effects`: the keys whose flag is on (a missing dict is empty). */
  function ActiveEffects(fx: Option<map<string, bool>>): (r: set<string>)
    ensures forall k :: k in r <==> fx.Some? && Flag(fx.value, k)
  {
    if fx.None? then {} else set k | k in fx.value && fx.value[k]
  }

  // ------------------------------------------------------------ normalize

  /** `np.max(np.abs(x))`, 0 for the empty sequence (the source never asks). */
  function Peak(x: seq<real>): (p: real)
    ensures p >= 0.0
  {
    if x == [] then 0.0 else MaxReal(Peak(x[..|x| - 1]), AbsReal(x[|x| - 1]))
  }

  /** Every sample's magnitude is at most `m`. */
  predicate Bounds(x: seq<real>, m: real)
  {
    forall i :: 0 <= i < |x| ==> AbsReal(x[i]) <= m
  }

  /** Some sample's magnitude is exactly `m`. */
  predicate Attains(x: seq<real>, m: real)
  {
    exists i :: 0 <= i < |x| && AbsReal(x[i]) == m
  }

  /** The peak bounds every sample's magnitude and is attained by one. */
  lemma {:induction false} PeakIsMax(x: seq<real>)
    ensures Bounds(x, Peak(x))
    ensures |x| > 0 ==> Attains(x, Peak(x))
  {
    if x != [] {
      var n := |x|;
      var y := x[..n - 1];
      PeakIsMax(y);
      assert forall i :: 0 <= i < n - 1 ==> x[i] == y[i];
      if AbsReal(x[n - 1]) >= Peak(y) {
        assert AbsReal(x[n - 1]) == Peak(x);
      } else {
        var i :| 0 <= i < n - 1 && AbsReal(y[i]) == Peak(y);
        assert AbsReal(x[i]) == Peak(x);
      }
    }
  }

  /** `x * c` elementwise. */
  function Scale(x: seq<real>, c: real): (r: seq<real>)
    ensures |r| == |x|
    ensures forall i :: 0 <= i < |x| ==> r[i] == x[i] * c
  {
    seq(|x|, i requires 0 <= i < |x| => x[i] * c)
  }

  /** A bound on every magnitude that some sample attains is the peak. */
  lemma PeakUnique(y: seq<real>, m: real)
    requires Bounds(y, m) && Attains(y, m)
    ensures Peak(y) == m
  {
    PeakIsMax(y);
  }

  /** Scaling by a non-negative factor scales the peak. */
  lemma PeakScale(x: seq<real>, c: real, p: real)
    requires c >= 0.0 && Bounds(x, p) && Attains(x, p)
    ensures Peak(Scale(x, c)) == p * c
  {
    ScaleBound(x, c, p, p * c);
    PeakUnique(Scale(x, c), p * c);
  }

  /** A bound `p` on the magnitudes becomes the bound `m == p * c` of the
      scaled samples, and an attained bound stays attained. */
  lemma ScaleBound(x: seq<real>, c: real, p: real, m: real)
    requires c >= 0.0 && Bounds(x, p) && m == p * c
    ensures Bounds(Scale(x, c), m)
    ensures Attains(x, p) ==> Attains(Scale(x, c), m)
  {
    forall i | 0 <= i < |x| ensures AbsReal(Scale(x, c)[i]) <= m {
      ScaledAbs(Scale(x, c)[i], x[i], c, p);
    }
    if Attains(x, p) {
      var k :| 0 <= k < |x| && AbsReal(x[k]) == p;
      ScaledAbs(Scale(x, c)[k], x[k], c, p);
    }
  }

  /** `|w| <= p * c` (with equality when `|v| == p`) for `w == v * c`. */
  lemma ScaledAbs(w: real, v: real, c: real, p: real)
    requires w == v * c && c >= 0.0 && AbsReal(v) <= p
    ensures AbsReal(w) <= p * c
    ensures AbsReal(v) == p ==> AbsReal(w) == p * c
  {
    AbsMul(v, c);
    MulMono(AbsReal(v), p, c);
  }

  lemma AbsMul(v: real, c: real)
    requires c >= 0.0
    ensures AbsReal(v * c) == AbsReal(v) * c
  {
    if v < 0.0 { assert v * c == -((-v) * c); MulNonneg(-v, c); } else { MulNonneg(v, c); }
  }

  lemma MulMono(a: real, b: real, c: real)
    requires a <= b && c >= 0.0
    ensures a * c <= b * c
  {
    MulNonneg(b - a, c);
  }

  /** Normalize: scale so that the peak is 0.95; a silent buffer is kept. */
  function Normalize(x: seq<real>): (r: seq<real>)
    ensures |r| == |x|
    ensures Peak(x) == 0.0 ==> r == x
  {
    var p := Peak(x);
    if p > 0.0 then Scale(x, 0.95 / p) else x
  }

  /** After normalizing a buffer that is not silent its peak is exactly 0.95. */
  lemma NormalizePeak(x: seq<real>)
    requires Peak(x) > 0.0
    ensures Peak(Normalize(x)) == 0.95
  {
    PeakIsMax(x);
    ScaleToPeak(x, Peak(x), 0.95);
  }

  /** Scaling by `t / p`, where `p` is the peak, moves the peak to `t`. */
  lemma ScaleToPeak(x: seq<real>, p: real, t: real)
    requires Bounds(x, p) && Attains(x, p) && p > 0.0 && t >= 0.0
    ensures Peak(Scale(x, t / p)) == t
  {
    MulDiv(t, p);
    ScaleBound(x, t / p, p, t);
    PeakUnique(Scale(x, t / p), t);
  }

  lemma MulDiv(a: real, p: real)
    requires p != 0.0
    ensures p * (a / p) == a
  {
  }

  lemma DivMul(a: real, p: real)
    requires p != 0.0
    ensures (a / p) * p == a
  {
  }

  // ------------------------------------------------------------- compress

  const Threshold: real := 0.5
  const Ratio: real := 4.0

  /** `np.sign(x)`. */
  function Sign(x: real): real
  {
    if x > 0.0 then 1.0 else if x < 0.0 then -1.0 else 0.0
  }

  /** Compress one sample: the excess above 0.5 is divided by 4, keeping the
      sign; quieter samples pass unchanged. */
  function CompressSample(v: real): (r: real)
    ensures AbsReal(v) <= Threshold ==> r == v
    ensures AbsReal(v) > Threshold ==> AbsReal(r) == Threshold + (AbsReal(v) - Threshold) / Ratio
    ensures (v > 0.0 <==> r > 0.0) && (v < 0.0 <==> r < 0.0)
    ensures AbsReal(r) <= AbsReal(v)
  {
    if AbsReal(v) > Threshold then Sign(v) * (Threshold + (AbsReal(v) - Threshold) / Ratio) else v
  }

  function Compress(x: seq<real>): (r: seq<real>)
    ensures |r| == |x|
    ensures forall i :: 0 <= i < |x| ==> r[i] == CompressSample(x[i])
  {
    seq(|x|, i requires 0 <= i < |x| => CompressSample(x[i]))
  }

  /** Compression never raises the peak. */
  lemma CompressPeak(x: seq<real>)
    ensures Peak(Compress(x)) <= Peak(x)
  {
    var r := Compress(x);
    PeakIsMax(r);
    PeakIsMax(x);
    if |r| > 0 {
      var i :| 0 <= i < |r| && AbsReal(r[i]) == Peak(r);
      assert AbsReal(r[i]) <= AbsReal(x[i]);
    }
  }

  // ----------------------------------------------------------------- echo

  /** `int(delay * SR)`. */
  function EchoDelaySamples(params: map<string, real>, sr: real): int
  {
    Trunc(Param(params, "echo_delay", 0.3) * sr)
  }

  function EchoDecay(params: map<string, real>): real
  {
    Param(params, "echo_decay", 0.5)
  }

  /** Echo: a copy delayed by `d` samples and scaled by `decay` is added;
      the tail past the original length is dropped. */
  function Echo(x: seq<real>, d: nat, decay: real): (r: seq<real>)
    ensures |r| == |x|
  {
    seq(|x|, i requires 0 <= i < |x| => if i >= d then x[i] + x[i - d] * decay else x[i])
  }

  /** Echo with decay 0, or with a delay at least the buffer length, is the
      identity. */
  lemma EchoIdentity(x: seq<real>, d: nat, decay: real)
    requires decay == 0.0 || d >= |x|
    ensures Echo(x, d, decay) == x
  {
    var r := Echo(x, d, decay);
    forall i | 0 <= i < |x| ensures r[i] == x[i] {
      if i >= d { assert x[i - d] * decay == 0.0; }
    }
  }

  // ---------------------------------------------------------------- speed

  /** The numerator and denominator of the two read steps: 1.5 and 0.75. */
  const SpeedUpNum: nat := 3
  const SpeedUpDen: nat := 2
  const SlowDownNum: nat := 3
  const SlowDownDen: nat := 4

  lemma {:induction false} MulLeft(a: int, b: int, c: int)
    requires c > 0
    ensures a < b <==> a * c < b * c
  {
    if a < b {
      assert (b - a) * c > 0;
    } else {
      assert (a - b) * c >= 0;
    }
  }

  /** `k < ceil(a / b)` exactly when `k * b < a`. */
  lemma CeilDivBelow(a: nat, b: nat, k: nat)
    requires b > 0
    ensures k < (a + b - 1) / b <==> k * b < a
  {
    var q := (a + b - 1) / b;
    var r := (a + b - 1) % b;
    assert a + b - 1 == q * b + r && 0 <= r < b;
    if k < q {
      MulLeft(k + 1, q + 1, b);
      assert (k + 1) * b <= q * b by { if k + 1 < q { MulLeft(k + 1, q, b); } }
    } else {
      assert q <= k;
      MulLeft(k, q + 1, b);
      assert q * b <= k * b by { if q < k { MulLeft(q, k, b); } }
    }
  }

  /** The read position of output sample `k` at step `num / den`. */
  function Position(k: nat, num: nat, den: nat): real
    requires den > 0
  {
    (k * num) as real / den as real
  }

  lemma PositionBelow(k: nat, num: nat, den: nat, n: nat)
    requires den > 0
    ensures Position(k, num, den) < n as real <==> k * num < n * den
  {
    var a := (k * num) as real;
    var d := den as real;
    var c := n as real;
    DivMul(a, d);
    assert (n * den) as real == c * d;
    if a / d < c {
      assert (a / d) * d < c * d;
    } else {
      assert (a / d) * d >= c * d;
    }
  }

  /** The number of points of `np.arange(0, n, step)` below `n`. */
  function ResampleLen(n: nat, num: nat, den: nat): (r: nat)
    requires num > 0 && den > 0
    ensures forall k: nat :: k < r <==> Position(k, num, den) < n as real
  {
    var r := (n * den + num - 1) / num;
    forall k: nat ensures k < r <==> Position(k, num, den) < n as real {
      CeilDivBelow(n * den, num, k);
      PositionBelow(k, num, den, n);
    }
    r
  }

  /** `np.interp(t, np.arange(len(x)), x)`: linear interpolation between the
      two neighbouring samples; past the last sample point, the last sample. */
  function Interp(x: seq<real>, t: real): (r: real)
    requires |x| > 0 && t >= 0.0
    ensures t >= (|x| - 1) as real ==> r == x[|x| - 1]
  {
    var j := t.Floor;
    if j >= |x| - 1 then x[|x| - 1]
    else x[j] + (t - j as real) * (x[j + 1] - x[j])
  }

  /** At a sample point the interpolation is that sample; between two
      sample points it lies between them. */
  lemma InterpProperties(x: seq<real>, t: real)
    requires |x| > 0 && 0.0 <= t
    ensures t.Floor as real == t && t.Floor < |x| ==> Interp(x, t) == x[t.Floor]
    ensures t.Floor < |x| - 1 ==>
      MinReal(x[t.Floor], x[t.Floor + 1]) <= Interp(x, t) <= MaxReal(x[t.Floor], x[t.Floor + 1])
  {
    var j := t.Floor;
    var f := t - j as real;
    assert 0.0 <= f < 1.0;
    if j < |x| - 1 {
      var a, b := x[j], x[j + 1];
      if a <= b {
        MulNonneg(f, b - a);
        MulNonneg(1.0 - f, b - a);
      } else {
        MulNonneg(f, a - b);
        MulNonneg(1.0 - f, a - b);
      }
    }
  }

  lemma MulNonneg(x: real, y: real)
    requires x >= 0.0 && y >= 0.0
    ensures x * y >= 0.0
  {
  }

  /** The speed stage: read the buffer at step `num / den`. */
  function Resample(x: seq<real>, num: nat, den: nat): (r: seq<real>)
    requires |x| > 0 && num > 0 && den > 0
    ensures |r| == ResampleLen(|x|, num, den) && |r| > 0
  {
    assert Position(0, num, den) < |x| as real;
    seq(ResampleLen(|x|, num, den),
        k requires 0 <= k < ResampleLen(|x|, num, den) => Interp(x, Position(k, num, den)))
  }

  /** Output sample `k` of the speed stage reads the input at position
      `k * step`, and that position is inside the buffer; every output
      sample lies within the input's peak. */
  lemma ResampleSample(x: seq<real>, num: nat, den: nat, k: nat)
    requires |x| > 0 && num > 0 && den > 0
    requires k < ResampleLen(|x|, num, den)
    ensures Position(k, num, den) < |x| as real
    ensures Resample(x, num, den)[k] == Interp(x, Position(k, num, den))
    ensures AbsReal(Resample(x, num, den)[k]) <= Peak(x)
  {
    var t := Position(k, num, den);
    InterpProperties(x, t);
    PeakIsMax(x);
    var j := t.Floor;
    if j < |x| - 1 {
      assert AbsReal(x[j]) <= Peak(x) && AbsReal(x[j + 1]) <= Peak(x);
    }
  }

  /** Speeding up reads every third input sample exactly at even `k`. */
  lemma SpeedUpEvenSamples(x: seq<real>, m: nat)
    requires |x| > 0
    requires 3 * m < |x|
    ensures 2 * m < ResampleLen(|x|, SpeedUpNum, SpeedUpDen)
    ensures Resample(x, SpeedUpNum, SpeedUpDen)[2 * m] == x[3 * m]
  {
    var t := Position(2 * m, SpeedUpNum, SpeedUpDen);
    assert t == (3 * m) as real;
    assert t.Floor == 3 * m;
    InterpProperties(x, t);
  }

  // ---------------------------------------------------------------- fades

  /** `min(int(fade_duration * SR), len)`. */
  function FadeLen(params: map<string, real>, sr: real, n: nat): (r: int)
    ensures r <= n
    ensures r < n ==> r == Trunc(Param(params, "fade_duration", 0.5) * sr)
  {
    MinInt(Trunc(Param(params, "fade_duration", 0.5) * sr), n)
  }

  /** Element `i` of `np.linspace(a, b, m)`; a single point is `a`. */
  function Linspace(a: real, b: real, m: nat, i: nat): (r: real)
    requires i < m
    ensures i == 0 ==> r == a
    ensures m >= 2 && i == m - 1 ==> r == b
  {
    if m == 1 then a else a + (b - a) * (i as real / (m - 1) as real)
  }

  /** Fade-in: `data[:smp] *= np.linspace(0, 1, smp)`. */
  function FadeIn(x: seq<real>, smp: nat): (r: seq<real>)
    requires smp <= |x|
    ensures |r| == |x|
    ensures forall i :: smp <= i < |x| ==> r[i] == x[i]
  {
    seq(|x|, i requires 0 <= i < |x| => if i < smp then x[i] * Linspace(0.0, 1.0, smp, i) else x[i])
  }

  /** Fade-out: `data[-smp:] *= np.linspace(1, 0, smp)`; numpy rejects
      `smp == 0` on a non-empty buffer. */
  function FadeOut(x: seq<real>, smp: nat): (r: seq<real>)
    requires smp <= |x| && (smp >= 1 || |x| == 0)
    ensures |r| == |x|
    ensures forall i :: 0 <= i < |x| - smp ==> r[i] == x[i]
  {
    seq(|x|, i requires 0 <= i < |x| =>
      if i >= |x| - smp then x[i] * Linspace(1.0, 0.0, smp, i - (|x| - smp)) else x[i])
  }

  /** The fade-in ramp: sample `i` of the first `smp` is scaled by
      `i / (smp - 1)`, so the first sample is silenced and sample `smp - 1`
      is kept. */
  lemma FadeInRamp(x: seq<real>, smp: nat, i: nat)
    requires 2 <= smp <= |x| && i < smp
    ensures FadeIn(x, smp)[i] == x[i] * (i as real / (smp - 1) as real)
    ensures FadeIn(x, smp)[0] == 0.0 && FadeIn(x, smp)[smp - 1] == x[smp - 1]
  {
    var m := (smp - 1) as real;
    assert m / m == 1.0;
    assert Linspace(0.0, 1.0, smp, smp - 1) == 1.0;
    assert Linspace(0.0, 1.0, smp, 0) == 0.0;
  }

  function Reverse(x: seq<real>): (r: seq<real>)
    ensures |r| == |x|
    ensures forall i :: 0 <= i < |x| ==> r[i] == x[|x| - 1 - i]
  {
    seq(|x|, i requires 0 <= i < |x| => x[|x| - 1 - i])
  }

  /** Fade-out is fade-in played backwards, except for a one-sample fade:
      `np.linspace(1, 0, 1)` is `[1]`, so a one-sample fade-out keeps the
      last sample while a one-sample fade-in silences the first. */
  lemma FadeOutMirrorsFadeIn(x: seq<real>, smp: nat)
    requires smp <= |x| && smp >= 2
    ensures FadeOut(x, smp) == Reverse(FadeIn(Reverse(x), smp))
  {
    var n := |x|;
    var a := FadeOut(x, smp);
    var b := Reverse(FadeIn(Reverse(x), smp));
    forall i | 0 <= i < n ensures a[i] == b[i] {
      if i >= n - smp {
        var j := i - (n - smp);
        var m := (smp - 1) as real;
        assert Linspace(0.0, 1.0, smp, n - 1 - i) == (smp - 1 - j) as real / m;
        assert Linspace(1.0, 0.0, smp, j) == 1.0 - j as real / m;
        DivSub(m, j as real);
      }
    }
  }

  lemma DivSub(m: real, j: real)
    requires m != 0.0
    ensures (m - j) / m == 1.0 - j / m
  {
    DivMul(m - j, m);
    DivMul(j, m);
    var a := (m - j) / m;
    var b := 1.0 - j / m;
    assert a * m == b * m;
    assert (a - b) * m == 0.0;
  }

  lemma FadeOutSingle(x: seq<real>)
    requires |x| >= 1
    ensures FadeOut(x, 1) == x
    ensures FadeIn(x, 1)[0] == 0.0
  {
    assert Linspace(1.0, 0.0, 1, 0) == 1.0;
    assert FadeOut(x, 1)[|x| - 1] == x[|x| - 1] * 1.0;
  }

  // ------------------------------------------------------------- pipeline

  /** The inputs on which `_rebuild` does not raise: numpy raises for the
      peak of an empty buffer, for interpolation over an empty buffer, for a
      negative echo delay or fade length, and for a zero-length fade-out of
      a non-empty buffer. */
  predicate PipelineDefined(x: seq<real>, fx: map<string, bool>, params: map<string, real>, sr: real)
  {
    && ((Flag(fx, "normalize") || Flag(fx, "speed_up") || Flag(fx, "slow_down")) ==> |x| > 0)
    && (Flag(fx, "echo") ==> EchoDelaySamples(params, sr) >= 0)
    && ((Flag(fx, "fade_in") || Flag(fx, "fade_out")) ==>
          Trunc(Param(params, "fade_duration", 0.5) * sr) >= 0)
    && (Flag(fx, "fade_out") && |x| > 0 ==> Trunc(Param(params, "fade_duration", 0.5) * sr) >= 1)
  }

  function NormalizeStage(x: seq<real>, fx: map<string, bool>): (r: seq<real>)
    requires Flag(fx, "normalize") ==> |x| > 0
    ensures |r| == |x|
    ensures !Flag(fx, "normalize") ==> r == x
  {
    if Flag(fx, "normalize") then Normalize(x) else x
  }

  function CompressStage(x: seq<real>, fx: map<string, bool>): (r: seq<real>)
    ensures |r| == |x|
    ensures !Flag(fx, "compress") ==> r == x
  {
    if Flag(fx, "compress") then Compress(x) else x
  }

  function EchoStage(x: seq<real>, fx: map<string, bool>, params: map<string, real>, sr: real): (r: seq<real>)
    requires Flag(fx, "echo") ==> EchoDelaySamples(params, sr) >= 0
    ensures |r| == |x|
    ensures !Flag(fx, "echo") ==> r == x
  {
    if Flag(fx, "echo") then Echo(x, EchoDelaySamples(params, sr), EchoDecay(params)) else x
  }

  /** The speed stage; speed-up wins when both speed flags are on. */
  function SpeedStage(x: seq<real>, fx: map<string, bool>): (r: seq<real>)
    requires (Flag(fx, "speed_up") || Flag(fx, "slow_down")) ==> |x| > 0
    ensures (|r| > 0) == (|x| > 0)
    ensures !Flag(fx, "speed_up") && !Flag(fx, "slow_down") ==> r == x
  {
    if Flag(fx, "speed_up") then Resample(x, SpeedUpNum, SpeedUpDen)
    else if Flag(fx, "slow_down") then Resample(x, SlowDownNum, SlowDownDen)
    else x
  }

  function FadeInStage(x: seq<real>, fx: map<string, bool>, params: map<string, real>, sr: real): (r: seq<real>)
    requires Flag(fx, "fade_in") ==> Trunc(Param(params, "fade_duration", 0.5) * sr) >= 0
    ensures |r| == |x|
    ensures !Flag(fx, "fade_in") ==> r == x
  {
    if Flag(fx, "fade_in") then FadeIn(x, FadeLen(params, sr, |x|)) else x
  }

  function FadeOutStage(x: seq<real>, fx: map<string, bool>, params: map<string, real>, sr: real): (r: seq<real>)
    requires Flag(fx, "fade_out") ==> Trunc(Param(params, "fade_duration", 0.5) * sr) >= 0
    requires Flag(fx, "fade_out") && |x| > 0 ==> Trunc(Param(params, "fade_duration", 0.5) * sr) >= 1
    ensures |r| == |x|
    ensures !Flag(fx, "fade_out") ==> r == x
  {
    if Flag(fx, "fade_out") then FadeOut(x, FadeLen(params, sr, |x|)) else x
  }

  /** What `_rebuild` stores in `data`: a function of the original samples,
      the flags and the parameters only. */
  function Pipeline(x: seq<real>, fx: map<string, bool>, params: map<string, real>, sr: real): (r: seq<real>)
    requires PipelineDefined(x, fx, params, sr)
    ensures |r| == if Flag(fx, "speed_up") then ResampleLen(|x|, SpeedUpNum, SpeedUpDen)
                   else if Flag(fx, "slow_down") then ResampleLen(|x|, SlowDownNum, SlowDownDen)
                   else |x|
  {
    var a := NormalizeStage(x, fx);
    var b := CompressStage(a, fx);
    var c := EchoStage(b, fx, params, sr);
    var d := SpeedStage(c, fx);
    var e := FadeInStage(d, fx, params, sr);
    FadeOutStage(e, fx, params, sr)
  }

  /** With every flag off the playable samples are the original ones. */
  lemma PipelineAllOff(x: seq<real>, fx: map<string, bool>, params: map<string, real>, sr: real)
    requires forall k :: k in fx ==> !fx[k]
    ensures PipelineDefined(x, fx, params, sr) && Pipeline(x, fx, params, sr) == x
  {
  }

  /** With both speed flags on, slow-down has no effect. */
  lemma PipelineSpeedUpWins(x: seq<real>, fx: map<string, bool>, params: map<string, real>, sr: real)
    requires Flag(fx, "speed_up") && PipelineDefined(x, fx, params, sr)
    ensures PipelineDefined(x, fx["slow_down" := false], params, sr)
    ensures Pipeline(x, fx, params, sr) == Pipeline(x, fx["slow_down" := false], params, sr)
  {
    var fx' := fx["slow_down" := false];
    assert forall k :: k != "slow_down" ==> (Flag(fx, k) <==> Flag(fx', k));
  }

  /** Enabling echo with decay 0 gives the same playable samples as leaving
      echo off. */
  lemma PipelineEchoZeroDecay(x: seq<real>, fx: map<string, bool>, params: map<string, real>, sr: real)
    requires Flag(fx, "echo") && PipelineDefined(x, fx, params, sr)
    requires EchoDecay(params) == 0.0
    ensures PipelineDefined(x, fx["echo" := false], params, sr)
    ensures Pipeline(x, fx, params, sr) == Pipeline(x, fx["echo" := false], params, sr)
  {
    var fx' := fx["echo" := false];
    assert forall k :: k != "echo" ==> (Flag(fx, k) <==> Flag(fx', k));
    var b := CompressStage(NormalizeStage(x, fx), fx);
    EchoIdentity(b, EchoDelaySamples(params, sr), 0.0);
  }

  /** The end-to-end fade-in case: 2 s at 48 kHz with a 0.5 s fade-in ramps
      the first 24000 samples from 0 and leaves the rest unchanged. */
  lemma FadeInScenario(x: seq<real>, params: map<string, real>)
    requires |x| == 96000
    requires Param(params, "fade_duration", 0.5) == 0.5
    ensures PipelineDefined(x, map["fade_in" := true], params, 48000.0)
    ensures var r := Pipeline(x, map["fade_in" := true], params, 48000.0);
      && |r| == 96000
      && (forall i :: 0 <= i < 24000 ==> r[i] == x[i] * (i as real / 23999.0))
      && (forall i :: 24000 <= i < 96000 ==> r[i] == x[i])
  {
    var fx := map["fade_in" := true];
    assert Trunc(0.5 * 48000.0) == 24000;
    assert FadeLen(params, 48000.0, 96000) == 24000;
    assert Pipeline(x, fx, params, 48000.0) == FadeIn(x, 24000);
  }

  // ------------------------------------------------- _rebuild, step by step

  /** `data = original_data.copy()`. */
  method CopyOf(x: seq<real>) returns (a: array<real>)
    ensures fresh(a) && a[..] == x
  {
    a := new real[|x|](i requires 0 <= i < |x| => x[i]);
  }

  /** `np.max(np.abs(data))`, as a running maximum. */
  method PeakOf(a: array<real>) returns (p: real)
    ensures p == Peak(a[..])
  {
    p := 0.0;
    var i := 0;
    while i < a.Length
      invariant 0 <= i <= a.Length
      invariant p == Peak(a[..i])
    {
      assert a[..i + 1][..i] == a[..i];
      p := MaxReal(p, AbsReal(a[i]));
      i := i + 1;
    }
    assert a[..a.Length] == a[..];
  }

  /** `data * c`, a new array. */
  method ScaleOf(a: array<real>, c: real) returns (b: array<real>)
    ensures fresh(b) && b[..] == Scale(a[..], c)
  {
    b := new real[a.Length](i reads a requires 0 <= i < a.Length => a[i] * c);
    forall i | 0 <= i < a.Length ensures b[i] == Scale(a[..], c)[i] {
      assert a[..][i] == a[i];
    }
  }

  /** `data[mask] = sign * (threshold + excess / ratio)` in place. */
  method CompressInPlace(a: array<real>)
    modifies a
    ensures a[..] == Compress(old(a[..]))
  {
    var i := 0;
    while i < a.Length
      invariant 0 <= i <= a.Length
      invariant forall j :: 0 <= j < i ==> a[j] == CompressSample(old(a[j]))
      invariant forall j :: i <= j < a.Length ==> a[j] == old(a[j])
    {
      if AbsReal(a[i]) > Threshold {
        a[i] := Sign(a[i]) * (Threshold + (AbsReal(a[i]) - Threshold) / Ratio);
      }
      i := i + 1;
    }
  }

  /** The buffer `out` of the echo stage once `data` is added and the first
      `k` delayed samples are mixed in. */
  function EchoBuffer(x: seq<real>, d: nat, decay: real, k: nat): (r: seq<real>)
    ensures |r| == |x| + d
  {
    seq(|x| + d, j requires 0 <= j < |x| + d =>
      (if j < |x| then x[j] else 0.0) + (if d <= j < d + k && j - d < |x| then x[j - d] * decay else 0.0))
  }

  /** `out = np.zeros(len + d); out[:len] = data`: before any delayed
      sample is added the buffer is the input followed by `d` zeros. */
  lemma EchoBufferStart(x: seq<real>, d: nat, decay: real)
    ensures EchoBuffer(x, d, decay, 0)[..|x|] == x
    ensures forall j :: |x| <= j < |x| + d ==> EchoBuffer(x, d, decay, 0)[j] == 0.0
  {
  }

  lemma EchoBufferStep(x: seq<real>, d: nat, decay: real, k: nat)
    requires k < |x|
    ensures EchoBuffer(x, d, decay, k)[d + k := EchoBuffer(x, d, decay, k)[d + k] + x[k] * decay]
         == EchoBuffer(x, d, decay, k + 1)
  {
    var u := EchoBuffer(x, d, decay, k);
    var v := EchoBuffer(x, d, decay, k + 1);
    var w := u[d + k := u[d + k] + x[k] * decay];
    forall j | 0 <= j < |x| + d ensures w[j] == v[j] {
      if j == d + k {
        assert u[j] == (if j < |x| then x[j] else 0.0) + 0.0;
        assert v[j] == (if j < |x| then x[j] else 0.0) + x[k] * decay;
      }
    }
    assert w == v;
  }

  /** Cutting the full buffer back to the input length gives `Echo`. */
  lemma EchoBufferPrefix(x: seq<real>, d: nat, decay: real)
    ensures EchoBuffer(x, d, decay, |x|)[..|x|] == Echo(x, d, decay)
  {
  }

  /** `out = zeros(len + d); out[:len] += data; out[d:] += data * decay;
      data = out[:len]`. */
  method EchoOf(a: array<real>, d: nat, decay: real) returns (b: array<real>)
    ensures fresh(b) && b[..] == Echo(a[..], d, decay)
  {
    var n := a.Length;
    var out := new real[n + d](_ => 0.0);
    var i := 0;
    while i < n
      invariant 0 <= i <= n
      invariant forall j :: 0 <= j < n + d ==> out[j] == if j < i then a[j] else 0.0
    {
      out[i] := out[i] + a[i];
      i := i + 1;
    }
    assert out[..] == EchoBuffer(a[..], d, decay, 0);
    AddDelayed(out, a, d, decay);
    EchoBufferPrefix(a[..], d, decay);
    b := new real[n](j reads out requires 0 <= j < n => if j < out.Length then out[j] else 0.0);
    assert b[..] == out[..][..n];
  }

  /** `out[d:] += data * decay`. */
  method AddDelayed(out: array<real>, a: array<real>, d: nat, decay: real)
    requires out != a && out.Length == a.Length + d
    requires out[..] == EchoBuffer(a[..], d, decay, 0)
    modifies out
    ensures out[..] == EchoBuffer(a[..], d, decay, a.Length)
  {
    ghost var x := a[..];
    var i := 0;
    while i < a.Length
      invariant 0 <= i <= a.Length
      invariant out[..] == EchoBuffer(x, d, decay, i)
    {
      EchoBufferStep(x, d, decay, i);
      ghost var before := out[..];
      assert a[i] == x[i];
      var t := out[d + i] + a[i] * decay;
      assert t == before[d + i] + x[i] * decay;
      out[d + i] := t;
      assert out[..] == before[d + i := t];
      i := i + 1;
    }
  }

  /** `np.interp(np.arange(0, len, step)[< len], np.arange(len), data)`. */
  method ResampleOf(a: array<real>, num: nat, den: nat) returns (b: array<real>)
    requires a.Length > 0 && num > 0 && den > 0
    ensures fresh(b) && b[..] == Resample(a[..], num, den)
  {
    var x := a[..];
    var m := ResampleLen(a.Length, num, den);
    b := new real[m](k requires 0 <= k < m => Interp(x, Position(k, num, den)));
  }

  /** `data[:smp] *= np.linspace(0, 1, smp)` in place. */
  method FadeInInPlace(a: array<real>, smp: nat)
    requires smp <= a.Length
    modifies a
    ensures a[..] == FadeIn(old(a[..]), smp)
  {
    var i := 0;
    while i < smp
      invariant 0 <= i <= smp
      invariant forall j :: 0 <= j < i ==> a[j] == old(a[j]) * Linspace(0.0, 1.0, smp, j)
      invariant forall j :: i <= j < a.Length ==> a[j] == old(a[j])
    {
      a[i] := a[i] * Linspace(0.0, 1.0, smp, i);
      i := i + 1;
    }
    forall j | 0 <= j < a.Length ensures a[j] == FadeIn(old(a[..]), smp)[j] {
      assert old(a[..])[j] == old(a[j]);
    }
  }

  /** `data[-smp:] *= np.linspace(1, 0, smp)` in place. */
  method FadeOutInPlace(a: array<real>, smp: nat)
    requires smp <= a.Length && (smp >= 1 || a.Length == 0)
    modifies a
    ensures a[..] == FadeOut(old(a[..]), smp)
  {
    var n := a.Length;
    var i := n - smp;
    while i < n
      invariant n - smp <= i <= n
      invariant forall j :: n - smp <= j < i ==> a[j] == old(a[j]) * Linspace(1.0, 0.0, smp, j - (n - smp))
      invariant forall j :: 0 <= j < n - smp || i <= j < n ==> a[j] == old(a[j])
    {
      a[i] := a[i] * Linspace(1.0, 0.0, smp, i - (n - smp));
      i := i + 1;
    }
    forall j | 0 <= j < n ensures a[j] == FadeOut(old(a[..]), smp)[j] {
      assert old(a[..])[j] == old(a[j]);
    }
  }

  /** The normalize stage of `_rebuild`. */
  method NormalizeRun(data: array<real>, fx: map<string, bool>) returns (out: array<real>)
    requires Flag(fx, "normalize") ==> data.Length > 0
    ensures out[..] == NormalizeStage(data[..], fx)
    ensures out == data || fresh(out)
  {
    out := data;
    if Flag(fx, "normalize") {
      var peak := PeakOf(data);
      if peak > 0.0 {
        out := ScaleOf(data, 0.95 / peak);
      }
    }
  }

  method CompressRun(data: array<real>, fx: map<string, bool>)
    modifies data
    ensures data[..] == CompressStage(old(data[..]), fx)
  {
    if Flag(fx, "compress") {
      CompressInPlace(data);
    }
  }

  method EchoRun(data: array<real>, fx: map<string, bool>, params: map<string, real>, sr: real)
    returns (out: array<real>)
    requires Flag(fx, "echo") ==> EchoDelaySamples(params, sr) >= 0
    ensures out[..] == EchoStage(data[..], fx, params, sr)
    ensures out == data || fresh(out)
  {
    out := data;
    if Flag(fx, "echo") {
      out := EchoOf(data, EchoDelaySamples(params, sr), EchoDecay(params));
    }
  }

  method SpeedRun(data: array<real>, fx: map<string, bool>) returns (out: array<real>)
    requires (Flag(fx, "speed_up") || Flag(fx, "slow_down")) ==> data.Length > 0
    ensures out[..] == SpeedStage(data[..], fx)
    ensures out == data || fresh(out)
  {
    out := data;
    if Flag(fx, "speed_up") {
      out := ResampleOf(data, SpeedUpNum, SpeedUpDen);
    } else if Flag(fx, "slow_down") {
      out := ResampleOf(data, SlowDownNum, SlowDownDen);
    }
  }

  method FadeInRun(data: array<real>, fx: map<string, bool>, params: map<string, real>, sr: real)
    requires Flag(fx, "fade_in") ==> Trunc(Param(params, "fade_duration", 0.5) * sr) >= 0
    modifies data
    ensures data[..] == FadeInStage(old(data[..]), fx, params, sr)
  {
    if Flag(fx, "fade_in") {
      FadeInInPlace(data, FadeLen(params, sr, data.Length));
    }
  }

  method FadeOutRun(data: array<real>, fx: map<string, bool>, params: map<string, real>, sr: real)
    requires Flag(fx, "fade_out") ==> Trunc(Param(params, "fade_duration", 0.5) * sr) >= 0
    requires Flag(fx, "fade_out") && data.Length > 0 ==> Trunc(Param(params, "fade_duration", 0.5) * sr) >= 1
    modifies data
    ensures data[..] == FadeOutStage(old(data[..]), fx, params, sr)
  {
    if Flag(fx, "fade_out") {
      FadeOutInPlace(data, FadeLen(params, sr, data.Length));
    }
  }

  /** The body of `_rebuild` after initialisation: the stages run on a copy
      of the original samples, and the result is `Pipeline`. */
  method RebuildSamples(orig: seq<real>, fx: map<string, bool>, params: map<string, real>, sr: real)
    returns (r: seq<real>)
    requires PipelineDefined(orig, fx, params, sr)
    ensures r == Pipeline(orig, fx, params, sr)
  {
    var data := CopyOf(orig);
    data := NormalizeRun(data, fx);
    CompressRun(data, fx);
    data := EchoRun(data, fx, params, sr);
    data := SpeedRun(data, fx);
    FadeInRun(data, fx, params, sr);
    FadeOutRun(data, fx, params, sr);
    r := data[..];
  }

  // ------------------------------------------------------ the sound record

  /** The flags after `init_sound_effects`: the stored ones, or all off. */
  function EffectsOf(fx: Option<map<string, bool>>): map<string, bool>
  {
    if fx.None? then AllOff() else fx.value
  }

  /** The parameters after `init_sound_effects`: the stored ones, or the defaults. */
  function ParamsOf(params: Option<map<string, real>>): map<string, real>
  {
    if params.None? then DefaultParams else params.value
  }

  /** The clean copy after `init_sound_effects`: the stored one, or `data`. */
  function OriginalOf(orig: Option<seq<real>>, data: seq<real>): seq<real>
  {
    if orig.None? then data else orig.value
  }

  /** `_rebuild` on this record does not raise. */
  predicate RebuildDefined(s: Sound, sr: real)
    reads s
  {
    PipelineDefined(OriginalOf(s.originalData, s.data), EffectsOf(s.effects), ParamsOf(s.effectParams), sr)
  }

  /** `init_sound_effects`: adds each missing field, leaves present ones and
      every other field alone, so a second call changes nothing. */
  method InitSoundEffects(s: Sound)
    modifies s
    ensures s.effects == Some(EffectsOf(old(s.effects)))
    ensures s.effectParams == Some(ParamsOf(old(s.effectParams)))
    ensures s.originalData == Some(OriginalOf(old(s.originalData), old(s.data)))
    ensures old(s.effects).Some? ==> s.effects == old(s.effects)
    ensures old(s.effectParams).Some? ==> s.effectParams == old(s.effectParams)
    ensures old(s.originalData).Some? ==> s.originalData == old(s.originalData)
    ensures s.data == old(s.data) && s.pos == old(s.pos) && s.playing == old(s.playing)
    ensures s.volume == old(s.volume) && s.hotkey == old(s.hotkey)
  {
    if s.effects.None? {
      s.effects := Some(AllOff());
    }
    if s.effectParams.None? {
      s.effectParams := Some(DefaultParams);
    }
    if s.originalData.None? {
      s.originalData := Some(s.data);
    }
  }

  /** `_rebuild`: `data` becomes the pipeline applied to the clean copy, which
      itself is never changed; position, playing state, volume and hotkey are
      kept. */
  method Rebuild(s: Sound, sr: real)
    requires RebuildDefined(s, sr)
    modifies s
    ensures s.effects == Some(EffectsOf(old(s.effects)))
    ensures s.effectParams == Some(ParamsOf(old(s.effectParams)))
    ensures s.originalData == Some(OriginalOf(old(s.originalData), old(s.data)))
    ensures s.data == Pipeline(OriginalOf(old(s.originalData), old(s.data)),
                               EffectsOf(old(s.effects)), ParamsOf(old(s.effectParams)), sr)
    ensures s.pos == old(s.pos) && s.playing == old(s.playing)
    ensures s.volume == old(s.volume) && s.hotkey == old(s.hotkey)
  {
    InitSoundEffects(s);
    s.data := RebuildSamples(s.originalData.value, s.effects.value, s.effectParams.value, sr);
  }

  /** `toggle_effect`: flips one flag (a missing flag counts as off), rebuilds,
      rewinds, and returns the new flag. */
  method ToggleEffect(s: Sound, key: string, sr: real) returns (on: bool)
    requires PipelineDefined(OriginalOf(s.originalData, s.data),
                             EffectsOf(s.effects)[key := !Flag(EffectsOf(s.effects), key)],
                             ParamsOf(s.effectParams), sr)
    modifies s
    ensures on == !Flag(EffectsOf(old(s.effects)), key)
    ensures s.effects == Some(EffectsOf(old(s.effects))[key := on])
    ensures s.effectParams == Some(ParamsOf(old(s.effectParams)))
    ensures s.originalData == Some(OriginalOf(old(s.originalData), old(s.data)))
    ensures s.data == Pipeline(OriginalOf(old(s.originalData), old(s.data)),
                               EffectsOf(old(s.effects))[key := on], ParamsOf(old(s.effectParams)), sr)
    ensures s.pos == 0 && s.playing == old(s.playing)
    ensures s.volume == old(s.volume) && s.hotkey == old(s.hotkey)
  {
    InitSoundEffects(s);
    var current := Flag(s.effects.value, key);
    s.effects := Some(s.effects.value[key := !current]);
    Rebuild(s, sr);
    s.pos := 0;
    on := !current;
  }

  /** `set_effect`. */
  method SetEffect(s: Sound, key: string, enabled: bool, sr: real)
    requires PipelineDefined(OriginalOf(s.originalData, s.data), EffectsOf(s.effects)[key := enabled],
                             ParamsOf(s.effectParams), sr)
    modifies s
    ensures s.effects == Some(EffectsOf(old(s.effects))[key := enabled])
    ensures s.effectParams == Some(ParamsOf(old(s.effectParams)))
    ensures s.originalData == Some(OriginalOf(old(s.originalData), old(s.data)))
    ensures s.data == Pipeline(OriginalOf(old(s.originalData), old(s.data)),
                               EffectsOf(old(s.effects))[key := enabled], ParamsOf(old(s.effectParams)), sr)
    ensures s.pos == 0 && s.playing == old(s.playing)
    ensures s.volume == old(s.volume) && s.hotkey == old(s.hotkey)
  {
    InitSoundEffects(s);
    s.effects := Some(s.effects.value[key := enabled]);
    Rebuild(s, sr);
    s.pos := 0;
  }

  /** `set_effect_param`. */
  method SetEffectParam(s: Sound, param: string, value: real, sr: real)
    requires PipelineDefined(OriginalOf(s.originalData, s.data), EffectsOf(s.effects),
                             ParamsOf(s.effectParams)[param := value], sr)
    modifies s
    ensures s.effects == Some(EffectsOf(old(s.effects)))
    ensures s.effectParams == Some(ParamsOf(old(s.effectParams))[param := value])
    ensures s.originalData == Some(OriginalOf(old(s.originalData), old(s.data)))
    ensures s.data == Pipeline(OriginalOf(old(s.originalData), old(s.data)),
                               EffectsOf(old(s.effects)), ParamsOf(old(s.effectParams))[param := value], sr)
    ensures s.pos == 0 && s.playing == old(s.playing)
    ensures s.volume == old(s.volume) && s.hotkey == old(s.hotkey)
  {
    InitSoundEffects(s);
    s.effectParams := Some(s.effectParams.value[param := value]);
    Rebuild(s, sr);
    s.pos := 0;
  }

  /** `max(0, int(start_sec * SR))`. */
  function TrimStart(startSec: real, sr: real): (st: int)
    ensures st >= 0
  {
    MaxInt(0, Trunc(startSec * sr))
  }

  /** `min(len(original), int(end_sec * SR))`. */
  function TrimEnd(n: nat, endSec: real, sr: real): (e: int)
    ensures e <= n
  {
    MinInt(n, Trunc(endSec * sr))
  }

  /** The trimmed clean copy `original[s:e]`, or `None` when `e <= s` and
      the trim is refused. */
  function TrimmedOriginal(orig: seq<real>, startSec: real, endSec: real, sr: real): (r: Option<seq<real>>)
    ensures r.Some? <==> TrimStart(startSec, sr) < TrimEnd(|orig|, endSec, sr)
    ensures r.Some? ==> |r.value| == TrimEnd(|orig|, endSec, sr) - TrimStart(startSec, sr)
    ensures r.Some? ==> forall i :: 0 <= i < |r.value| ==> r.value[i] == orig[TrimStart(startSec, sr) + i]
  {
    var st := TrimStart(startSec, sr);
    var e := TrimEnd(|orig|, endSec, sr);
    if e > st then Some(orig[st..e]) else None
  }

  /** A trim to the whole buffer, or wider, keeps every sample. */
  lemma TrimWholeIsIdentity(orig: seq<real>, endSec: real, sr: real)
    requires orig != [] && Trunc(endSec * sr) >= |orig|
    ensures TrimmedOriginal(orig, 0.0, endSec, sr) == Some(orig)
  {
    assert TrimStart(0.0, sr) == 0;
    assert orig[0..|orig|] == orig;
  }

  /** `trim_sound`: replaces the clean copy by `original[s:e]`, rebuilds and
      rewinds; a refused trim only initialises missing fields. */
  method TrimSound(s: Sound, startSec: real, endSec: real, sr: real)
    requires var t := TrimmedOriginal(OriginalOf(s.originalData, s.data), startSec, endSec, sr);
             t.Some? ==> PipelineDefined(t.value, EffectsOf(s.effects), ParamsOf(s.effectParams), sr)
    modifies s
    ensures s.effects == Some(EffectsOf(old(s.effects)))
    ensures s.effectParams == Some(ParamsOf(old(s.effectParams)))
    ensures var t := TrimmedOriginal(OriginalOf(old(s.originalData), old(s.data)), startSec, endSec, sr);
      if t.Some? then
        && s.originalData == t
        && s.data == Pipeline(t.value, EffectsOf(old(s.effects)), ParamsOf(old(s.effectParams)), sr)
        && s.pos == 0
      else
        && s.originalData == Some(OriginalOf(old(s.originalData), old(s.data)))
        && s.data == old(s.data)
        && s.pos == old(s.pos)
    ensures s.playing == old(s.playing) && s.volume == old(s.volume) && s.hotkey == old(s.hotkey)
  {
    InitSoundEffects(s);
    var original := s.originalData.value;
    var st := TrimStart(startSec, sr);
    var e := TrimEnd(|original|, endSec, sr);
    if e > st {
      s.originalData := Some(original[st..e]);
      Rebuild(s, sr);
      s.pos := 0;
    }
  }

  /** `reset_trim`: the clean copy becomes the given backup, then rebuild
      and rewind. */
  method ResetTrim(s: Sound, raw: seq<real>, sr: real)
    requires PipelineDefined(raw, EffectsOf(s.effects), ParamsOf(s.effectParams), sr)
    modifies s
    ensures s.originalData == Some(raw)
    ensures s.effects == Some(EffectsOf(old(s.effects)))
    ensures s.effectParams == Some(ParamsOf(old(s.effectParams)))
    ensures s.data == Pipeline(raw, EffectsOf(old(s.effects)), ParamsOf(old(s.effectParams)), sr)
    ensures s.pos == 0 && s.playing == old(s.playing)
    ensures s.volume == old(s.volume) && s.hotkey == old(s.hotkey)
  {
    s.originalData := Some(raw);
    Rebuild(s, sr);
    s.pos := 0;
  }
}
