/** Remotion's `interpolate(x, inputRange, outputRange, options)`: a piecewise-linear
    map through the breakpoints `(inputRange[k], outputRange[k])`, with an easing
    function applied to the position inside the segment and a choice, on each side,
    between extending the outer segment and clamping to its end value.

    The library's own source is not part of this model; this is its documented
    behaviour: the segment is found by a left-to-right scan, and the value is computed
    on that one segment. The `identity` and `wrap` extrapolation modes are not used by
    the transitions and are left out. */
module Interpolation {

  /** What happens to an input outside the breakpoints on one side. */
  datatype Extrapolate = Clamp | Extend

  /** `extrapolateLeft` and `extrapolateRight`. */
  datatype Options = Options(left: Extrapolate, right: Extrapolate)

  /** `{ extrapolateLeft: "clamp", extrapolateRight: "clamp" }`. */
  const Clamped: Options := Options(Clamp, Clamp)

  /** No options given: both sides extend. */
  const Extended: Options := Options(Extend, Extend)

  /** The default easing, the identity on the segment position. */
  function Linear(t: real): real {
    t
  }

  /** An easing curve that starts at 0 and ends at 1, as the cubic easings `WhipPan`
      passes do. Not every easing does: an exponential one starts above 0. */
  predicate FixesEnds(ease: real -> real) {
    ease(0.0) == 0.0 && ease(1.0) == 1.0
  }

  /** Strictly increasing, stated over every pair of positions. */
  predicate Increasing(s: seq<real>) {
    forall i, j :: 0 <= i < j < |s| ==> s[i] < s[j]
  }

  /** The ranges `interpolate` accepts: the same length, at least two breakpoints,
      strictly increasing inputs. */
  predicate Valid(input: seq<real>, output: seq<real>) {
    |input| == |output| && |input| >= 2 && Increasing(input)
  }

  /** Why `interpolate` throws. */
  datatype RangeError =
    | LengthMismatch(inputs: nat, outputs: nat)
    | TooFewPoints(length: nat)
    | NotIncreasing(index: nat)

  datatype Outcome = Value(value: real) | Thrown(error: RangeError)

  /** The scan that validates the input range: the first `i >= from` whose breakpoint
      does not exceed the one before it, if any. */
  function FirstDescent(input: seq<real>, from: nat): (r: nat)
    requires 1 <= from <= |input|
    ensures from <= r <= |input|
    ensures forall j :: from <= j < r ==> input[j - 1] < input[j]
    ensures r < |input| ==> input[r] <= input[r - 1]
    decreases |input| - from
  {
    if from == |input| || input[from] <= input[from - 1] then from else FirstDescent(input, from + 1)
  }

  /** Increasing over adjacent breakpoints is increasing over every pair. */
  lemma {:induction false} AdjacentIncreasing(s: seq<real>)
    requires forall j :: 1 <= j < |s| ==> s[j - 1] < s[j]
    ensures Increasing(s)
    decreases |s|
  {
    if |s| > 1 {
      var t := s[..|s| - 1];
      assert forall j :: 1 <= j < |t| ==> t[j - 1] < t[j] by {
        forall j | 1 <= j < |t|
          ensures t[j - 1] < t[j]
        {
          assert t[j - 1] == s[j - 1] && t[j] == s[j];
        }
      }
      AdjacentIncreasing(t);
      forall i, j | 0 <= i < j < |s|
        ensures s[i] < s[j]
      {
        if j < |s| - 1 {
          assert s[i] == t[i] && s[j] == t[j];
        } else if i < |s| - 2 {
          assert s[i] == t[i] && s[|s| - 2] == t[|s| - 2];
        }
      }
    }
  }

  /** The checks `interpolate` makes before computing anything, in its order: equal
      lengths, at least two points, a strictly increasing input range. */
  function Check(input: seq<real>, output: seq<real>): (e: Option<RangeError>)
    ensures e.None? <==> Valid(input, output)
  {
    if |input| != |output| then Some(LengthMismatch(|input|, |output|))
    else if |input| < 2 then Some(TooFewPoints(|input|))
    else
      var d := FirstDescent(input, 1);
      if d < |input| then Some(NotIncreasing(d))
      else
        AdjacentIncreasing(input);
        None
  }

  datatype Option<T> = None | Some(value: T)

  /** The segment scan: the first `i` in `1 .. |input| - 2` with `input[i] >= x`, minus
      one, continuing from `i`; the last segment when there is none. */
  function FindFrom(x: real, input: seq<real>, i: nat): (r: nat)
    requires 1 <= i <= |input| - 1
    ensures i - 1 <= r <= |input| - 2
    ensures forall j :: i <= j <= r ==> input[j] < x
    ensures r + 1 < |input| - 1 ==> x <= input[r + 1]
    decreases |input| - i
  {
    if i == |input| - 1 || input[i] >= x then i - 1 else FindFrom(x, input, i + 1)
  }

  /** `findRange(x, inputRange)`: the index of the segment `x` is mapped through. */
  function FindRange(x: real, input: seq<real>): (r: nat)
    requires |input| >= 2
    ensures r <= |input| - 2
    ensures forall j :: 1 <= j <= r ==> input[j] < x
    ensures r + 1 < |input| - 1 ==> x <= input[r + 1]
  {
    FindFrom(x, input, 1)
  }

  /** The segment scan picks segment `k` exactly when `x` lies above its left end (or
      `k` is the first segment) and not above its right end (or `k` is the last). */
  lemma FindRangeIs(x: real, input: seq<real>, k: nat)
    requires |input| >= 2 && Increasing(input) && k <= |input| - 2
    ensures FindRange(x, input) == k <==>
      (k == 0 || input[k] < x) && (k == |input| - 2 || x <= input[k + 1])
  {
    var r := FindRange(x, input);
    if r + 1 < k {
      assert input[r + 1] < input[k];
    }
  }

  /** `interpolateFunction` on one segment: clamp the input if asked, return the end
      value when both ends agree, otherwise ease the position inside the segment and
      scale it onto the output. */
  function OnSegment(x: real, inMin: real, inMax: real, outMin: real, outMax: real,
                     options: Options, ease: real -> real): real
    requires inMin < inMax
  {
    var c :=
      if x < inMin && options.left == Clamp then inMin
      else if x > inMax && options.right == Clamp then inMax
      else x;
    if outMin == outMax then outMin
    else ease((c - inMin) / (inMax - inMin)) * (outMax - outMin) + outMin
  }

  /** `interpolate(x, input, output, { ...options, easing: ease })` on valid ranges. */
  function Interpolate(x: real, input: seq<real>, output: seq<real>, options: Options,
                       ease: real -> real): real
    requires Valid(input, output)
  {
    var k := FindRange(x, input);
    OnSegment(x, input[k], input[k + 1], output[k], output[k + 1], options, ease)
  }

  /** `interpolate` with its argument checks: it throws exactly on invalid ranges. */
  function CheckedInterpolate(x: real, input: seq<real>, output: seq<real>, options: Options,
                              ease: real -> real): (o: Outcome)
    ensures o.Value? <==> Valid(input, output)
    ensures o.Thrown? ==> Check(input, output) == Some(o.error)
  {
    match Check(input, output)
    case Some(e) => Thrown(e)
    case None => Value(Interpolate(x, input, output, options, ease))
  }

  /** The straight line through two breakpoints, evaluated at `x`. */
  function Line(x: real, x0: real, x1: real, y0: real, y1: real): real
    requires x0 < x1
  {
    y0 + (x - x0) / (x1 - x0) * (y1 - y0)
  }

  /** Passing through the breakpoints: with an easing that fixes 0 and 1, the value at
      `input[k]` is `output[k]`, whichever extrapolation is chosen. At an interior
      breakpoint both adjacent segments give this value, so the map is continuous. */
  lemma AtBreakpoint(input: seq<real>, output: seq<real>, options: Options, ease: real -> real, k: nat)
    requires Valid(input, output) && FixesEnds(ease) && k < |input|
    ensures Interpolate(input[k], input, output, options, ease) == output[k]
  {
    var x := input[k];
    if k == 0 {
      assert input[0] < input[1];
      FindRangeIs(x, input, 0);
      assert (x - input[0]) / (input[1] - input[0]) == 0.0;
    } else {
      assert input[k - 1] < input[k];
      FindRangeIs(x, input, k - 1);
      assert (x - input[k - 1]) / (input[k] - input[k - 1]) == 1.0;
    }
  }

  /** Both segments meeting at an interior breakpoint give it the same value. */
  lemma Continuous(input: seq<real>, output: seq<real>, options: Options, ease: real -> real, k: nat)
    requires Valid(input, output) && FixesEnds(ease) && 0 < k < |input| - 1
    ensures OnSegment(input[k], input[k - 1], input[k], output[k - 1], output[k], options, ease)
         == OnSegment(input[k], input[k], input[k + 1], output[k], output[k + 1], options, ease)
  {
    assert input[k - 1] < input[k] < input[k + 1];
    assert (input[k] - input[k - 1]) / (input[k] - input[k - 1]) == 1.0;
    assert (input[k] - input[k]) / (input[k + 1] - input[k]) == 0.0;
  }

  /** Inside the breakpoints, the linear map is the straight line through the two
      breakpoints around `x`. */
  lemma Between(x: real, input: seq<real>, output: seq<real>, options: Options, k: nat)
    requires Valid(input, output) && k < |input| - 1 && input[k] <= x <= input[k + 1]
    ensures Interpolate(x, input, output, options, Linear)
         == Line(x, input[k], input[k + 1], output[k], output[k + 1])
  {
    if k > 0 && x == input[k] {
      assert Linear(0.0) == 0.0 && Linear(1.0) == 1.0;
      AtBreakpoint(input, output, options, Linear, k);
    } else {
      FindRangeIs(x, input, k);
    }
  }

  /** Clamping on the left: every input at or below the first breakpoint gives the
      first output. */
  lemma ClampBelow(x: real, input: seq<real>, output: seq<real>, options: Options, ease: real -> real)
    requires Valid(input, output) && FixesEnds(ease) && options.left == Clamp && x <= input[0]
    ensures Interpolate(x, input, output, options, ease) == output[0]
  {
    FindRangeIs(x, input, 0);
    assert input[0] < input[1];
    assert (input[0] - input[0]) / (input[1] - input[0]) == 0.0;
  }

  /** Clamping on the right: every input at or above the last breakpoint gives the last
      output. */
  lemma ClampAbove(x: real, input: seq<real>, output: seq<real>, options: Options, ease: real -> real)
    requires Valid(input, output) && FixesEnds(ease) && options.right == Clamp && x >= input[|input| - 1]
    ensures Interpolate(x, input, output, options, ease) == output[|output| - 1]
  {
    var n := |input|;
    FindRangeIs(x, input, n - 2);
    assert input[n - 2] < input[n - 1];
    assert (input[n - 1] - input[n - 2]) / (input[n - 1] - input[n - 2]) == 1.0;
  }

  /** Extending on the left: below the first breakpoint the first segment's line is
      continued. */
  lemma ExtendBelow(x: real, input: seq<real>, output: seq<real>, options: Options)
    requires Valid(input, output) && options.left == Extend && x < input[0]
    ensures Interpolate(x, input, output, options, Linear) == Line(x, input[0], input[1], output[0], output[1])
  {
    FindRangeIs(x, input, 0);
    assert input[0] < input[1];
  }

  /** Extending on the right: above the last breakpoint the last segment's line is
      continued. */
  lemma ExtendAbove(x: real, input: seq<real>, output: seq<real>, options: Options)
    requires Valid(input, output) && options.right == Extend && x > input[|input| - 1]
    ensures var n := |input|;
      Interpolate(x, input, output, options, Linear)
        == Line(x, input[n - 2], input[n - 1], output[n - 2], output[n - 1])
  {
    var n := |input|;
    FindRangeIs(x, input, n - 2);
    assert input[n - 2] < input[n - 1];
  }

  /** Constant outputs give that constant everywhere, whatever the easing and the
      extrapolation: a segment with equal ends is never eased. */
  lemma ConstantOutputs(x: real, input: seq<real>, output: seq<real>, options: Options, ease: real -> real, c: real)
    requires Valid(input, output) && forall k :: 0 <= k < |output| ==> output[k] == c
    ensures Interpolate(x, input, output, options, ease) == c
  {
    var k := FindRange(x, input);
    assert output[k] == c && output[k + 1] == c;
  }

  /** The smaller and the larger of two reals. */
  function Min(a: real, b: real): real {
    if a <= b then a else b
  }

  function Max(a: real, b: real): real {
    if a <= b then b else a
  }

  /** A clamped linear map stays between the outputs of the segment it uses, hence
      within the outputs' range. */
  lemma ClampedWithin(x: real, input: seq<real>, output: seq<real>)
    requires Valid(input, output)
    ensures var k := FindRange(x, input);
      var v := Interpolate(x, input, output, Clamped, Linear);
      Min(output[k], output[k + 1]) <= v <= Max(output[k], output[k + 1])
  {
    var k := FindRange(x, input);
    var lo, hi := input[k], input[k + 1];
    assert lo < hi;
    var c := if x < lo then lo else if x > hi then hi else x;
    var t := (c - lo) / (hi - lo);
    Ratio(c - lo, hi - lo);
    UnitBlend(t, output[k], output[k + 1]);
  }

  /** `t * (q - p) + p` lies between `p` and `q` for `t` in [0, 1]. */
  lemma UnitBlend(t: real, p: real, q: real)
    requires 0.0 <= t <= 1.0
    ensures Min(p, q) <= t * (q - p) + p <= Max(p, q)
  {
    var d := if p <= q then q - p else p - q;
    MulNonNegative(t, d);
    MulNonNegative(1.0 - t, d);
    assert (1.0 - t) * d == d - t * d;
    assert p <= q ==> t * (q - p) == t * d;
    assert q < p ==> t * (q - p) == -(t * d);
  }

  /** A product of two non-negative reals is non-negative; scaling by a non-negative
      factor keeps an order. */
  lemma MulAtMost(a: real, b: real, s: real)
    requires s >= 0.0 && a <= b
    ensures a * s <= b * s
  {
    assert (b - a) * s >= 0.0;
  }

  lemma MulNonNegative(a: real, b: real)
    requires a >= 0.0 && b >= 0.0
    ensures a * b >= 0.0
  {
  }

  /** A ratio of a part to a positive whole lies in [0, 1], and is 1 exactly when the
      part is the whole. */
  lemma Ratio(a: real, b: real)
    requires 0.0 <= a <= b && b > 0.0
    ensures 0.0 <= a / b <= 1.0
    ensures a / b == 1.0 <==> a == b
  {
    assert (a / b) * b == a;
    assert (1.0 - a / b) * b == b - a;
  }

  /** `interpolate(x, [a, b], [p, q], clamp on both sides)`: the ramp most transitions
      are built from. */
  function Ramp(x: real, a: real, b: real, p: real, q: real): real
    requires a < b
  {
    Interpolate(x, [a, b], [p, q], Clamped, Linear)
  }

  /** `x` clamped into [a, b]. */
  function ClampTo(x: real, a: real, b: real): real {
    if x < a then a else if x > b then b else x
  }

  /** Where `x` stands in the ramp's window, from 0 at `a` to 1 at `b`. */
  function Progress(x: real, a: real, b: real): (t: real)
    requires a < b
    ensures 0.0 <= t <= 1.0
  {
    Ratio(ClampTo(x, a, b) - a, b - a);
    (ClampTo(x, a, b) - a) / (b - a)
  }

  /** A ramp is `p` moved towards `q` by the clamped progress through the window. */
  lemma RampClosedForm(x: real, a: real, b: real, p: real, q: real)
    requires a < b
    ensures Ramp(x, a, b, p, q) == p + Progress(x, a, b) * (q - p)
  {
    assert Valid([a, b], [p, q]) by {
      AdjacentIncreasing([a, b]);
    }
    FindRangeIs(x, [a, b], 0);
  }

  /** The boundary law of a ramp: `p` up to `a`, `q` from `b` on, and between `p` and
      `q` everywhere; inside the window it is the straight line from `(a, p)` to
      `(b, q)`. */
  lemma RampFacts(x: real, a: real, b: real, p: real, q: real)
    requires a < b
    ensures x <= a ==> Ramp(x, a, b, p, q) == p
    ensures x >= b ==> Ramp(x, a, b, p, q) == q
    ensures Min(p, q) <= Ramp(x, a, b, p, q) <= Max(p, q)
    ensures a <= x <= b ==> Ramp(x, a, b, p, q) == Line(x, a, b, p, q)
  {
    RampClosedForm(x, a, b, p, q);
    var t := Progress(x, a, b);
    assert t * (q - p) + p == p + t * (q - p);
    UnitBlend(t, p, q);
    if x <= a {
      assert ClampTo(x, a, b) == a;
    }
    if x >= b {
      assert ClampTo(x, a, b) == b;
      Ratio(b - a, b - a);
      assert t == 1.0;
    }
  }

  /** Two ramps over one window with swapped ends always sum to `p + q`: what one
      gains the other loses. */
  lemma RampComplement(x: real, a: real, b: real, p: real, q: real)
    requires a < b
    ensures Ramp(x, a, b, p, q) + Ramp(x, a, b, q, p) == p + q
  {
    RampClosedForm(x, a, b, p, q);
    RampClosedForm(x, a, b, q, p);
    var t := Progress(x, a, b);
    assert t * (q - p) + t * (p - q) == 0.0;
  }

  /** The clamped progress never decreases as `x` grows. */
  lemma ProgressMonotone(x: real, y: real, a: real, b: real)
    requires a < b && x <= y
    ensures Progress(x, a, b) <= Progress(y, a, b)
  {
    var u, v := ClampTo(x, a, b) - a, ClampTo(y, a, b) - a;
    assert 0.0 <= u <= v <= b - a;
    Ratio(v - u, b - a);
    DivDifference(v, u, b - a);
  }

  /** Dividing a difference is the difference of the quotients. */
  lemma DivDifference(v: real, u: real, d: real)
    requires d > 0.0
    ensures v / d - u / d == (v - u) / d
  {
    assert (v / d) * d == v && (u / d) * d == u;
    assert (v / d - u / d) * d == v - u;
  }

  /** A ramp towards a larger value never decreases, and one towards a smaller value
      never increases. */
  lemma RampMonotone(x: real, y: real, a: real, b: real, p: real, q: real)
    requires a < b && x <= y
    ensures p <= q ==> Ramp(x, a, b, p, q) <= Ramp(y, a, b, p, q)
    ensures q <= p ==> Ramp(y, a, b, p, q) <= Ramp(x, a, b, p, q)
  {
    RampClosedForm(x, a, b, p, q);
    RampClosedForm(y, a, b, p, q);
    var s, t := Progress(x, a, b), Progress(y, a, b);
    ProgressMonotone(x, y, a, b);
    ScaleMonotone(s, t, q - p);
    if q <= p {
      assert p + t * (q - p) <= p + s * (q - p);
    } else {
      assert p + s * (q - p) <= p + t * (q - p);
    }
  }

  /** Multiplying by a fixed factor keeps or reverses an order, by its sign. */
  lemma ScaleMonotone(s: real, t: real, d: real)
    requires s <= t
    ensures d >= 0.0 ==> s * d <= t * d
    ensures d <= 0.0 ==> t * d <= s * d
  {
    assert t * d - s * d == (t - s) * d;
    if d >= 0.0 {
      assert (t - s) * d >= 0.0;
    } else {
      assert (t - s) * (-d) >= 0.0;
    }
  }

  /** Shifting the input and the window by the same amount changes nothing: a ramp
      depends only on how far into its window `x` is. */
  lemma RampShift(x: real, c: real, a: real, b: real, p: real, q: real)
    requires a < b
    ensures Ramp(x - c, a - c, b - c, p, q) == Ramp(x, a, b, p, q)
  {
    RampClosedForm(x - c, a - c, b - c, p, q);
    RampClosedForm(x, a, b, p, q);
    assert ClampTo(x - c, a - c, b - c) - (a - c) == ClampTo(x, a, b) - a;
    assert (b - c) - (a - c) == b - a;
  }

  /** `interpolate(t, [0, 1], [p, q])` with the default extrapolation on both sides:
      how a spring's progress is carried onto a property. */
  function Lerp(t: real, p: real, q: real): real {
    AdjacentIncreasing([0.0, 1.0]);
    Interpolate(t, [0.0, 1.0], [p, q], Extended, Linear)
  }

  /** Extending on both sides makes the map the straight line through `(0, p)` and
      `(1, q)` everywhere, also for a progress that overshoots 1 or undershoots 0. */
  lemma LerpIsLine(t: real, p: real, q: real)
    ensures Lerp(t, p, q) == p + t * (q - p)
  {
    AdjacentIncreasing([0.0, 1.0]);
    if t < 0.0 {
      ExtendBelow(t, [0.0, 1.0], [p, q], Extended);
    } else if t > 1.0 {
      ExtendAbove(t, [0.0, 1.0], [p, q], Extended);
    } else {
      Between(t, [0.0, 1.0], [p, q], Extended, 0);
    }
    assert Line(t, 0.0, 1.0, p, q) == p + t * (q - p);
  }

  /** `interpolate(x, [a, b, c, d], [0, peak, peak, 0])` clamped on both sides: an
      overlay that fades in over [a, b], holds `peak` over [b, c] and fades out over
      [c, d]. */
  function Plateau(x: real, a: real, b: real, c: real, d: real, peak: real): real
    requires a < b < c < d
  {
    AdjacentIncreasing([a, b, c, d]);
    Interpolate(x, [a, b, c, d], [0.0, peak, peak, 0.0], Clamped, Linear)
  }

  /** A plateau is the lower of its rising ramp and its falling ramp. */
  lemma PlateauIsMin(x: real, a: real, b: real, c: real, d: real, peak: real)
    requires a < b < c < d && peak >= 0.0
    ensures Plateau(x, a, b, c, d, peak) == Min(Ramp(x, a, b, 0.0, peak), Ramp(x, c, d, peak, 0.0))
  {
    var input, output := [a, b, c, d], [0.0, peak, peak, 0.0];
    AdjacentIncreasing(input);
    RampFacts(x, a, b, 0.0, peak);
    RampFacts(x, c, d, peak, 0.0);
    assert Linear(0.0) == 0.0 && Linear(1.0) == 1.0;
    if x <= a {
      ClampBelow(x, input, output, Clamped, Linear);
    } else if x <= b {
      Between(x, input, output, Clamped, 0);
    } else if x <= c {
      Between(x, input, output, Clamped, 1);
    } else if x <= d {
      Between(x, input, output, Clamped, 2);
    } else {
      ClampAbove(x, input, output, Clamped, Linear);
    }
  }

  /** The law of a plateau: 0 outside (a, d), positive inside it, `peak` on [b, c],
      never above `peak`. */
  lemma PlateauFacts(x: real, a: real, b: real, c: real, d: real, peak: real)
    requires a < b < c < d && peak > 0.0
    ensures x <= a || x >= d ==> Plateau(x, a, b, c, d, peak) == 0.0
    ensures a < x < d ==> Plateau(x, a, b, c, d, peak) > 0.0
    ensures b <= x <= c ==> Plateau(x, a, b, c, d, peak) == peak
    ensures 0.0 <= Plateau(x, a, b, c, d, peak) <= peak
  {
    PlateauIsMin(x, a, b, c, d, peak);
    RampFacts(x, a, b, 0.0, peak);
    RampFacts(x, c, d, peak, 0.0);
    if a < x < b {
      Positive(x - a, b - a, peak);
    }
    if c < x < d {
      Positive(d - x, d - c, peak);
      assert Line(x, c, d, peak, 0.0) == (d - x) / (d - c) * peak;
    }
  }

  /** A positive share of a positive value is positive. */
  lemma Positive(u: real, v: real, p: real)
    requires u > 0.0 && v > 0.0 && p > 0.0
    ensures u / v * p > 0.0
  {
  }
}
