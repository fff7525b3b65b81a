/**
 The adaptive cost thresholds. Costs are reals. The functions of Python's `statistics` module and the
 rounding to cents are parameters; what is assumed of them is stated as a hypothesis.
 */
module Thresholds {
  import opened Collections

  datatype Levels = Levels(warning: real, critical: real, emergency: real)

  datatype Threshold = Threshold(levels: Levels, baseline: real)

  /** A configured default, as it was written: a level may be missing, or be something that is not a
      number. The configuration keeps such an entry in the place of the complete one it overrides. */
  datatype Default = Default(warning: Option<real>, critical: Option<real>, emergency: Option<real>)

  datatype Settings = Settings(defaults: map<string, Default>, minDatapoints: int)

  /** `mean`, `stdev` and `round`. */
  datatype Numerics = Numerics(mean: seq<real> -> real, stdev: seq<real> -> real, round: real -> real)

  const FALLBACK := Default(Some(500.0), Some(2000.0), Some(5000.0))

  function DefaultsFor(s: Settings, resourceType: string): Default {
    if resourceType in s.defaults then s.defaults[resourceType] else FALLBACK
  }

  predicate Complete(d: Default) {
    d.warning.Some? && d.critical.Some? && d.emergency.Some?
  }

  function LevelsIn(d: Default): Levels
    requires Complete(d)
  {
    Levels(d.warning.value, d.critical.value, d.emergency.value)
  }

  function Rounded(m: Numerics, l: Levels): Levels {
    Levels((m.round)(l.warning), (m.round)(l.critical), (m.round)(l.emergency))
  }

  /** The levels one, two and three deviations above the mean. */
  function Dynamic(mean: real, sd: real): Levels {
    Levels(mean + sd, mean + 2.0 * sd, mean + 3.0 * sd)
  }

  /** None stands for an exception: of a mean or deviation of too few points, which a `minDatapoints`
      below two lets through, or of a default that lacks a level. */
  function Calculate(m: Numerics, s: Settings, resourceType: string, xs: seq<real>): Option<Threshold> {
    if |xs| >= s.minDatapoints then
      if |xs| < 2 then None
      else
        var mean := (m.mean)(xs);
        Some(Threshold(Rounded(m, Dynamic(mean, (m.stdev)(xs))), (m.round)(mean)))
    else
      var d := DefaultsFor(s, resourceType);
      if !Complete(d) then None
      else Some(Threshold(Rounded(m, LevelsIn(d)), (m.round)(d.warning.value * 0.5)))
  }

  /** Exactly the settings with which no history of a type makes the calculation fail. */
  lemma CalculationNeverFails(m: Numerics, s: Settings, resourceType: string)
    ensures (forall xs: seq<real> :: Calculate(m, s, resourceType, xs).Some?)
       <==> s.minDatapoints >= 2 && Complete(DefaultsFor(s, resourceType))
  {
    if s.minDatapoints < 2 {
      var xs: seq<real> := if s.minDatapoints <= 0 then [] else [0.0];
      assert Calculate(m, s, resourceType, xs).None?;
    } else if !Complete(DefaultsFor(s, resourceType)) {
      assert Calculate(m, s, resourceType, []).None?;
    }
  }

  /** An override that gives the warning level alone: the calculation fails until there are enough costs,
      whatever else is configured. */
  lemma PartialOverrideFails(m: Numerics, s: Settings, xs: seq<real>)
    requires "ec2:instance" in s.defaults && s.defaults["ec2:instance"] == Default(Some(300.0), None, None)
    ensures |xs| < s.minDatapoints ==> Calculate(m, s, "ec2:instance", xs).None?
  {
  }

  // ---------------------------------------------------------------- hypotheses

  function Sum(xs: seq<real>): real {
    if xs == [] then 0.0 else Sum(xs[..|xs| - 1]) + xs[|xs| - 1]
  }

  function Square(x: real): real { x * x }

  /** The sum of the squared distances from `c`. */
  function Spread(xs: seq<real>, c: real): real {
    if xs == [] then 0.0 else Spread(xs[..|xs| - 1], c) + Square(xs[|xs| - 1] - c)
  }

  /** `mean` is the arithmetic mean of `n` values that sum to `sum`. */
  predicate IsMean(n: real, sum: real, mean: real) {
    mean * n == sum
  }

  /** `sd` is the sample standard deviation, over n - 1, of `n` values spread by `spread` around their mean. */
  predicate IsDeviation(n: real, spread: real, sd: real) {
    sd >= 0.0 && Square(sd) * (n - 1.0) == spread
  }

  predicate Describes(xs: seq<real>, mean: real, sd: real) {
    IsMean(|xs| as real, Sum(xs), mean) && IsDeviation(|xs| as real, Spread(xs, mean), sd)
  }

  /** `statistics.mean` and `statistics.stdev` on exact reals, where both are defined. */
  ghost predicate GoodStatistics(m: Numerics) {
    forall xs :: |xs| >= 2 ==> Describes(xs, (m.mean)(xs), (m.stdev)(xs))
  }

  ghost predicate MonotoneRounding(m: Numerics) {
    forall x, y :: x <= y ==> (m.round)(x) <= (m.round)(y)
  }

  ghost predicate NoRounding(m: Numerics) {
    forall x :: (m.round)(x) == x
  }

  // ---------------------------------------------------------------- products

  lemma ProductOrder(n: real, x: real, y: real)
    requires n > 0.0 && x < y
    ensures x * n < y * n
  {
  }

  lemma Cancel(w: real, x: real, y: real)
    requires w > 0.0 && x * w <= y * w
    ensures x <= y
  {
    if y < x {
      ProductOrder(w, y, x);
    }
  }

  lemma SquareIsNonNegative(x: real)
    ensures Square(x) >= 0.0
  {
  }

  lemma SquaresOrder(x: real, y: real)
    requires 0.0 <= x <= y
    ensures Square(x) <= Square(y)
  {
  }

  lemma Scaled(n: real, x: real, y: real)
    requires n >= 0.0 && x <= y
    ensures n * x <= n * y
  {
  }

  // ---------------------------------------------------------------- the floor

  /** All levels are at least `floor`. */
  predicate Above(l: Levels, floor: real) {
    floor <= l.warning && floor <= l.critical && floor <= l.emergency
  }

  /** So are the levels of a default, if it is one that can be used. */
  predicate DefaultAbove(d: Default, floor: real) {
    Complete(d) ==> Above(LevelsIn(d), floor)
  }

  predicate InOrder(l: Levels) {
    l.warning <= l.critical <= l.emergency
  }

  lemma {:induction false} SumAboveFloor(xs: seq<real>, floor: real)
    requires forall i :: 0 <= i < |xs| ==> xs[i] >= floor
    ensures Sum(xs) >= floor * |xs| as real
  {
    if xs != [] {
      var n := |xs| - 1;
      SumAboveFloor(xs[..n], floor);
      assert |xs| as real == n as real + 1.0;
      assert floor * (n as real + 1.0) == floor * n as real + floor;
    }
  }

  lemma MeanAboveFloor(xs: seq<real>, mean: real, floor: real)
    requires xs != [] && IsMean(|xs| as real, Sum(xs), mean) && forall i :: 0 <= i < |xs| ==> xs[i] >= floor
    ensures mean >= floor
  {
    SumAboveFloor(xs, floor);
    Cancel(|xs| as real, floor, mean);
  }

  /** If every recorded cost is at least the floor, so is every level calculated from them, and so is
      every default level when it is; monotone rounding that fixes the floor does not lose it. */
  lemma LevelsStayAboveFloor(m: Numerics, s: Settings, resourceType: string, xs: seq<real>, floor: real)
    requires GoodStatistics(m) && MonotoneRounding(m) && (m.round)(floor) == floor
    requires DefaultAbove(DefaultsFor(s, resourceType), floor)
    requires forall i :: 0 <= i < |xs| ==> xs[i] >= floor
    ensures var t := Calculate(m, s, resourceType, xs); t.Some? ==> Above(t.value.levels, floor)
  {
    if |xs| >= s.minDatapoints && |xs| >= 2 {
      var mean, sd := (m.mean)(xs), (m.stdev)(xs);
      assert Describes(xs, mean, sd);
      MeanAboveFloor(xs, mean, floor);
      assert Above(Dynamic(mean, sd), floor);
    }
  }

  /** The levels a history yields are in order, and so are the defaults when they were; the baseline is at
      most the warning level unless a negative default is in use. */
  lemma LevelsAreOrdered(m: Numerics, s: Settings, resourceType: string, xs: seq<real>)
    requires GoodStatistics(m) && MonotoneRounding(m)
    requires var d := DefaultsFor(s, resourceType); Complete(d) ==> 0.0 <= d.warning.value && InOrder(LevelsIn(d))
    ensures var t := Calculate(m, s, resourceType, xs);
            t.Some? ==> t.value.baseline <= t.value.levels.warning <= t.value.levels.critical <= t.value.levels.emergency
  {
    if |xs| >= s.minDatapoints && |xs| >= 2 {
      assert Describes(xs, (m.mean)(xs), (m.stdev)(xs));
    }
  }

  /** What is calculated, in the numbers it is calculated from. */
  lemma CalculatedFrom(m: Numerics, s: Settings, resourceType: string, xs: seq<real>)
    requires Calculate(m, s, resourceType, xs).Some?
    ensures var t := Calculate(m, s, resourceType, xs).value;
            if |xs| >= s.minDatapoints then t.baseline == (m.round)((m.mean)(xs))
            else var d := DefaultsFor(s, resourceType); d.warning.Some? && t.baseline == (m.round)(d.warning.value * 0.5)
  {
  }

  // ---------------------------------------------------------------- one more cost

  lemma SumPush(xs: seq<real>, x: real)
    ensures Sum(xs + [x]) == Sum(xs) + x
    ensures Spread(xs + [x], 0.0) == Spread(xs, 0.0) + Square(x)
    ensures |xs + [x]| as real == |xs| as real + 1.0
  {
    assert (xs + [x])[..|xs|] == xs;
  }

  /** The spread around `c` of `n` values with the given sum and sum of squares. */
  function Around(n: real, squares: real, sum: real, c: real): real {
    squares - 2.0 * c * sum + n * c * c
  }

  lemma AroundPush(n: real, squares: real, sum: real, c: real, x: real)
    ensures Around(n + 1.0, squares + Square(x), sum + x, c) == Around(n, squares, sum, c) + Square(x - c)
  {
  }

  lemma {:induction false} SpreadIsAround(xs: seq<real>, c: real)
    ensures Spread(xs, c) == Around(|xs| as real, Spread(xs, 0.0), Sum(xs), c)
  {
    if xs != [] {
      var n := |xs| - 1;
      SpreadIsAround(xs[..n], c);
      AroundPush(n as real, Spread(xs[..n], 0.0), Sum(xs[..n]), c, xs[n]);
      assert |xs| as real == n as real + 1.0;
      assert xs[n] - 0.0 == xs[n];
    }
  }

  /** `gain` is what one more cost, `d` from the mean of `n` costs, adds to the mean. */
  predicate Gains(n: real, gain: real, d: real) {
    gain * (n + 1.0) == d
  }

  lemma MeanGains(n: real, sum: real, x: real, a: real, b: real)
    requires IsMean(n, sum, a) && IsMean(n + 1.0, sum + x, b)
    ensures Gains(n, b - a, x - a)
  {
  }

  /** The same for the spread. */
  predicate SpreadGains(n: real, gain: real, d: real) {
    gain * (n + 1.0) == n * Square(d)
  }

  lemma AroundMean(n: real, squares: real, sum: real, a: real)
    requires IsMean(n, sum, a)
    ensures Around(n, squares, sum, a) == squares - a * sum
  {
    assert n * a * a == sum * a;
  }

  lemma ClearDenominator(n: real, b: real, c: real)
    requires b * (n + 1.0) == c
    ensures b * c * (n + 1.0) == c * c
  {
    assert b * c * (n + 1.0) == (b * (n + 1.0)) * c;
  }

  lemma CompleteTheSquare(n: real, a: real, x: real)
    ensures (x * x + a * (a * n)) * (n + 1.0) - (a * n + x) * (a * n + x) == n * ((x - a) * (x - a))
  {
  }

  lemma MeansArithmetic(n: real, sum: real, x: real, a: real, b: real)
    requires IsMean(n, sum, a) && IsMean(n + 1.0, sum + x, b)
    ensures SpreadGains(n, Square(x) - b * (sum + x) + a * sum, x - a)
  {
    var c := sum + x;
    ClearDenominator(n, b, c);
    CompleteTheSquare(n, a, x);
    calc {
      (x * x - b * c + a * sum) * (n + 1.0);
      (x * x + a * sum) * (n + 1.0) - b * c * (n + 1.0);
      (x * x + a * sum) * (n + 1.0) - c * c;
      n * ((x - a) * (x - a));
    }
  }

  lemma AroundGains(n: real, squares: real, sum: real, x: real, a: real, b: real)
    requires IsMean(n, sum, a) && IsMean(n + 1.0, sum + x, b)
    ensures SpreadGains(n, Around(n + 1.0, squares + Square(x), sum + x, b) - Around(n, squares, sum, a), x - a)
  {
    AroundMean(n, squares, sum, a);
    AroundMean(n + 1.0, squares + Square(x), sum + x, b);
    MeansArithmetic(n, sum, x, a, b);
    var gain := Around(n + 1.0, squares + Square(x), sum + x, b) - Around(n, squares, sum, a);
    assert gain == Square(x) - b * (sum + x) + a * sum;
  }

  // ---------------------------------------------------------------- the ratchet

  /** `s` and `t` are the deviations before and after; `d` is how far the new cost is from the mean. */
  predicate DeviationsRelated(n: real, s: real, t: real, d: real) {
    (Square(t) * n - Square(s) * (n - 1.0)) * (n + 1.0) == n * Square(d)
  }

  lemma DeviationsGain(n: real, before: real, after: real, s: real, t: real, d: real)
    requires IsDeviation(n, before, s) && IsDeviation(n + 1.0, after, t) && SpreadGains(n, after - before, d)
    ensures DeviationsRelated(n, s, t, d)
  {
    assert n + 1.0 - 1.0 == n;
  }

  /** The share of a deviation that one more cost can take off, turned upside down. */
  function Share(n: real): real { (2.0 * n - 1.0) * (n + 1.0) }

  /** A deviation of `s` falls by `loss` at most. */
  predicate Loses(n: real, loss: real, s: real) {
    loss * Share(n) <= s
  }

  /** The square of the deviation falls by its n (n + 1)-th part at most. */
  lemma SquaresFallSlowly(n: real, s: real, t: real, d: real)
    requires n >= 1.0 && 0.0 <= s <= d && DeviationsRelated(n, s, t, d)
    ensures (Square(s) - Square(t)) * (n * (n + 1.0)) <= Square(s)
  {
    SquaresOrder(s, d);
    Scaled(n, Square(s), Square(d));
    calc {
      (s * s - t * t) * (n * (n + 1.0));
      s * s * n * (n + 1.0) - t * t * n * (n + 1.0);
      s * s * n * (n + 1.0) - (n * Square(d) + s * s * (n - 1.0) * (n + 1.0));
      s * s * (n + 1.0) - n * Square(d);
    <=
      s * s * (n + 1.0) - n * Square(s);
      s * s;
    }
  }

  /** w (2 x - w) grows with w up to x. */
  lemma GrowsUpTo(x: real, w: real, s: real)
    requires s <= w <= x
    ensures s * (2.0 * x - s) <= w * (2.0 * x - w)
  {
    Scaled(w - s, 0.0, 2.0 * x - w - s);
    assert w * (2.0 * x - w) - s * (2.0 * x - s) == (w - s) * (2.0 * x - w - s);
  }

  lemma ShareIsSmall(n: real)
    requires n >= 1.0
    ensures n * (n + 1.0) > 0.0 && Share(n) >= 1.0
    ensures n * (n + 1.0) * (2.0 * Share(n) - 1.0) > Share(n) * Share(n)
  {
    var p, q := n * (n + 1.0), Share(n);
    var r := n * n;
    assert r >= n;
    assert p == r + n && q == 2.0 * r + n - 1.0;
    assert p * (2.0 * q - 1.0) - q * q == (n + 1.0) * (2.0 * r - 1.0) by {
      assert 2.0 * p - q == n + 1.0;
      assert p * (2.0 * q - 1.0) - q * q == q * (2.0 * p - q) - p;
      assert q * (n + 1.0) - n * (n + 1.0) == (n + 1.0) * (q - n);
    }
    PositiveProduct(n + 1.0, 2.0 * r - 1.0);
  }

  /** If w = v q were above s, v (2 s - v) would take up too much of the square of s. */
  lemma LossBelow(q: real, s: real, v: real)
    requires q >= 1.0 && 0.0 <= v <= s < v * q
    ensures s * s * (2.0 * q - 1.0) <= v * (2.0 * s - v) * (q * q)
  {
    var x := s * q;
    Scaled(q, v, s);
    GrowsUpTo(x, v * q, s);
    SquareFactor(v, s, q);
    assert s * (2.0 * x - s) == s * s * (2.0 * q - 1.0);
  }

  lemma OutOfProportion(p: real, r: real, qq: real, ss: real, f: real)
    requires p > 0.0 && qq > 0.0 && ss > 0.0 && p * r > qq && ss * r <= f * qq
    ensures f * p > ss
  {
    if f * p <= ss {
      Scaled(qq, f * p, ss);
      Scaled(p, ss * r, f * qq);
      ProductOrder(ss, qq, p * r);
      TakeApart(p, r, qq, ss, f);
    }
  }

  lemma TakeApart(p: real, r: real, qq: real, ss: real, f: real)
    ensures p * (ss * r) == p * r * ss
    ensures p * (f * qq) == qq * (f * p)
  {
  }

  lemma NotTooMuchLoss(p: real, q: real, s: real, v: real)
    requires p > 0.0 && q >= 1.0 && p * (2.0 * q - 1.0) > q * q
    requires 0.0 <= v <= s && 0.0 < s && v * (2.0 * s - v) * p <= s * s
    ensures v * q <= s
  {
    if v * q > s {
      LossBelow(q, s, v);
      PositiveSquare(s);
      PositiveSquare(q);
      OutOfProportion(p, 2.0 * q - 1.0, q * q, s * s, v * (2.0 * s - v));
    }
  }

  lemma SquareFactor(v: real, s: real, q: real)
    ensures (v * q) * (2.0 * (s * q) - v * q) == v * (2.0 * s - v) * (q * q)
  {
    assert 2.0 * (s * q) - v * q == (2.0 * s - v) * q;
    Interchange(v, q, 2.0 * s - v);
  }

  lemma Interchange(v: real, q: real, z: real)
    ensures (v * q) * (z * q) == v * z * (q * q)
  {
  }

  lemma SquaresDiffer(s: real, t: real)
    ensures Square(s) - Square(t) == (s - t) * (2.0 * s - (s - t))
  {
  }

  lemma DeviationFallsSlowly(n: real, s: real, t: real, d: real)
    requires n >= 1.0 && 0.0 <= t < s <= d && DeviationsRelated(n, s, t, d)
    ensures Loses(n, s - t, s)
  {
    SquaresFallSlowly(n, s, t, d);
    SquaresDiffer(s, t);
    ShareIsSmall(n);
    NotTooMuchLoss(n * (n + 1.0), Share(n), s, s - t);
  }

  /** The mean gains more than `k` deviations lose. */
  lemma GainExceedsLoss(n: real, k: real, loss: real, s: real, gain: real, d: real)
    requires n >= 1.0 && 0.0 <= k <= 2.0 * n - 1.0 && loss >= 0.0 && Loses(n, loss, s) && s <= d && Gains(n, gain, d)
    ensures k * loss <= gain
  {
    Scaled(loss, k, 2.0 * n - 1.0);
    Scaled(n + 1.0, loss * k, loss * (2.0 * n - 1.0));
    Regroup(loss, 2.0 * n - 1.0, n + 1.0, Share(n));
    Cancel(n + 1.0, k * loss, gain);
  }

  lemma Distribute(k: real, s: real, t: real)
    ensures k * (s - t) == k * s - k * t
  {
  }

  lemma FallingDeviation(n: real, k: real, s: real, t: real, gain: real, d: real)
    requires n >= 1.0 && 0.0 <= k <= 2.0 * n - 1.0 && 0.0 <= t < s <= d && Gains(n, gain, d)
    requires DeviationsRelated(n, s, t, d)
    ensures k * (s - t) <= gain
  {
    DeviationFallsSlowly(n, s, t, d);
    GainExceedsLoss(n, k, s - t, s, gain, d);
  }

  lemma RisingDeviation(n: real, k: real, s: real, t: real, gain: real, d: real)
    requires n >= 1.0 && 0.0 <= k && s <= t && 0.0 <= d && Gains(n, gain, d)
    ensures k * (s - t) <= gain
  {
    Cancel(n + 1.0, 0.0, gain);
    Scaled(k, s - t, 0.0);
  }

  lemma PushDescribed(xs: seq<real>, x: real, a: real, b: real, s: real, t: real)
    requires Describes(xs, a, s) && Describes(xs + [x], b, t)
    ensures Gains(|xs| as real, b - a, x - a) && DeviationsRelated(|xs| as real, s, t, x - a)
  {
    var all, n, squares, sum := xs + [x], |xs| as real, Spread(xs, 0.0), Sum(xs);
    var before, after := Spread(xs, a), Spread(all, b);
    SumPush(xs, x);
    assert IsMean(n + 1.0, sum + x, b);
    MeanGains(n, sum, x, a, b);
    SpreadIsAround(xs, a);
    SpreadIsAround(all, b);
    AroundGains(n, squares, sum, x, a, b);
    assert SpreadGains(n, after - before, x - a);
    assert IsDeviation(n + 1.0, after, t);
    DeviationsGain(n, before, after, s, t, x - a);
  }

  /** A level `k` deviations above the mean of `n` costs never falls when a cost at or above the warning
      level is recorded, up to k = 2 n - 1: the mean gains more than the deviation can lose. */
  lemma LevelsNeverFall(xs: seq<real>, x: real, k: real, a: real, b: real, s: real, t: real)
    requires xs != [] && 0.0 <= k <= 2.0 * |xs| as real - 1.0
    requires Describes(xs, a, s) && Describes(xs + [x], b, t)
    requires x >= a + s
    ensures b + k * t >= a + k * s
  {
    PushDescribed(xs, x, a, b, s, t);
    if t < s {
      FallingDeviation(|xs| as real, k, s, t, b - a, x - a);
    } else {
      RisingDeviation(|xs| as real, k, s, t, b - a, x - a);
    }
    Distribute(k, s, t);
  }

  lemma SquareRootBelow(t: real, u: real)
    requires u >= 0.0 && Square(t) < Square(u)
    ensures t < u
  {
    if t >= u {
      SquaresOrder(u, t);
    }
  }

  lemma RootOfOne(s: real)
    requires s >= 0.0 && Square(s) == 1.0
    ensures s == 1.0
  {
    if 0.0 < s < 1.0 {
      ProductOrder(s, s, 1.0);
    } else if s > 1.0 {
      ProductOrder(s, 1.0, s);
    }
  }

  lemma Literals(x: real, y: real, z: real, w: real, c: real)
    ensures Sum([x, y, z]) == x + y + z && Sum([x, y, z] + [w]) == x + y + z + w
    ensures Spread([x, y, z], c) == Square(x - c) + Square(y - c) + Square(z - c)
    ensures Spread([x, y, z] + [w], c) == Square(x - c) + Square(y - c) + Square(z - c) + Square(w - c)
  {
    var xs := [x, y, z];
    assert xs[..2] == [x, y] && [x, y][..1] == [x] && [x][..0] == [];
    assert (xs + [w])[..3] == xs;
    assert Sum([x]) == x && Spread([x], c) == Square(x - c);
    assert Sum([x, y]) == x + y && Spread([x, y], c) == Square(x - c) + Square(y - c);
  }

  /** One deviation more is too many: three costs, a fourth at their warning level, and the level six
      deviations up falls. */
  lemma TwiceTheCostsIsTooMany(m: Numerics)
    requires GoodStatistics(m)
    ensures var xs := [1.0, 2.0, 3.0];
            var a, s := (m.mean)(xs), (m.stdev)(xs);
            var b, t := (m.mean)(xs + [3.0]), (m.stdev)(xs + [3.0]);
            a + s == 3.0 && b + 6.0 * t < a + 6.0 * s
  {
    var xs := [1.0, 2.0, 3.0];
    var ys := xs + [3.0];
    var a, b, s, t := (m.mean)(xs), (m.mean)(ys), (m.stdev)(xs), (m.stdev)(ys);
    assert Describes(xs, a, s) && Describes(ys, b, t);
    Literals(1.0, 2.0, 3.0, 3.0, 0.0);
    assert a == 2.0 && b == 2.25;
    Literals(1.0, 2.0, 3.0, 3.0, a);
    Literals(1.0, 2.0, 3.0, 3.0, b);
    assert Square(s) == 1.0 && Square(t) == 11.0 / 12.0;
    RootOfOne(s);
    SquareRootBelow(t, 23.0 / 24.0);
  }

  // ---------------------------------------------------------------- how many costs can be extreme

  function CountAtLeast(xs: seq<real>, bound: real): nat {
    if xs == [] then 0 else CountAtLeast(xs[..|xs| - 1], bound) + (if xs[|xs| - 1] >= bound then 1 else 0)
  }

  /** `count` values at least `distance` above the centre account for no more than the spread. */
  predicate Fit(count: nat, distance: real, spread: real) {
    count as real * Square(distance) <= spread
  }

  lemma OneMoreFits(count: nat, distance: real, spread: real, d: real)
    requires Fit(count, distance, spread) && 0.0 <= distance <= d
    ensures Fit(count + 1, distance, spread + Square(d))
  {
    SquaresOrder(distance, d);
    assert (count + 1) as real == count as real + 1.0;
    Distribute(Square(distance), count as real, -1.0);
  }

  lemma {:induction false} ExtremesFit(xs: seq<real>, c: real, distance: real)
    requires distance >= 0.0
    ensures Fit(CountAtLeast(xs, c + distance), distance, Spread(xs, c))
  {
    if xs != [] {
      var n := |xs| - 1;
      ExtremesFit(xs[..n], c, distance);
      SquareIsNonNegative(xs[n] - c);
      if xs[n] >= c + distance {
        OneMoreFits(CountAtLeast(xs[..n], c + distance), distance, Spread(xs[..n], c), xs[n] - c);
      }
    }
  }

  lemma Regroup(a: real, b: real, c: real, p: real)
    requires p == b * c
    ensures a * p == a * b * c
  {
  }

  lemma PositiveProduct(x: real, y: real)
    requires x > 0.0 && y > 0.0
    ensures x * y > 0.0
  {
  }

  lemma PositiveSquare(x: real)
    requires x > 0.0
    ensures Square(x) > 0.0
  {
    calc {
      Square(x);
    ==
      x * x;
    > { PositiveProduct(x, x); }
      0.0;
    }
  }

  lemma SquareOfProduct(x: real, y: real)
    ensures Square(x * y) == Square(x) * Square(y)
  {
  }

  lemma CancelSquare(count: real, kk: real, v: real, m: real, p: real)
    requires v > 0.0 && p == kk * v && count * p <= v * m
    ensures count * kk <= m
  {
    Regroup(count, kk, v, p);
    Cancel(v, count * kk, m);
  }

  lemma ExtremesArithmetic(count: nat, k: real, sd: real, n: real, spread: real)
    requires sd > 0.0 && IsDeviation(n, spread, sd) && Fit(count, k * sd, spread)
    ensures Fit(count, k, n - 1.0)
  {
    PositiveSquare(sd);
    SquareOfProduct(k, sd);
    CancelSquare(count as real, Square(k), Square(sd), n - 1.0, Square(k * sd));
  }

  /** With a positive deviation, at most (n - 1) / k^2 of n costs are `k` deviations above the mean: of
      the others, a quarter at the critical level and a ninth at the emergency level. */
  lemma FewCostsAreExtreme(xs: seq<real>, k: real, mean: real, sd: real)
    requires Describes(xs, mean, sd) && k >= 0.0 && sd > 0.0
    ensures CountAtLeast(xs, mean + k * sd) as real * (k * k) <= |xs| as real - 1.0
  {
    Scaled(k, 0.0, sd);
    ExtremesFit(xs, mean, k * sd);
    ExtremesArithmetic(CountAtLeast(xs, mean + k * sd), k, sd, |xs| as real, Spread(xs, mean));
  }
}
