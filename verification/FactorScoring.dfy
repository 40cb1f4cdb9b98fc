/** The technical factor score and its true upper bound: the Bollinger part has no upper clamp. */
module FactorScoring {
  import opened Prelude

  const WINDOW := 20

  function Sum(xs: seq<real>): real {
    if xs == [] then 0.0 else Sum(xs[..|xs| - 1]) + xs[|xs| - 1]
  }

  function Mean(xs: seq<real>): real
    requires xs != []
  {
    Quotient(Sum(xs), |xs| as real)
  }

  /** Sum of squared deviations from a center. */
  function SquaredDeviations(xs: seq<real>, center: real): real {
    if xs == [] then 0.0
    else SquaredDeviations(xs[..|xs| - 1], center) + Times(xs[|xs| - 1] - center, xs[|xs| - 1] - center)
  }

  /** The sample standard deviation, with n - 1 in the denominator. */
  ghost predicate IsSampleStd(std: real, xs: seq<real>)
    requires |xs| >= 2
  {
    std >= 0.0 && Times(std, std) * (|xs| - 1) as real == SquaredDeviations(xs, Mean(xs))
  }

  // ---------------------------------------------------------------------------
  // The parts of the score
  // ---------------------------------------------------------------------------

  /** Volume part, clamped to 40 points. */
  function VolumeScore(volumes: seq<real>): real {
    if |volumes| < 25 then 20.0
    else
      var n := |volumes|;
      var recent, past := Mean(volumes[n - 5..]), Mean(volumes[n - 25..n - 5]);
      if past > 0.0 then Max(0.0, Min(40.0, (Quotient(recent, past) - 0.5) * 16.0)) else 20.0
  }

  /** RSI part, piecewise linear. */
  function RsiScore(rsi: Option<real>): real {
    match rsi
    case None => 15.0
    case Some(r) =>
      if r <= 30.0 then 30.0
      else if r <= 50.0 then 30.0 - (r - 30.0) * 0.75
      else if r <= 70.0 then 15.0 - (r - 50.0) * 0.5
      else Max(0.0, 5.0 - (r - 70.0) * 0.25)
  }

  /** Bollinger part: clamped below, not above. */
  function BandScore(price: real, ma: real, std: real): real {
    var upper, lower := ma + 2.0 * std, ma - 2.0 * std;
    if upper > lower then Max(0.0, 30.0 - Quotient(price - lower, upper - lower) * 30.0) else 15.0
  }

  function Tail(xs: seq<real>): (t: seq<real>)
    requires |xs| >= WINDOW
    ensures |t| == WINDOW
  {
    xs[|xs| - WINDOW..]
  }

  function BandPart(closes: seq<real>, std: real): real {
    if |closes| < WINDOW then 15.0 else BandScore(closes[|closes| - 1], Mean(Tail(closes)), std)
  }

  method CalculateTechnicalScore(closes: seq<real>, volumes: seq<real>, rsi: Option<real>, std: real)
    returns (total: real)
    ensures total == VolumeScore(volumes) + RsiScore(rsi) + BandPart(closes, std)
  {
    total := 0.0;
    var n := |volumes|;
    if n >= 25 {
      var recent, past := Mean(volumes[n - 5..]), Mean(volumes[n - 25..n - 5]);
      if past > 0.0 {
        var ratio := Quotient(recent, past);
        total := total + Max(0.0, Min(40.0, (ratio - 0.5) * 16.0));
      } else {
        total := total + 20.0;
      }
    } else {
      total := total + 20.0;
    }
    if rsi.Some? {
      var r, rsiScore := rsi.value, 0.0;
      if r <= 30.0 {
        rsiScore := 30.0;
      } else if r <= 50.0 {
        rsiScore := 30.0 - (r - 30.0) * 0.75;
      } else if r <= 70.0 {
        rsiScore := 15.0 - (r - 50.0) * 0.5;
      } else {
        rsiScore := Max(0.0, 5.0 - (r - 70.0) * 0.25);
      }
      total := total + rsiScore;
    } else {
      total := total + 15.0;
    }
    if |closes| >= WINDOW {
      var ma := Mean(Tail(closes));
      var upper, lower := ma + 2.0 * std, ma - 2.0 * std;
      if upper > lower {
        var position := Quotient(closes[|closes| - 1] - lower, upper - lower);
        total := total + Max(0.0, 30.0 - position * 30.0);
      } else {
        total := total + 15.0;
      }
    } else {
      total := total + 15.0;
    }
  }

  datatype Regime = StrongBull | Bear | OtherRegime

  function FinalScore(momentum: real, quality: real, value: real, technical: real, regime: Regime): real {
    match regime
    case StrongBull => momentum * 0.40 * 10.0 + quality * 0.25 * 10.0 + value * 0.15 * 10.0 + technical * 0.20 * 10.0
    case Bear => momentum * 0.20 * 10.0 + quality * 0.35 * 10.0 + value * 0.30 * 10.0 + technical * 0.15 * 10.0
    case OtherRegime => momentum * 0.30 * 10.0 + quality * 0.30 * 10.0 + value * 0.20 * 10.0 + technical * 0.20 * 10.0
  }

  // ---------------------------------------------------------------------------
  // Samuelson's inequality
  // ---------------------------------------------------------------------------

  lemma Square(a: real)
    ensures Times(a, a) >= 0.0
  {
  }

  /** The deviations from any center add up to the sum less n centers. */
  function Deviations(xs: seq<real>, center: real): real {
    if xs == [] then 0.0 else Deviations(xs[..|xs| - 1], center) + (xs[|xs| - 1] - center)
  }

  lemma {:induction false} DeviationsAreSum(xs: seq<real>, center: real)
    ensures Deviations(xs, center) == Sum(xs) - Times(|xs| as real, center)
  {
    if xs != [] {
      DeviationsAreSum(xs[..|xs| - 1], center);
      assert Times(|xs| as real, center) == Times((|xs| - 1) as real, center) + center;
    }
  }

  lemma PositiveSquare(a: real)
    requires a != 0.0
    ensures Times(a, a) > 0.0
  {
    if a > 0.0 {
      PositiveProduct(a, a);
    } else {
      PositiveProduct(-a, -a);
      assert Times(a, a) == Times(-a, -a);
    }
  }

  lemma PositiveProduct(a: real, b: real)
    requires a > 0.0 && b > 0.0
    ensures Times(a, b) > 0.0
  {
  }

  lemma ZeroFactor(a: real, b: real)
    requires a * b == 0.0 && b > 0.0
    ensures a == 0.0
  {
    assert a > 0.0 ==> a * b > 0.0;
    assert a < 0.0 ==> a * b < 0.0;
  }

  /** Twice a product, bounded by completing the square. */
  lemma TwiceProduct(a: real, b: real, q: real, m: real)
    requires m > 0.0 && a * a <= m * q
    ensures 2.0 * (a * b) <= q + m * (b * b)
  {
    var t := m * b;
    Square(a - t);
    assert (a - t) * (a - t) == a * a - 2.0 * (a * t) + t * t;
    assert a * t == m * (a * b) && t * t == m * (m * (b * b));
    DivideBy(m, 2.0 * (a * b), q + m * (b * b));
  }

  /** (a + b)^2 <= (n + 1)(q + b^2) when a^2 <= n q. */
  lemma CauchyStep(a: real, b: real, q: real, n: nat)
    requires Times(a, a) <= Times(n as real, q) && (n == 0 ==> a == 0.0 && q == 0.0)
    ensures Times(a + b, a + b) <= Times((n + 1) as real, q + Times(b, b))
  {
    var m := n as real;
    assert Times(a + b, a + b) == a * a + 2.0 * (a * b) + b * b;
    assert Times((n + 1) as real, q + Times(b, b)) == m * q + m * (b * b) + q + b * b;
    if n > 0 {
      TwiceProduct(a, b, q, m);
    }
  }

  lemma DivideBy(m: real, x: real, y: real)
    requires m > 0.0 && m * x <= m * y
    ensures x <= y
  {
    assert x > y ==> m * x > m * y;
  }

  /** Cauchy: the squared sum of deviations is at most n times the sum of their squares. */
  lemma {:induction false} Cauchy(xs: seq<real>, center: real)
    ensures Times(Deviations(xs, center), Deviations(xs, center)) <= Times(|xs| as real, SquaredDeviations(xs, center))
    ensures SquaredDeviations(xs, center) >= 0.0
  {
    if xs != [] {
      var front, b := xs[..|xs| - 1], xs[|xs| - 1] - center;
      Cauchy(front, center);
      Square(b);
      CauchyStep(Deviations(front, center), b, SquaredDeviations(front, center), |front|);
    }
  }

  /** The last value of a sample lies within (n - 1) / sqrt(n) sample deviations of the mean. */
  lemma Samuelson(xs: seq<real>)
    requires |xs| >= 2
    ensures var d := xs[|xs| - 1] - Mean(xs);
            Times(d, d) * |xs| as real <= Times((|xs| - 1) as real, SquaredDeviations(xs, Mean(xs)))
  {
    var n, m := |xs| as real, Mean(xs);
    var front, d := xs[..|xs| - 1], xs[|xs| - 1] - Mean(xs);
    DeviationsAreSum(xs, m);
    QuotientTimes(Sum(xs), n);
    assert Times(n, m) == Times(m, n) == Sum(xs);
    assert Deviations(front, m) == -d;
    Cauchy(front, m);
    var s := SquaredDeviations(front, m);
    assert Times(-d, -d) == Times(d, d);
    Rearrange(Times(d, d), s, n);
  }

  lemma Rearrange(dd: real, s: real, n: real)
    requires dd <= Times(n - 1.0, s)
    ensures dd * n <= Times(n - 1.0, s + dd)
  {
    assert Times(n - 1.0, s + dd) == Times(n - 1.0, s) + dd * n - dd;
  }

  // ---------------------------------------------------------------------------
  // The bound
  // ---------------------------------------------------------------------------

  /** Within the bands the part is a line in the distance from the mean. */
  lemma BandScoreLine(price: real, ma: real, std: real)
    requires std > 0.0
    ensures BandScore(price, ma, std) == Max(0.0, 15.0 - 7.5 * Quotient(price - ma, std))
  {
    var z, w := Quotient(price - ma, std), Quotient(price - (ma - 2.0 * std), 4.0 * std);
    QuotientTimes(price - ma, std);
    QuotientTimes(price - (ma - 2.0 * std), 4.0 * std);
    assert z * std == price - ma && w * (4.0 * std) == price - ma + 2.0 * std;
    ZeroFactor(4.0 * w - z - 2.0, std);
    assert ma + 2.0 * std - (ma - 2.0 * std) == 4.0 * std;
  }

  /** The Bollinger part exceeds its 30 points exactly when the price is below the lower band. */
  lemma BandExceedsIffBelowLowerBand(price: real, ma: real, std: real)
    requires std >= 0.0
    ensures BandScore(price, ma, std) > 30.0 <==> std > 0.0 && price < ma - 2.0 * std
  {
    if std > 0.0 {
      BandScoreLine(price, ma, std);
      var z := Quotient(price - ma, std);
      QuotientTimes(price - ma, std);
      assert z * std == price - ma;
      assert z < -2.0 ==> z * std < -2.0 * std;
      assert z >= -2.0 ==> z * std >= -2.0 * std;
    }
  }

  /** For a window of twenty closes the part stays below 47: its excess over 15 squared, times 20,
   *  is at most (7.5 * 19) squared. */
  lemma BandScoreBound(xs: seq<real>, std: real)
    requires |xs| == WINDOW && IsSampleStd(std, xs)
    ensures var score := BandScore(xs[WINDOW - 1], Mean(xs), std);
            && 0.0 <= score < 47.0
            && (score > 15.0 ==> Times(score - 15.0, score - 15.0) * 20.0 <= 142.5 * 142.5)
  {
    var d := xs[WINDOW - 1] - Mean(xs);
    var score := BandScore(xs[WINDOW - 1], Mean(xs), std);
    Samuelson(xs);
    if std > 0.0 {
      BandScoreLine(xs[WINDOW - 1], Mean(xs), std);
      var z := Quotient(d, std);
      QuotientTimes(d, std);
      assert d == z * std;
      assert Times(d, d) == Times(z, z) * Times(std, std);
      PositiveSquare(std);
      assert SquaredDeviations(xs, Mean(xs)) == Times(std, std) * 19.0;
      assert Times(d, d) * 20.0 <= Times(19.0, Times(std, std) * 19.0);
      hide Mean, SquaredDeviations;
      ZBound(Times(d, d), Times(z, z), Times(std, std));
      ExcessBound(z);
    }
  }

  lemma ZBound(dd: real, zz: real, vv: real)
    requires vv > 0.0 && dd == zz * vv && dd * 20.0 <= Times(19.0, vv * 19.0)
    ensures zz * 20.0 <= 361.0
  {
    DivideBy(vv, zz * 20.0, 361.0);
  }

  lemma NonZeroSquare(a: real)
    requires Times(a, a) > 0.0
    ensures a != 0.0
  {
  }

  lemma ExcessBound(z: real)
    requires Times(z, z) * 20.0 <= 361.0
    ensures 7.5 * -z < 32.0
    ensures Times(7.5 * -z, 7.5 * -z) * 20.0 <= 142.5 * 142.5
  {
    var y := -z;
    assert Times(y, y) == Times(z, z);
    assert y >= 4.26 ==> Times(y, y) >= 4.26 * 4.26;
    assert Times(7.5 * y, 7.5 * y) == 56.25 * Times(y, y);
  }

  /** The technical score lies in [0, 117). */
  lemma TechnicalScoreBound(closes: seq<real>, volumes: seq<real>, rsi: Option<real>, std: real)
    requires |closes| >= WINDOW ==> IsSampleStd(std, Tail(closes))
    ensures 0.0 <= VolumeScore(volumes) + RsiScore(rsi) + BandPart(closes, std) < 117.0
  {
    assert 0.0 <= VolumeScore(volumes) <= 40.0;
    assert 0.0 <= RsiScore(rsi) <= 30.0;
    if |closes| >= WINDOW {
      BandScoreBound(Tail(closes), std);
    }
  }

  /** With the other factors within 100 points the final score stays below 1034, and below 1025.5 in a bear market. */
  lemma FinalScoreBound(momentum: real, quality: real, value: real, technical: real, regime: Regime)
    requires 0.0 <= momentum <= 100.0 && 0.0 <= quality <= 100.0 && 0.0 <= value <= 100.0 && 0.0 <= technical < 117.0
    ensures 0.0 <= FinalScore(momentum, quality, value, technical, regime) < 1034.0
    ensures regime.Bear? ==> FinalScore(momentum, quality, value, technical, regime) < 1025.5
  {
  }

  // ---------------------------------------------------------------------------
  // The parts, in figures
  // ---------------------------------------------------------------------------

  /** The sum and the sum of squared deviations are those of the single values, whichever way the sample is split. */
  lemma {:induction false} SumsAddUp(a: seq<real>, b: seq<real>, center: real)
    ensures Sum([]) == 0.0 == SquaredDeviations([], center)
    ensures forall x :: Sum([x]) == x && SquaredDeviations([x], center) == (x - center) * (x - center)
    ensures Sum(a + b) == Sum(a) + Sum(b)
    ensures SquaredDeviations(a + b, center) == SquaredDeviations(a, center) + SquaredDeviations(b, center)
  {
    forall x ensures Sum([x]) == x && SquaredDeviations([x], center) == (x - center) * (x - center) {
      assert [x][..0] == [];
      assert Times(x - center, x - center) == (x - center) * (x - center);
    }
    hide Times;
    if b == [] {
      assert a + b == a;
    } else {
      var front := b[..|b| - 1];
      SumsAddUp(a, front, center);
      assert (a + b)[..|a + b| - 1] == a + front;
    }
  }

  /** The RSI part interpolates 30 points at 30, 15 at 50, 5 at 70 and none at 90, and is constant beyond; it is 15
   *  without an RSI. */
  lemma RsiScoreInterpolates(r: real)
    ensures RsiScore(None) == 15.0
    ensures var score := RsiScore(Some(r));
            && (score == 30.0 <==> r <= 30.0) && (score == 0.0 <==> r >= 90.0)
            && (30.0 <= r <= 50.0 ==> score * 20.0 == 30.0 * (50.0 - r) + 15.0 * (r - 30.0))
            && (50.0 <= r <= 70.0 ==> score * 20.0 == 15.0 * (70.0 - r) + 5.0 * (r - 50.0))
            && (70.0 <= r <= 90.0 ==> score * 20.0 == 5.0 * (90.0 - r))
  {
  }

  /** The documented points at 40 and 80 are not those of the code: 22.5 instead of 25, and 2.5 instead of none. */
  lemma DocumentedRsiPointsDiffer()
    ensures RsiScore(Some(40.0)) == 22.5 && RsiScore(Some(80.0)) == 2.5
  {
  }

  /** The volume part compares the sum `r` of the last five volumes with the sum `p` of the twenty before: it is none up
   *  to half of the past mean, full from three times the past mean, and linear in the ratio between; 20 without
   *  twenty-five volumes or past volume. */
  lemma VolumeScoreIff(volumes: seq<real>, r: real, p: real)
    requires |volumes| >= 25 ==> r == Sum(volumes[|volumes| - 5..])
                                 && p == Sum(volumes[|volumes| - 25..|volumes| - 5])
    ensures var score := VolumeScore(volumes);
            if |volumes| >= 25 && p > 0.0
            then && (score == 0.0 <==> 8.0 * r <= p) && (score == 40.0 <==> 4.0 * r >= 3.0 * p)
                 && (p <= 8.0 * r && 4.0 * r <= 3.0 * p ==> (score + 8.0) * p == 64.0 * r)
            else score == 20.0
  {
    if |volumes| >= 25 {
      var recent, past := Mean(volumes[|volumes| - 5..]), Mean(volumes[|volumes| - 25..|volumes| - 5]);
      hide Sum;
      MeanTimes(r, 5.0);
      MeanTimes(p, 20.0);
      if p > 0.0 {
        RatioFigures(recent, past, r, p);
      }
    }
  }

  lemma MeanTimes(sum: real, n: real)
    requires n > 0.0
    ensures Quotient(sum, n) * n == sum
  {
    QuotientTimes(sum, n);
  }

  lemma RatioFigures(recent: real, past: real, r: real, p: real)
    requires recent * 5.0 == r && past * 20.0 == p && p > 0.0
    ensures past > 0.0
    ensures var score := Max(0.0, Min(40.0, (Quotient(recent, past) - 0.5) * 16.0));
            && (score == 0.0 <==> 8.0 * r <= p) && (score == 40.0 <==> 4.0 * r >= 3.0 * p)
            && (p <= 8.0 * r && 4.0 * r <= 3.0 * p ==> (score + 8.0) * p == 64.0 * r)
  {
    var q := Quotient(recent, past);
    QuotientTimes(recent, past);
    assert q * p == 4.0 * r by {
      assert Times(q, past) == recent;
      assert q * p == 20.0 * Times(q, past);
    }
    hide Quotient;
    assert q <= 0.5 <==> q * p <= 0.5 * p by {
      Scales(q, 0.5, p);
    }
    assert q >= 3.0 <==> q * p >= 3.0 * p by {
      Scales(3.0, q, p);
    }
    assert (16.0 * q) * p == 16.0 * (q * p);
  }

  lemma Scales(a: real, b: real, p: real)
    requires p > 0.0
    ensures a <= b <==> a * p <= b * p
  {
    if a <= b {
      assert (b - a) * p >= 0.0;
    } else {
      assert (a - b) * p > 0.0;
    }
  }

  /** The documented points at an unchanged and at a doubled volume are not those of the code: 8 instead of 20, and 24
   *  instead of 36. */
  lemma DocumentedVolumePointsDiffer(volumes: seq<real>, r: real, p: real)
    requires |volumes| >= 25 && p > 0.0
    requires r == Sum(volumes[|volumes| - 5..]) && p == Sum(volumes[|volumes| - 25..|volumes| - 5])
    ensures 4.0 * r == p ==> VolumeScore(volumes) == 8.0
    ensures 4.0 * r == 2.0 * p ==> VolumeScore(volumes) == 24.0
  {
    var score := VolumeScore(volumes);
    VolumeScoreIff(volumes, r, p);
    hide VolumeScore, Sum;
    assert 4.0 * r == p ==> (score - 8.0) * p == 0.0;
    assert 4.0 * r == 2.0 * p ==> (score - 24.0) * p == 0.0;
    if 4.0 * r == p {
      ZeroFactor(score - 8.0, p);
    } else if 4.0 * r == 2.0 * p {
      ZeroFactor(score - 24.0, p);
    }
  }

  /** The Bollinger part of a price history looks at its last twenty closes, and is 15 for a shorter or a flat one. */
  lemma BandPartLine(closes: seq<real>, std: real)
    ensures BandPart(closes, std)
            == if |closes| < 20 || std <= 0.0 then 15.0
               else Max(0.0, 15.0 - 7.5 * ((closes[|closes| - 1] - Sum(closes[|closes| - 20..]) / 20.0) / std))
  {
    if |closes| >= 20 && std > 0.0 {
      BandScoreLine(closes[|closes| - 1], Mean(Tail(closes)), std);
    }
  }

  /** The weights in points per point of a factor; in every regime they add up to ten. */
  lemma FinalScoreWeights(momentum: real, quality: real, value: real, technical: real)
    ensures FinalScore(momentum, quality, value, technical, StrongBull)
            == 4.0 * momentum + 2.5 * quality + 1.5 * value + 2.0 * technical
    ensures FinalScore(momentum, quality, value, technical, Bear)
            == 2.0 * momentum + 3.5 * quality + 3.0 * value + 1.5 * technical
    ensures FinalScore(momentum, quality, value, technical, OtherRegime)
            == 3.0 * momentum + 3.0 * quality + 2.0 * value + 2.0 * technical
    ensures forall x, regime :: FinalScore(x, x, x, x, regime) == 10.0 * x
  {
  }

  // ---------------------------------------------------------------------------
  // The bound is reached
  // ---------------------------------------------------------------------------

  function Repeat(x: real, n: nat): (s: seq<real>)
    ensures |s| == n
  {
    seq(n, _ => x)
  }

  lemma {:induction false} RepeatFigures(x: real, n: nat, center: real)
    ensures Sum(Repeat(x, n)) == Times(n as real, x)
    ensures SquaredDeviations(Repeat(x, n), center) == Times(n as real, Times(x - center, x - center))
  {
    if n > 0 {
      RepeatFigures(x, n - 1, center);
      assert Repeat(x, n)[..n - 1] == Repeat(x, n - 1);
      assert Times(n as real, x) == Times((n - 1) as real, x) + x;
    }
  }

  /** Nineteen equal closes and a lower last one attain the bound, far above the 30 points of this part. */
  lemma BoundIsAttained(a: real, drop: real, std: real)
    requires drop > 0.0
    requires IsSampleStd(std, Repeat(a, 19) + [a - drop])
    ensures var xs := Repeat(a, 19) + [a - drop];
            var score := BandScore(xs[19], Mean(xs), std);
            score > 30.0 && Times(score - 15.0, score - 15.0) * 20.0 == 142.5 * 142.5
  {
    var xs := Repeat(a, 19) + [a - drop];
    assert xs[..19] == Repeat(a, 19);
    RepeatFigures(a, 19, a);
    assert Sum(xs) == 20.0 * a - drop;
    var m := Mean(xs);
    QuotientTimes(Sum(xs), 20.0);
    assert m == a - drop / 20.0;
    RepeatFigures(a, 19, m);
    AttainedFigures(drop, std, a - m, xs[19] - m);
    BandScoreLine(xs[19], m, std);
  }

  lemma AttainedFigures(drop: real, std: real, up: real, down: real)
    requires drop > 0.0 && up == drop / 20.0 && down == drop / 20.0 - drop
    requires std >= 0.0 && Times(std, std) * 19.0 == Times(19.0, Times(up, up)) + Times(down, down)
    ensures std > 0.0
    ensures var y := -7.5 * Quotient(down, std);
            y > 15.0 && Times(y, y) * 20.0 == 142.5 * 142.5
  {
    assert down == -19.0 * up;
    PositiveSquare(up);
    var uu := Times(up, up);
    assert Times(down, down) == 361.0 * uu;
    assert Times(std, std) == 20.0 * uu;
    NonZeroSquare(std);
    var z := Quotient(down, std);
    QuotientTimes(down, std);
    assert z * std == down;
    assert Times(z, z) * Times(std, std) == Times(down, down);
    ZeroFactor(Times(z, z) * 20.0 - 361.0, uu);
    assert z * std < 0.0;
    assert z >= 0.0 ==> z * std >= 0.0;
    var y := -7.5 * z;
    assert Times(y, y) == 56.25 * Times(z, z);
    assert 0.0 < y <= 15.0 ==> Times(y, y) <= 225.0;
  }
}
