/** The deterministic intraday path: open, down to the low, up to the high, and back to the close. */
module IntradayPath {
  import opened Prelude
  import opened MarketData

  /** The easing curve is only known to rise from 0 to 1. */
  ghost predicate Easing(ease: real -> real) {
    && ease(0.0) == 0.0 && ease(1.0) == 1.0
    && forall a: real, b: real :: 0.0 <= a <= b <= 1.0 ==> ease(a) <= ease(b)
  }

  const SEGMENTS := 3

  function AtLeastOne(n: int): int {
    if n >= 1 then n else 1
  }

  /** Steps of one of the three segments when `remaining` steps are to be shared out. */
  function StepsOf(remaining: int, idx: int): (steps: int)
    requires remaining >= 1
    ensures steps >= 1
  {
    AtLeastOne(AtLeastOne(remaining / SEGMENTS) + if idx < remaining % SEGMENTS then 1 else 0)
  }

  /** Progress `step / steps` along a segment. */
  function Progress(step: int, steps: int): (t: real)
    requires 0 <= step <= steps && steps >= 1
    ensures 0.0 <= t <= 1.0
  {
    step as real / steps as real
  }

  function Along(from: real, to: real, x: real): real {
    from + Times(to - from, x)
  }

  function Eased(from: real, to: real, t: real, ease: real -> real): real {
    Max(0.0, Along(from, to, ease(t)))
  }

  /** The prices of the first `n` steps of a segment. */
  function Segment(from: real, to: real, n: int, steps: int, ease: real -> real): (s: seq<real>)
    requires 0 <= n <= steps && steps >= 1
    ensures |s| == n
  {
    seq(n, i requires 0 <= i < n => Eased(from, to, Progress(i + 1, steps), ease))
  }

  function WholeSegment(from: real, to: real, remaining: int, idx: int, ease: real -> real): (s: seq<real>)
    requires remaining >= 1
    ensures |s| == StepsOf(remaining, idx)
  {
    Segment(from, to, StepsOf(remaining, idx), StepsOf(remaining, idx), ease)
  }

  /** The path before it is padded or cut to the number of slots. */
  function RawPath(open: real, high: real, low: real, close: real, remaining: int, ease: real -> real): (s: seq<real>)
    requires remaining >= 1
    ensures |s| == 1 + StepsOf(remaining, 0) + StepsOf(remaining, 1) + StepsOf(remaining, 2)
  {
    UpTo(open, high, low, close, remaining, SEGMENTS, ease)
  }

  method SimulateIntradayPath(open: real, high: real, low: real, close: real, slots: int, ease: real -> real)
    returns (path: seq<real>)
    ensures slots >= 1 ==> |path| == slots
    ensures slots <= 1 ==> path == [close]
    ensures slots >= 2 ==> |RawPath(open, high, low, close, slots - 1, ease)| >= slots
                           && path == RawPath(open, high, low, close, slots - 1, ease)[..slots]
  {
    if slots <= 1 {
      return [close];
    }
    var keyPoints := [open, low, high, close];
    var stepsRemaining := slots - 1;
    var extras := stepsRemaining % SEGMENTS;
    path := [Max(0.0, keyPoints[0])];
    for idx := 0 to SEGMENTS
      invariant path == UpTo(open, high, low, close, stepsRemaining, idx, ease)
    {
      var baseSteps := AtLeastOne(stepsRemaining / SEGMENTS);
      var steps := AtLeastOne(baseSteps + if idx < extras then 1 else 0);
      path := WalkSegment(path, keyPoints[idx], keyPoints[idx + 1], steps, ease);
    }
    StepsCover(stepsRemaining);
    // No padding: the segments always give enough prices.
    assert |path| >= slots;
    path := path[..slots];
  }

  /** The path after the first `n` segments. */
  function UpTo(open: real, high: real, low: real, close: real, remaining: int, n: int, ease: real -> real): seq<real>
    requires remaining >= 1 && 0 <= n <= SEGMENTS
  {
    var s0 := [Max(0.0, open)];
    if n == 0 then s0
    else
      var s1 := s0 + WholeSegment(open, low, remaining, 0, ease);
      if n == 1 then s1
      else
        var s2 := s1 + WholeSegment(low, high, remaining, 1, ease);
        if n == 2 then s2 else s2 + WholeSegment(high, close, remaining, 2, ease)
  }

  /** The inner loop: append the eased prices of one segment. */
  method WalkSegment(before: seq<real>, from: real, to: real, steps: int, ease: real -> real) returns (path: seq<real>)
    requires steps >= 1
    ensures path == before + Segment(from, to, steps, steps, ease)
  {
    path := before;
    for step := 1 to steps + 1
      invariant path == before + Segment(from, to, step - 1, steps, ease)
    {
      var value := Eased(from, to, Progress(step, steps), ease);
      assert Segment(from, to, step, steps, ease) == Segment(from, to, step - 1, steps, ease) + [value];
      path := path + [value];
    }
  }

  /** The three segments always cover the remaining steps, and exactly so from three steps on. */
  lemma StepsCover(remaining: int)
    requires remaining >= 1
    ensures StepsOf(remaining, 0) + StepsOf(remaining, 1) + StepsOf(remaining, 2) >= remaining
    ensures remaining >= 3 ==> StepsOf(remaining, 0) + StepsOf(remaining, 1) + StepsOf(remaining, 2) == remaining
  {
  }

  /** Non-strictly between two values, in the direction of travel. */
  predicate Toward(from: real, to: real, a: real, b: real) {
    if from <= to then from <= a <= b <= to else from >= a >= b >= to
  }

  lemma EasedToward(from: real, to: real, a: real, b: real, ease: real -> real)
    requires Easing(ease) && from >= 0.0 && to >= 0.0 && 0.0 <= a <= b <= 1.0
    ensures Toward(from, to, Eased(from, to, a, ease), Eased(from, to, b, ease))
  {
    assert 0.0 <= ease(a) <= ease(b) <= 1.0;
    AlongToward(from, to, ease(a), ease(b));
  }

  lemma AlongToward(from: real, to: real, x: real, y: real)
    requires 0.0 <= x <= y <= 1.0
    ensures Toward(from, to, Along(from, to, x), Along(from, to, y))
    ensures Along(from, to, 0.0) == from && Along(from, to, 1.0) == to
  {
    hide Times;
    Scaled(to - from, x, y);
  }

  lemma Scaled(d: real, x: real, y: real)
    requires 0.0 <= x <= y <= 1.0
    ensures d >= 0.0 ==> 0.0 <= Times(d, x) <= Times(d, y) <= d
    ensures d <= 0.0 ==> 0.0 >= Times(d, x) >= Times(d, y) >= d
    ensures Times(d, 0.0) == 0.0 && Times(d, 1.0) == d
  {
  }

  lemma ProgressOrder(i: int, j: int, steps: int)
    requires 0 <= i <= j <= steps && steps >= 1
    ensures Progress(i, steps) <= Progress(j, steps)
    ensures Progress(0, steps) == 0.0 && Progress(steps, steps) == 1.0
  {
    var n := steps as real;
    assert (j as real - i as real) / n >= 0.0;
    assert j as real / n - i as real / n == (j as real - i as real) / n;
  }

  /** A whole segment moves monotonically from just after its start to its end, which it reaches exactly. */
  lemma SegmentShape(from: real, to: real, remaining: int, idx: int, ease: real -> real)
    requires Easing(ease) && from >= 0.0 && to >= 0.0 && remaining >= 1
    ensures var s := WholeSegment(from, to, remaining, idx, ease);
            && s[|s| - 1] == to
            && (forall i, j :: 0 <= i <= j < |s| ==> Toward(from, to, s[i], s[j]))
  {
    var steps := StepsOf(remaining, idx);
    var s := WholeSegment(from, to, remaining, idx, ease);
    ProgressOrder(0, steps, steps);
    assert s[steps - 1] == Eased(from, to, 1.0, ease);
    forall i, j | 0 <= i <= j < |s|
      ensures Toward(from, to, s[i], s[j])
    {
      ProgressOrder(i + 1, j + 1, steps);
      EasedToward(from, to, Progress(i + 1, steps), Progress(j + 1, steps), ease);
    }
  }

  predicate NonIncreasing(s: seq<real>) {
    forall i, j :: 0 <= i <= j < |s| ==> s[i] >= s[j]
  }

  predicate NonDecreasing(s: seq<real>) {
    forall i, j :: 0 <= i <= j < |s| ==> s[i] <= s[j]
  }

  predicate Within(s: seq<real>, low: real, high: real) {
    forall i :: 0 <= i < |s| ==> low <= s[i] <= high
  }

  /** The shape promised of a path: falls from the open to the low, rises to the high, falls to the close. */
  predicate IsVShaped(path: seq<real>, open: real, high: real, low: real, close: real, a: int, b: int) {
    && 0 < a < b < |path| - 1
    && path[0] == open && path[a] == low && path[b] == high && path[|path| - 1] == close
    && NonIncreasing(path[..a + 1]) && NonDecreasing(path[a..b + 1]) && NonIncreasing(path[b..])
    && Within(path, low, high)
  }

  /** A segment with its start in front goes one way, between its two ends. */
  lemma SegmentWithStart(from: real, to: real, remaining: int, idx: int, ease: real -> real)
    requires Easing(ease) && from >= 0.0 && to >= 0.0 && remaining >= 1
    ensures var s := [from] + WholeSegment(from, to, remaining, idx, ease);
            && s[|s| - 1] == to
            && (from >= to ==> NonIncreasing(s) && Within(s, to, from))
            && (from <= to ==> NonDecreasing(s) && Within(s, from, to))
  {
    SegmentShape(from, to, remaining, idx, ease);
  }

  /** With four slots or more the path has exactly that many prices and the promised shape. */
  lemma PathShape(open: real, high: real, low: real, close: real, slots: int, ease: real -> real)
    requires slots >= 4 && Easing(ease) && 0.0 <= low && low <= open <= high && low <= close <= high
    ensures var path := RawPath(open, high, low, close, slots - 1, ease);
            var a := StepsOf(slots - 1, 0);
            |path| == slots && IsVShaped(path, open, high, low, close, a, a + StepsOf(slots - 1, 1))
  {
    hide WholeSegment, NonIncreasing, NonDecreasing, Easing, IsVShaped;
    var remaining := slots - 1;
    var s0 := WholeSegment(open, low, remaining, 0, ease);
    var s1 := WholeSegment(low, high, remaining, 1, ease);
    var s2 := WholeSegment(high, close, remaining, 2, ease);
    StepsCover(remaining);
    SegmentWithStart(open, low, remaining, 0, ease);
    SegmentWithStart(low, high, remaining, 1, ease);
    SegmentWithStart(high, close, remaining, 2, ease);
    assert RawPath(open, high, low, close, remaining, ease) == [open] + s0 + s1 + s2;
    JoinSegments(open, high, low, close, s0, s1, s2);
  }

  /** Three one-way segments, each ending where the next begins, make the promised shape. */
  lemma JoinSegments(open: real, high: real, low: real, close: real, s0: seq<real>, s1: seq<real>, s2: seq<real>)
    requires s0 != [] && s1 != [] && s2 != []
    requires s0[|s0| - 1] == low && s1[|s1| - 1] == high && s2[|s2| - 1] == close
    requires NonIncreasing([open] + s0) && NonDecreasing([low] + s1) && NonIncreasing([high] + s2)
    requires Within([open] + s0, low, high) && Within([low] + s1, low, high) && Within([high] + s2, low, high)
    ensures IsVShaped([open] + s0 + s1 + s2, open, high, low, close, |s0|, |s0| + |s1|)
  {
    var path, a, b := [open] + s0 + s1 + s2, |s0|, |s0| + |s1|;
    hide NonIncreasing, NonDecreasing;
    assert path[a] == s0[a - 1] && path[b] == s1[|s1| - 1] && path[|path| - 1] == s2[|s2| - 1];
    assert path[..a + 1] == [open] + s0;
    assert path[a..b + 1] == [low] + s1;
    assert path[b..] == [high] + s2;
    forall i | 0 <= i < |path| ensures low <= path[i] <= high {
      if i <= a {
        assert path[i] == ([open] + s0)[i];
      } else if i <= b {
        assert path[i] == ([low] + s1)[i - a];
      } else {
        assert path[i] == ([high] + s2)[i - b];
      }
    }
  }

  // ---------------------------------------------------------------------------
  // From a daily row to a path
  // ---------------------------------------------------------------------------

  /** `x or y` on numbers. */
  function Or(x: real, y: real): real {
    if x != 0.0 then x else y
  }

  datatype Bar = Bar(open: real, high: real, low: real, close: real)

  /** Zero prices fall back, and the range is widened to contain open and close. */
  function BarOf(row: Row): Bar {
    var close := row.close;
    var open := Or(row.open, close);
    var high := Or(row.high, Max(open, close));
    var low := Or(row.low, Min(open, close));
    Bar(open, Max(Max(high, open), close), Min(Min(low, open), close), close)
  }

  /** Whatever the row says, the corrected range contains open and close; it is not negative if the row is not. */
  lemma BarIsConsistent(row: Row)
    ensures var b := BarOf(row); b.low <= b.open <= b.high && b.low <= b.close <= b.high
    ensures row.open >= 0.0 && row.low >= 0.0 && row.close >= 0.0 ==> BarOf(row).low >= 0.0
  {
  }

  predicate IsLeastOf(x: real, s: seq<real>) {
    x in s && forall y <- s :: x <= y
  }

  predicate IsGreatestOf(x: real, s: seq<real>) {
    x in s && forall y <- s :: x >= y
  }

  /** From a position on, as far as the curve reaches, each price is the start plus the eased share of the way. */
  predicate Eases(curve: seq<real>, at: nat, from: real, to: real, steps: int, ease: real -> real) {
    steps >= 1 && forall j :: at <= j <= at + steps && j < |curve| ==>
                    curve[j] == from + (to - from) * ease((j - at) as real / steps as real)
  }

  /** Where the path turns: the three segments share the steps evenly, the first ones taking those left over. */
  predicate AreTurns(slots: int, a: int, b: int) {
    if slots >= 4 then 3 * a - 2 <= slots - 1 <= 3 * a && 3 * (slots - 1 - b) <= slots - 1 <= 3 * (slots - 1 - b) + 2
    else a == 2 <= b
  }

  /** A curve with its extremes and turns: from the row's open, or without one its close, down to the least of its
   *  prices, up to the greatest, and to its close. A low or high of zero counts for nothing. */
  ghost predicate Traces(curve: seq<real>, row: Row, ease: real -> real, low: real, high: real, a: nat, b: nat) {
    var open := if row.open != 0.0 then row.open else row.close;
    && IsLeastOf(low, [open, row.close] + if row.low != 0.0 then [row.low] else [])
    && IsGreatestOf(high, [open, row.close] + if row.high != 0.0 then [row.high] else [])
    && AreTurns(|curve|, a, b) && Eases(curve, 0, open, low, a, ease)
    && (|curve| >= 4 ==>
          && IsVShaped(curve, open, high, low, row.close, a, b)
          && IsLeastOf(low, curve) && IsGreatestOf(high, curve)
          && Eases(curve, a, low, high, b - a, ease) && Eases(curve, b, high, row.close, |curve| - 1 - b, ease))
  }

  /** The curve of a row. */
  ghost predicate FollowsRow(curve: seq<real>, row: Row, ease: real -> real) {
    exists low, high, a, b :: Traces(curve, row, ease, low, high, a, b)
  }

  /** A segment's prices, from its start on, are the eased shares of its way. */
  lemma SegmentEases(from: real, to: real, steps: int, ease: real -> real)
    requires Easing(ease) && from >= 0.0 && to >= 0.0 && steps >= 1
    ensures Eases([from] + Segment(from, to, steps, steps, ease), 0, from, to, steps, ease)
  {
    var s := [from] + Segment(from, to, steps, steps, ease);
    forall k | 0 <= k <= steps ensures s[k] == from + (to - from) * ease((k - 0) as real / steps as real) {
      ProgressOrder(0, k, steps);
      ProgressOrder(k, steps, steps);
      EasedIsShare(from, to, Progress(k, steps), ease);
      ProgressOrder(0, 0, steps);
    }
  }

  lemma EasedIsShare(from: real, to: real, t: real, ease: real -> real)
    requires Easing(ease) && from >= 0.0 && to >= 0.0 && 0.0 <= t <= 1.0
    ensures Eased(from, to, t, ease) == from + (to - from) * ease(t)
    ensures t == 0.0 ==> from + (to - from) * ease(t) == from
  {
    assert 0.0 == ease(0.0) <= ease(t) <= ease(1.0) == 1.0;
    AlongToward(from, to, 0.0, ease(t));
    AlongToward(from, to, ease(t), 1.0);
    assert Along(from, to, ease(t)) == from + (to - from) * ease(t);
  }

  /** Where a segment stands in a path, the path eases along it, as far as it reaches. */
  lemma EasesWithin(path: seq<real>, part: seq<real>, at: nat, from: real, to: real, steps: nat, ease: real -> real)
    requires Eases(part, 0, from, to, steps, ease) && |part| == steps + 1
    requires forall j :: at <= j <= at + steps && j < |path| ==> path[j] == part[j - at]
    ensures Eases(path, at, from, to, steps, ease)
  {
    forall j | at <= j <= at + steps && j < |path|
      ensures path[j] == from + (to - from) * ease((j - at) as real / steps as real)
    {
      assert part[j - at] == from + (to - from) * ease((j - at - 0) as real / steps as real);
    }
  }

  lemma TurnsOf(slots: int)
    requires slots >= 2
    ensures var a, b := StepsOf(slots - 1, 0), StepsOf(slots - 1, 0) + StepsOf(slots - 1, 1);
            AreTurns(slots, a, b) && (slots >= 4 ==> slots - 1 - b == StepsOf(slots - 1, 2))
  {
  }

  lemma BarIsExtreme(row: Row)
    ensures var b := BarOf(row);
            && b.open == (if row.open != 0.0 then row.open else row.close) && b.close == row.close
            && IsLeastOf(b.low, [b.open, b.close] + if row.low != 0.0 then [row.low] else [])
            && IsGreatestOf(b.high, [b.open, b.close] + if row.high != 0.0 then [row.high] else [])
  {
    var b := BarOf(row);
    assert b.low == b.open || b.low == b.close || (row.low != 0.0 && b.low == row.low);
    assert b.high == b.open || b.high == b.close || (row.high != 0.0 && b.high == row.high);
  }

  /** Each of three joined segments, with its start in front, stands where the one before ends. */
  lemma Stretches(open: real, low: real, high: real, s0: seq<real>, s1: seq<real>, s2: seq<real>, slots: int)
    requires s0 != [] && s0[|s0| - 1] == low && s1 != [] && s1[|s1| - 1] == high
    requires 0 <= slots <= 1 + |s0| + |s1| + |s2|
    ensures var path, a, b := ([open] + s0 + s1 + s2)[..slots], |s0|, |s0| + |s1|;
            && (forall j :: 0 <= j <= a && j < |path| ==> path[j] == ([open] + s0)[j])
            && (forall j :: a <= j <= b && j < |path| ==> path[j] == ([low] + s1)[j - a])
            && (forall j :: b <= j < |path| ==> path[j] == ([high] + s2)[j - b])
  {
  }

  /** Each stretch of the joined segments is the eased way between two of the four prices, as far as the slots reach. */
  lemma JoinedEases(open: real, high: real, low: real, close: real, n0: int, n1: int, n2: int, slots: int,
                    ease: real -> real, path: seq<real>)
    requires Easing(ease) && open >= 0.0 && high >= 0.0 && low >= 0.0 && close >= 0.0
    requires n0 >= 1 && n1 >= 1 && n2 >= 1 && 0 <= slots <= 1 + n0 + n1 + n2
    requires path == ([open] + Segment(open, low, n0, n0, ease) + Segment(low, high, n1, n1, ease)
                      + Segment(high, close, n2, n2, ease))[..slots]
    ensures Eases(path, 0, open, low, n0, ease)
    ensures Eases(path, n0, low, high, n1, ease)
    ensures Eases(path, n0 + n1, high, close, n2, ease)
  {
    SegmentEnd(open, low, n0, ease);
    SegmentEnd(low, high, n1, ease);
    SegmentEases(open, low, n0, ease);
    SegmentEases(low, high, n1, ease);
    SegmentEases(high, close, n2, ease);
    hide Eases, Segment, Easing;
    StretchesEase(open, high, low, close, Segment(open, low, n0, n0, ease), Segment(low, high, n1, n1, ease),
                  Segment(high, close, n2, n2, ease), slots, ease);
  }

  lemma StretchesEase(open: real, high: real, low: real, close: real, s0: seq<real>, s1: seq<real>, s2: seq<real>,
                      slots: int, ease: real -> real)
    requires s0 != [] && s0[|s0| - 1] == low && s1 != [] && s1[|s1| - 1] == high && s2 != []
    requires 0 <= slots <= 1 + |s0| + |s1| + |s2|
    requires Eases([open] + s0, 0, open, low, |s0|, ease) && Eases([low] + s1, 0, low, high, |s1|, ease)
    requires Eases([high] + s2, 0, high, close, |s2|, ease)
    ensures var path := ([open] + s0 + s1 + s2)[..slots];
            && Eases(path, 0, open, low, |s0|, ease) && Eases(path, |s0|, low, high, |s1|, ease)
            && Eases(path, |s0| + |s1|, high, close, |s2|, ease)
  {
    hide Eases;
    Stretches(open, low, high, s0, s1, s2, slots);
    var path := ([open] + s0 + s1 + s2)[..slots];
    assert Eases(path, 0, open, low, |s0|, ease) by {
      EasesWithin(path, [open] + s0, 0, open, low, |s0|, ease);
    }
    assert Eases(path, |s0|, low, high, |s1|, ease) by {
      EasesWithin(path, [low] + s1, |s0|, low, high, |s1|, ease);
    }
    assert Eases(path, |s0| + |s1|, high, close, |s2|, ease) by {
      EasesWithin(path, [high] + s2, |s0| + |s1|, high, close, |s2|, ease);
    }
  }

  lemma SegmentEnd(from: real, to: real, n: int, ease: real -> real)
    requires Easing(ease) && from >= 0.0 && to >= 0.0 && n >= 1
    ensures Segment(from, to, n, n, ease)[n - 1] == to
  {
    ProgressOrder(0, n, n);
    AlongToward(from, to, 0.0, 1.0);
  }

  lemma PathEases(open: real, high: real, low: real, close: real, slots: int, ease: real -> real)
    requires slots >= 2 && Easing(ease) && 0.0 <= low && low <= open <= high && low <= close <= high
    ensures var n0, n1, n2 := StepsOf(slots - 1, 0), StepsOf(slots - 1, 1), StepsOf(slots - 1, 2);
            && 1 + n0 + n1 + n2 >= slots
            && var path := RawPath(open, high, low, close, slots - 1, ease)[..slots];
               && Eases(path, 0, open, low, n0, ease) && Eases(path, n0, low, high, n1, ease)
               && Eases(path, n0 + n1, high, close, n2, ease)
  {
    StepsCover(slots - 1);
    hide Easing, StepsOf, Eases, Segment;
    var n0, n1, n2 := StepsOf(slots - 1, 0), StepsOf(slots - 1, 1), StepsOf(slots - 1, 2);
    var path := RawPath(open, high, low, close, slots - 1, ease)[..slots];
    assert path == ([open] + Segment(open, low, n0, n0, ease) + Segment(low, high, n1, n1, ease)
                    + Segment(high, close, n2, n2, ease))[..slots];
    JoinedEases(open, high, low, close, n0, n1, n2, slots, ease, path);
  }

  lemma PathReaches(open: real, high: real, low: real, close: real, slots: int, ease: real -> real, path: seq<real>)
    requires slots >= 4 && Easing(ease) && 0.0 <= low && low <= open <= high && low <= close <= high
    requires |RawPath(open, high, low, close, slots - 1, ease)| >= slots
    requires path == RawPath(open, high, low, close, slots - 1, ease)[..slots]
    ensures IsVShaped(path, open, high, low, close, StepsOf(slots - 1, 0),
                      StepsOf(slots - 1, 0) + StepsOf(slots - 1, 1))
    ensures IsLeastOf(low, path) && IsGreatestOf(high, path)
  {
    hide StepsOf, RawPath, Easing, IsLeastOf, IsGreatestOf, IsVShaped;
    PathShape(open, high, low, close, slots, ease);
    assert path == RawPath(open, high, low, close, slots - 1, ease);
    VShapeReaches(path, open, high, low, close, StepsOf(slots - 1, 0), StepsOf(slots - 1, 0) + StepsOf(slots - 1, 1));
  }

  /** The path of a row's bar follows the row. */
  lemma PathFollows(row: Row, bar: Bar, slots: int, ease: real -> real, path: seq<real>)
    requires slots >= 2 && Easing(ease) && bar == BarOf(row) && bar.low >= 0.0
    requires |RawPath(bar.open, bar.high, bar.low, bar.close, slots - 1, ease)| >= slots
    requires path == RawPath(bar.open, bar.high, bar.low, bar.close, slots - 1, ease)[..slots]
    ensures FollowsRow(path, row, ease)
  {
    hide BarOf, StepsOf, RawPath, Eases, Easing, IsLeastOf, IsGreatestOf, IsVShaped, AreTurns;
    var a, b := StepsOf(slots - 1, 0), StepsOf(slots - 1, 0) + StepsOf(slots - 1, 1);
    BarIsConsistent(row);
    BarIsExtreme(row);
    TurnsOf(slots);
    PathEases(bar.open, bar.high, bar.low, bar.close, slots, ease);
    if slots >= 4 {
      PathReaches(bar.open, bar.high, bar.low, bar.close, slots, ease, path);
    }
    assert Traces(path, row, ease, bar.low, bar.high, a, b);
  }

  lemma VShapeReaches(path: seq<real>, open: real, high: real, low: real, close: real, a: int, b: int)
    requires IsVShaped(path, open, high, low, close, a, b)
    ensures IsLeastOf(low, path) && IsGreatestOf(high, path)
  {
    assert path[a] == low && path[b] == high;
    hide NonIncreasing, NonDecreasing;
  }

  method GenerateIntradayCurve(rows: seq<Row>, date: int, slots: int, ease: real -> real) returns (curve: seq<real>)
    requires slots >= 1
    ensures |curve| == slots
    ensures rows == [] ==> forall i :: 0 <= i < slots ==> curve[i] == 0.0
    ensures rows != [] && RowAtOrBefore(rows, date).None? ==>
              forall i :: 0 <= i < slots ==> curve[i] == rows[|rows| - 1].close
    ensures RowAtOrBefore(rows, date).Some? ==>
              var row := RowAtOrBefore(rows, date).value;
              && (slots == 1 ==> curve == [row.close])
              && (slots >= 2 && Easing(ease) && row.open >= 0.0 && row.low >= 0.0 && row.close >= 0.0 ==>
                    FollowsRow(curve, row, ease))
  {
    if rows == [] {
      return seq(slots, _ => 0.0);
    }
    var found := RowAtOrBefore(rows, date);
    if found.None? {
      var last := rows[|rows| - 1].close;
      return seq(slots, _ => last);
    }
    var row := found.value;
    var b := BarOf(row);
    curve := SimulateIntradayPath(b.open, b.high, b.low, b.close, slots, ease);
    ghost var follows := slots >= 2 && Easing(ease) && row.open >= 0.0 && row.low >= 0.0 && row.close >= 0.0;
    if follows {
      BarIsConsistent(row);
      hide Easing, RawPath, FollowsRow, BarOf;
      PathFollows(row, b, slots, ease, curve);
    }
  }
}
