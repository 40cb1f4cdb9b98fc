/** Maximum drawdown: the one-pass loops of both backtests against the definition over all pairs of days. */
module Drawdown {
  import opened Prelude

  predicate Positive(curve: seq<real>) {
    forall i :: 0 <= i < |curve| ==> curve[i] > 0.0
  }

  /** Relative change from one equity to a later one. */
  function Change(from: real, to: real): real
    requires from > 0.0
  {
    (to - from) / from
  }

  /** The definition: no pair of days does worse, and unless it is zero some pair does exactly this. */
  ghost predicate IsWorst(worst: real, curve: seq<real>)
    requires Positive(curve)
  {
    && worst <= 0.0
    && (forall i, j :: 0 <= i <= j < |curve| ==> worst <= Change(curve[i], curve[j]))
    && (worst == 0.0 || exists i, j :: 0 <= i <= j < |curve| && worst == Change(curve[i], curve[j]))
  }

  lemma WorstIsUnique(a: real, b: real, curve: seq<real>)
    requires Positive(curve) && IsWorst(a, curve) && IsWorst(b, curve)
    ensures a == b
  {
  }

  lemma ChangeScales(from: real, to: real)
    requires from > 0.0
    ensures (1.0 + Change(from, to)) * from == to
  {
    var c := (to - from) / from;
    assert c * from == to - from;
  }

  lemma ChangeMonotone(from: real, higher: real, to: real)
    requires 0.0 < from <= higher && 0.0 < to
    ensures Change(higher, to) <= Change(from, to)
  {
    ChangeScales(higher, to);
    ChangeScales(from, to);
    LargerDivisor(1.0 + Change(higher, to), higher, 1.0 + Change(from, to), from);
  }

  lemma LargerDivisor(c: real, higher: real, d: real, from: real)
    requires 0.0 < from <= higher && 0.0 < c * higher == d * from
    ensures c <= d
  {
    PositiveFactor(c, higher);
    assert c * (higher - from) >= 0.0;
    assert c * higher - c * from == c * (higher - from);
    assert (d - c) * from == d * from - c * from >= 0.0;
    assert d < c ==> (d - c) * from < 0.0;
  }

  lemma PositiveFactor(a: real, b: real)
    requires b > 0.0 && a * b > 0.0
    ensures a > 0.0
  {
    assert a <= 0.0 ==> a * b <= 0.0;
  }

  /** State of the loops: the highest equity so far (none before the first day) and the worst drawdown. */
  ghost predicate Tracks(peak: Option<real>, worst: real, seen: seq<real>) {
    && Positive(seen)
    && (peak.None? <==> seen == [])
    && (peak.Some? ==> peak.value in seen && forall i :: 0 <= i < |seen| ==> seen[i] <= peak.value)
    && IsWorst(worst, seen)
  }

  /** One turn of either loop. */
  lemma TrackOneMore(peak: Option<real>, worst: real, seen: seq<real>, value: real, peak': real, worst': real)
    requires value > 0.0 && Tracks(peak, worst, seen)
    requires peak' == if peak.None? || value > peak.value then value else peak.value
    requires peak' > 0.0 && worst' == Min(worst, Change(peak', value))
    ensures Tracks(Some(peak'), worst', seen + [value])
  {
    var now := seen + [value];
    assert now[|seen|] == value;
    assert peak' in now;
    forall i, j | 0 <= i <= j < |now| ensures worst' <= Change(now[i], now[j]) {
      if j < |seen| {
        assert now[i] == seen[i] && now[j] == seen[j];
      } else {
        ChangeMonotone(now[i], peak', value);
      }
    }
    if worst' < worst {
      var i :| 0 <= i < |now| && now[i] == peak';
      assert worst' == Change(now[i], now[|seen|]);
    } else if worst < 0.0 {
      var i, j :| 0 <= i <= j < |seen| && worst == Change(seen[i], seen[j]);
      assert now[i] == seen[i] && now[j] == seen[j];
    }
  }

  /** The loops start with nothing seen, or with a given first peak. */
  lemma TrackStart(peak: Option<real>)
    ensures peak.None? ==> Tracks(peak, 0.0, [])
    ensures peak.Some? && peak.value > 0.0 ==> Tracks(peak, 0.0, [peak.value])
  {
    if peak.Some? && peak.value > 0.0 {
      assert Change(peak.value, peak.value) == 0.0;
    }
  }

  /** The facts a loop turn needs, for a positive value. */
  lemma TrackFacts(peak: Option<real>, worst: real, seen: seq<real>)
    requires Tracks(peak, worst, seen)
    ensures Positive(seen) && IsWorst(worst, seen)
    ensures peak.Some? ==> peak.value > 0.0
  {
  }

  lemma PositiveAt(curve: seq<real>, i: nat)
    requires Positive(curve) && i < |curve|
    ensures curve[i] > 0.0
  {
  }

  lemma PositivePrefix(peak: Option<real>, curve: seq<real>)
    requires Positive(curve) && (peak.Some? ==> peak.value > 0.0)
    ensures peak.Some? ==> Positive([peak.value] + curve)
  {
  }

  /** `Backtester._compute_mdd`: a non-negative percentage. */
  method ComputeMdd(curve: seq<real>) returns (mdd: real)
    ensures mdd >= 0.0
    ensures Positive(curve) ==> IsWorst(-mdd / 100.0, curve)
  {
    hide Change, Tracks, IsWorst, Positive;
    TrackStart(None);
    if curve == [] {
      TrackFacts(None, 0.0, []);
      return 0.0;
    }
    var maxDrawdown := 0.0;
    var peak: Option<real> := None;
    ghost var positive := Positive(curve);
    for i := 0 to |curve|
      invariant maxDrawdown <= 0.0 && (peak.None? <==> i == 0)
      invariant positive ==> Tracks(peak, maxDrawdown / 100.0, curve[..i])
    {
      var eq := curve[i];
      ghost var peakBefore, worst := peak, maxDrawdown / 100.0;
      if peak.None? || eq > peak.value {
        peak := Some(eq);
      }
      var dd := if peak.value > 0.0 then Change(peak.value, eq) * 100.0 else 0.0;
      if dd < maxDrawdown {
        maxDrawdown := dd;
      }
      assert curve[..i + 1] == curve[..i] + [eq];
      if positive {
        PositiveAt(curve, i);
        TrackFacts(peakBefore, worst, curve[..i]);
        TrackOneMore(peakBefore, worst, curve[..i], eq, peak.value, maxDrawdown / 100.0);
      }
    }
    assert curve[..|curve|] == curve;
    if positive {
      TrackFacts(peak, maxDrawdown / 100.0, curve);
    }
    return Abs(maxDrawdown);
  }

  /** The drawdown loop of the GPT report, started from a given peak: a non-positive fraction. */
  method ReportDrawdown(startPeak: Option<real>, curve: seq<real>) returns (mdd: real)
    ensures mdd <= 0.0
    ensures startPeak.None? && Positive(curve) ==> IsWorst(mdd, curve)
    ensures startPeak.Some? && startPeak.value > 0.0 && Positive(curve) ==>
              Positive([startPeak.value] + curve) && IsWorst(mdd, [startPeak.value] + curve)
  {
    hide Change, Tracks, IsWorst, Positive;
    var peak := startPeak;
    mdd := 0.0;
    ghost var prefix := if startPeak.None? then [] else [startPeak.value];
    ghost var positive := Positive(curve) && (startPeak.Some? ==> startPeak.value > 0.0);
    TrackStart(startPeak);
    assert prefix + curve[..0] == prefix;
    for i := 0 to |curve|
      invariant mdd <= 0.0 && (peak.None? <==> startPeak.None? && i == 0)
      invariant positive ==> Tracks(peak, mdd, prefix + curve[..i])
    {
      var value := curve[i];
      ghost var peakBefore, worst, seen := peak, mdd, prefix + curve[..i];
      if peak.None? || value > peak.value {
        peak := Some(value);
      }
      var drawdown := if peak.value > 0.0 then Change(peak.value, value) else 0.0;
      mdd := Min(mdd, drawdown);
      assert prefix + curve[..i + 1] == seen + [value];
      if positive {
        PositiveAt(curve, i);
        TrackFacts(peakBefore, worst, seen);
        TrackOneMore(peakBefore, worst, seen, value, peak.value, mdd);
      }
    }
    assert prefix + curve[..|curve|] == prefix + curve;
    assert startPeak.None? ==> prefix + curve == curve;
    if positive {
      PositivePrefix(startPeak, curve);
      TrackFacts(peak, mdd, prefix + curve);
    }
  }

  // ---------------------------------------------------------------------------
  // Out-of-sample
  // ---------------------------------------------------------------------------

  datatype Entry = Entry(date: int, equity: real)

  predicate InDateOrder(es: seq<Entry>) {
    forall i, j :: 0 <= i < j < |es| ==> es[i].date <= es[j].date
  }

  /** `[e for e in entries if e.date >= start]` */
  function From(es: seq<Entry>, start: int): seq<Entry> {
    if es == [] then []
    else From(es[..|es| - 1], start) + if es[|es| - 1].date >= start then [es[|es| - 1]] else []
  }

  /** `[e for e in entries if e.date < start]` */
  function Before(es: seq<Entry>, start: int): seq<Entry> {
    if es == [] then []
    else Before(es[..|es| - 1], start) + if es[|es| - 1].date < start then [es[|es| - 1]] else []
  }

  lemma OrderOfFront(es: seq<Entry>, front: seq<Entry>)
    requires InDateOrder(es) && es != [] && front == es[..|es| - 1]
    ensures InDateOrder(front)
    ensures forall i :: 0 <= i < |front| ==> front[i].date <= es[|es| - 1].date
  {
  }

  /** In date order the two filters cut the entries in two, at the first one dated at the start or later. */
  lemma {:induction false} FiltersCut(es: seq<Entry>, start: int)
    requires InDateOrder(es)
    ensures es == Before(es, start) + From(es, start)
    ensures forall i :: 0 <= i < |es| ==> (i < |Before(es, start)| <==> es[i].date < start)
  {
    if es != [] {
      var front, e := es[..|es| - 1], es[|es| - 1];
      OrderOfFront(es, front);
      hide InDateOrder;
      FiltersCut(front, start);
      assert es == front + [e];
      if e.date < start {
        NoneLate(front, start);
      } else {
        assert Before(front, start) + From(front, start) + [e] == Before(front, start) + (From(front, start) + [e]);
      }
    }
  }

  lemma {:induction false} NoneLate(es: seq<Entry>, start: int)
    requires forall i :: 0 <= i < |es| ==> es[i].date < start
    ensures From(es, start) == []
  {
    if es != [] {
      NoneLate(es[..|es| - 1], start);
    }
  }

  function Equities(es: seq<Entry>): (c: seq<real>)
    ensures |c| == |es|
  {
    seq(|es|, i requires 0 <= i < |es| => es[i].equity)
  }

  datatype OutOfSample = OutOfSample(startEquity: real, endEquity: real, totalReturn: real, mdd: real)

  /** What the out-of-sample figures mean, for the entries before and after the split. */
  ghost predicate Summarises(o: OutOfSample, early: seq<Entry>, late: seq<Entry>, initialCapital: real) {
    && late != []
    && o.startEquity == (if early != [] then early[|early| - 1].equity else initialCapital)
    && o.endEquity == late[|late| - 1].equity
    && (1.0 + o.totalReturn) * o.startEquity == o.endEquity
    && Positive([o.startEquity] + Equities(late))
    && IsWorst(o.mdd, [o.startEquity] + Equities(late))
  }

  /** The out-of-sample part of the report; None when no entry falls in it. Returns are fractions. */
  method ReportOutOfSample(es: seq<Entry>, start: int, initialCapital: real) returns (r: Option<OutOfSample>)
    requires initialCapital > 0.0 && Positive(Equities(es))
    ensures r.None? <==> From(es, start) == []
    ensures r.Some? ==> Summarises(r.value, Before(es, start), From(es, start), initialCapital)
  {
    var late, early := From(es, start), Before(es, start);
    if late == [] {
      return None;
    }
    FiltersArePositive(es, start);
    r := Summarise(early, late, initialCapital);
  }

  method Summarise(early: seq<Entry>, late: seq<Entry>, initialCapital: real) returns (r: Option<OutOfSample>)
    requires initialCapital > 0.0 && late != [] && Positive(Equities(late))
    requires early != [] ==> early[|early| - 1].equity > 0.0
    ensures r.Some? && Summarises(r.value, early, late, initialCapital)
  {
    hide IsWorst, Positive, Equities, Change;
    var startEquity := if early != [] then early[|early| - 1].equity else initialCapital;
    var endEquity := late[|late| - 1].equity;
    var totalReturn := Change(startEquity, endEquity);
    ChangeScales(startEquity, endEquity);
    var mdd := ReportDrawdown(Some(startEquity), Equities(late));
    return Some(OutOfSample(startEquity, endEquity, totalReturn, mdd));
  }

  lemma {:induction false} FiltersPick(es: seq<Entry>, start: int)
    ensures forall e <- From(es, start) :: e in es
    ensures forall e <- Before(es, start) :: e in es
  {
    if es != [] {
      FiltersPick(es[..|es| - 1], start);
    }
  }

  lemma FiltersArePositive(es: seq<Entry>, start: int)
    requires Positive(Equities(es))
    ensures Positive(Equities(From(es, start)))
    ensures Before(es, start) != [] ==> Before(es, start)[|Before(es, start)| - 1].equity > 0.0
  {
    FiltersPick(es, start);
    assert forall e <- es :: e.equity > 0.0 by {
      forall e <- es ensures e.equity > 0.0 {
        var i :| 0 <= i < |es| && es[i] == e;
        assert Equities(es)[i] > 0.0;
      }
    }
    hide From, Before;
    var late := From(es, start);
    forall i | 0 <= i < |late| ensures Equities(late)[i] > 0.0 {
      assert late[i] in es;
    }
  }

  /** With training days, the out-of-sample drawdown is never deeper than that of the whole run. */
  lemma OutOfSampleNotDeeper(es: seq<Entry>, start: int, oos: real, full: real)
    requires InDateOrder(es) && Positive(Equities(es)) && Before(es, start) != []
    requires var early := Before(es, start);
             var curve := [early[|early| - 1].equity] + Equities(From(es, start));
             Positive(curve) && IsWorst(oos, curve)
    requires IsWorst(full, Equities(es))
    ensures full <= oos
  {
    hide Change, IsWorst, InDateOrder;
    var early, late := Before(es, start), From(es, start);
    var curve, k := [early[|early| - 1].equity] + Equities(late), |early| - 1;
    FiltersCut(es, start);
    assert forall i :: 0 <= i < |curve| ==> curve[i] == Equities(es)[k + i];
    SuffixNotDeeper(curve, Equities(es), k, oos, full);
  }

  /** A stretch of a curve never has a deeper drawdown than the whole. */
  lemma SuffixNotDeeper(part: seq<real>, whole: seq<real>, k: nat, partWorst: real, worst: real)
    requires Positive(part) && Positive(whole) && k + |part| <= |whole|
    requires forall i :: 0 <= i < |part| ==> part[i] == whole[k + i]
    requires IsWorst(partWorst, part) && IsWorst(worst, whole)
    ensures worst <= partWorst
  {
    hide Change;
    if partWorst < 0.0 {
      var i, j :| 0 <= i <= j < |part| && partWorst == Change(part[i], part[j]);
      assert worst <= Change(whole[k + i], whole[k + j]);
    }
  }

  /** The out-of-sample drawdown is not deeper than that of the whole run exactly when there are training entries, or no
   *  equity of the run lies further below the initial capital than the run's own drawdown. */
  lemma OutOfSampleNotDeeperIff(es: seq<Entry>, start: int, initialCapital: real, o: OutOfSample, full: real)
    requires InDateOrder(es) && Positive(Equities(es)) && initialCapital > 0.0
    requires Summarises(o, Before(es, start), From(es, start), initialCapital)
    requires IsWorst(full, Equities(es))
    ensures full <= o.mdd
            <==> Before(es, start) != []
                 || forall i :: 0 <= i < |es| ==> full <= Change(initialCapital, Equities(es)[i])
  {
    hide Change, InDateOrder;
    if Before(es, start) != [] {
      OutOfSampleNotDeeper(es, start, o.mdd, full);
    } else {
      FiltersCut(es, start);
      assert es == From(es, start);
      HeadNotDeeperIff(initialCapital, Equities(es), o.mdd, full);
    }
  }

  /** Putting a value in front of a curve deepens its drawdown exactly when some later value lies further below it. */
  lemma HeadNotDeeperIff(head: real, curve: seq<real>, whole: real, worst: real)
    requires head > 0.0 && Positive(curve) && Positive([head] + curve)
    requires IsWorst(worst, curve) && IsWorst(whole, [head] + curve)
    ensures worst <= whole <==> forall i :: 0 <= i < |curve| ==> worst <= Change(head, curve[i])
  {
    var all := [head] + curve;
    HeadIsLevel(head);
    hide Change;
    forall i | 0 <= i < |curve| ensures whole <= Change(head, curve[i]) {
      assert whole <= Change(all[0], all[i + 1]);
    }
    if (forall i :: 0 <= i < |curve| ==> worst <= Change(head, curve[i])) && whole < 0.0 {
      var i, j :| 0 <= i <= j < |all| && whole == Change(all[i], all[j]);
      if i > 0 {
        assert all[i] == curve[i - 1] && all[j] == curve[j - 1];
      } else if j > 0 {
        assert all[j] == curve[j - 1];
      }
    }
  }

  lemma HeadIsLevel(head: real)
    requires head > 0.0
    ensures Change(head, head) == 0.0
  {
  }

  /** Without training days it can be deeper: the run starts below the initial capital and then stays flat. */
  lemma OutOfSampleCanBeDeeper()
    ensures var es := [Entry(1, 90.0)];
            && Before(es, 1) == [] && Equities(From(es, 1)) == [90.0]
            && IsWorst(-0.1, [100.0] + Equities(From(es, 1))) && IsWorst(0.0, Equities(es))
  {
    var es := [Entry(1, 90.0)];
    assert es[..0] == [];
    assert From(es, 1) == es;
    var curve := [100.0, 90.0];
    assert Change(100.0, 90.0) == -0.1;
    assert Change(curve[0], curve[1]) == -0.1;
    assert [100.0] + Equities(From(es, 1)) == curve;
  }

  /** `last_equity`: the equity of the last entry, or the initial capital without entries. */
  function LastEquity(es: seq<Entry>, initialCapital: real): real {
    if es == [] then initialCapital else es[|es| - 1].equity
  }

  /** The report's total return, as a fraction. */
  method ReportReturn(es: seq<Entry>, initialCapital: real) returns (totalReturn: real)
    requires initialCapital > 0.0
    ensures (1.0 + totalReturn) * initialCapital == LastEquity(es, initialCapital)
  {
    var lastEquity := initialCapital;
    if es != [] {
      lastEquity := es[|es| - 1].equity;
    }
    totalReturn := lastEquity / initialCapital - 1.0;
  }

  lemma LastOfJoined(early: seq<Entry>, late: seq<Entry>, initialCapital: real)
    requires late != []
    ensures LastEquity(early + late, initialCapital) == late[|late| - 1].equity
  {
  }

  /** The return of the training entries composed with the out-of-sample return is the return of the whole run. */
  lemma ReturnsCompose(es: seq<Entry>, start: int, initialCapital: real, o: OutOfSample, train: real, total: real)
    requires InDateOrder(es) && initialCapital > 0.0
    requires Summarises(o, Before(es, start), From(es, start), initialCapital)
    requires (1.0 + train) * initialCapital == LastEquity(Before(es, start), initialCapital)
    requires (1.0 + total) * initialCapital == LastEquity(es, initialCapital)
    ensures (1.0 + train) * (1.0 + o.totalReturn) == 1.0 + total
  {
    hide IsWorst, Positive, InDateOrder, Before, From, Equities, Change;
    FiltersCut(es, start);
    LastOfJoined(Before(es, start), From(es, start), initialCapital);
    FactorsCompose(initialCapital, o.startEquity, o.endEquity, train, o.totalReturn, total);
  }

  lemma FactorsCompose(initialCapital: real, trainEnd: real, end: real, train: real, oos: real, total: real)
    requires initialCapital > 0.0
    requires (1.0 + train) * initialCapital == trainEnd
    requires (1.0 + oos) * trainEnd == end
    requires (1.0 + total) * initialCapital == end
    ensures (1.0 + train) * (1.0 + oos) == 1.0 + total
  {
    var a, b, t := 1.0 + train, 1.0 + oos, 1.0 + total;
    assert (a * b - t) * initialCapital == b * (a * initialCapital) - t * initialCapital;
  }
}
