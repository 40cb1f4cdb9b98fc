/** What a day does to one position, and why, in the figures of the position, its row and the rules. */
module BacktesterOutcome {
  import opened Prelude
  import opened MarketData
  import opened BacktesterSpec

  // ---------------------------------------------------------------------------
  // Rows up to a day
  // ---------------------------------------------------------------------------

  /** In date order, the rows up to a day are exactly those dated on or before it, in their order. */
  lemma {:induction false} UpToIff(rows: seq<Row>, date: int)
    requires InDateOrder(rows)
    ensures var n := |UpTo(rows, date)|;
            && n <= |rows| && UpTo(rows, date) == rows[..n]
            && forall i :: 0 <= i < |rows| ==> (i < n <==> rows[i].date <= date)
  {
    if rows != [] && rows[|rows| - 1].date > date {
      var front := rows[..|rows| - 1];
      UpToIff(front, date);
      assert forall i :: 0 <= i < |front| ==> front[i] == rows[i];
    }
  }

  lemma SameCut(rows: seq<Row>, date: int, m: nat, n: nat)
    requires m <= |rows| && n <= |rows|
    requires forall i :: 0 <= i < |rows| ==> (i < m <==> rows[i].date <= date)
    requires forall i :: 0 <= i < |rows| ==> (i < n <==> rows[i].date <= date)
    ensures m == n
  {
    assert m < |rows| ==> (m < n <==> rows[m].date <= date);
    assert n < |rows| ==> (n < m <==> rows[n].date <= date);
  }

  /** The day's row is the last one dated on it; the cached price is the last close on or before it, or the cost. */
  lemma RowsInFigures(rows: seq<Row>, date: int, avgPrice: real, n: nat)
    requires InDateOrder(rows) && n <= |rows|
    requires forall i :: 0 <= i < |rows| ==> (i < n <==> rows[i].date <= date)
    ensures RowOn(rows, date) == if n > 0 && rows[n - 1].date == date then Some(rows[n - 1]) else None
    ensures CachePrice(rows, date, avgPrice) == if n > 0 then rows[n - 1].close else avgPrice
    ensures forall close :: SellPrice(rows, date, close) == (if n > 0 then rows[n - 1].low else close) * 0.99885
  {
    UpToIff(rows, date);
    SameCut(rows, date, |UpTo(rows, date)|, n);
  }

  // ---------------------------------------------------------------------------
  // The decision
  // ---------------------------------------------------------------------------

  /** A day on which the stock has no row, or fewer than fifteen so far, leaves the position as it is. */
  lemma NoRowNoChange(p: Pos, rows: seq<Row>, date: int, rules: Rules)
    ensures RowOn(rows, date).None? || |UpTo(rows, date)| < 15 ==> CheckForSell(p, rows, date, rules) == (NoSell, p)
  {
  }

  /** Exactly why a day sells, or keeps, a position: the stop in force before the trailing level, the loss limit and the
   *  target, then the RSI tiers from the highest, then age. */
  lemma DayOutcomeIff(p: Pos, rows: seq<Row>, date: int, rules: Rules, row: Row, d: Decision, marked: Pos)
    requires RowOn(rows, date) == Some(row) && |UpTo(rows, date)| >= 15 && p.avgPrice > 0.0
    requires (d, marked) == CheckForSell(p, rows, date, rules)
    ensures var close, high := row.close, Max(p.highPrice, row.close);
            var stop := if p.stopTrailing.Some? && p.stopTrailing.value != 0.0 then p.stopTrailing.value
                        else p.stopInitial;
            var stopped := stop != 0.0 && close <= stop;
            var trailed := close <= high * (1.0 - rules.trailingStopPct);
            var lost := close <= p.avgPrice * (1.0 + rules.stopLossPct);
            var won := close >= p.avgPrice * (1.0 + rules.targetPct) && p.soldRatio <= 0.01;
            var inside := !stopped && !trailed && !lost && !won;
            var rsi80 := row.rsi.Some? && row.rsi.value >= rules.rsi3 && p.soldRatio < 0.8;
            var rsi75 := row.rsi.Some? && row.rsi.value >= rules.rsi2 && p.soldRatio < 0.5;
            var rsi70 := row.rsi.Some? && row.rsi.value >= rules.rsi1 && p.soldRatio < 0.3;
            var part := if rsi80 then 0.2 else if rsi75 then 0.5 else if rsi70 then 0.3 else 0.0;
            var aged := date - p.entryDate >= rules.timeLimitDays;
            && (d == SellAll("SELL_STOP_LOSS_ATR") <==> stopped)
            && (d == SellAll("SELL_TRAILING_STOP") <==> !stopped && trailed)
            && (d == SellAll("SELL_STOP_LOSS_DYNAMIC") <==> !stopped && !trailed && lost)
            && (d == SellAll("SELL_PROFIT_TARGET") <==> !stopped && !trailed && !lost && won)
            && (d == SellAll("SELL_TAKE_PROFIT_RSI") <==> inside && part > 0.0 && p.soldRatio + part >= 0.99)
            && (d.SellPart? <==> inside && part > 0.0 && p.soldRatio + part < 0.99)
            && (d.SellPart? ==>
                  d.reason == "SELL_TAKE_PROFIT_RSI_PARTIAL"
                  && (p.quantity >= 1 ==> IsWholePart(d.quantity, p.quantity as real * part, p.quantity)))
            && (d == SellAll("SELL_TIME_BASED") <==> inside && part == 0.0 && aged)
            && (d == NoSell <==> inside && part == 0.0 && !aged)
  {
    hide Decide, UpTo, RowOn, Raise, Arm, Max;
    RaisedFigures(p, row.close);
    DecisionFigures(p.(highPrice := Max(p.highPrice, row.close)), row, date, rules);
  }

  lemma RaisedFigures(p: Pos, close: real)
    ensures Raise(p, close) == p.(highPrice := Max(p.highPrice, close))
  {
  }

  lemma PartOfHeld(quantity: int, part: real)
    requires quantity >= 1 && 0.0 < part < 1.0
    ensures var wanted := Trunc(quantity as real * part);
            IsWholePart(if wanted >= 1 then wanted else 1, quantity as real * part, quantity)
  {
    var q := quantity as real;
    assert q * part > 0.0;
    assert q - q * part == q * (1.0 - part);
    assert 1.0 - part > 0.0;
    assert q * (1.0 - part) > 0.0;
  }

  lemma DecisionFigures(p: Pos, row: Row, date: int, rules: Rules)
    requires p.avgPrice > 0.0
    ensures var d := Decide(p, row, date, rules);
            var close := row.close;
            var stop := if p.stopTrailing.Some? && p.stopTrailing.value != 0.0 then p.stopTrailing.value
                        else p.stopInitial;
            var rsi80 := row.rsi.Some? && row.rsi.value >= rules.rsi3 && p.soldRatio < 0.8;
            var rsi75 := row.rsi.Some? && row.rsi.value >= rules.rsi2 && p.soldRatio < 0.5;
            var rsi70 := row.rsi.Some? && row.rsi.value >= rules.rsi1 && p.soldRatio < 0.3;
            var part := if rsi80 then 0.2 else if rsi75 then 0.5 else if rsi70 then 0.3 else 0.0;
            if stop != 0.0 && close <= stop then d == SellAll("SELL_STOP_LOSS_ATR")
            else if close <= p.highPrice * (1.0 - rules.trailingStopPct) then d == SellAll("SELL_TRAILING_STOP")
            else if close <= p.avgPrice * (1.0 + rules.stopLossPct) then d == SellAll("SELL_STOP_LOSS_DYNAMIC")
            else if close >= p.avgPrice * (1.0 + rules.targetPct) && p.soldRatio <= 0.01
            then d == SellAll("SELL_PROFIT_TARGET")
            else if part > 0.0 && p.soldRatio + part >= 0.99 then d == SellAll("SELL_TAKE_PROFIT_RSI")
            else if part > 0.0
            then && d.SellPart? && d.reason == "SELL_TAKE_PROFIT_RSI_PARTIAL"
                 && (p.quantity >= 1 ==> IsWholePart(d.quantity, p.quantity as real * part, p.quantity))
            else if date - p.entryDate >= rules.timeLimitDays then d == SellAll("SELL_TIME_BASED")
            else d == NoSell
  {
    ReturnOrder(p.avgPrice, row.close, rules.stopLossPct);
    ReturnOrder(p.avgPrice, row.close, rules.targetPct);
    if p.quantity >= 1 {
      PartOfHeld(p.quantity, 0.2);
      PartOfHeld(p.quantity, 0.5);
      PartOfHeld(p.quantity, 0.3);
    }
    hide Trunc, IsWholePart;
  }

  /** What a day leaves of the marks: the high is raised to the close, and the trailing stop of a kept position is
   *  armed at its cost exactly when the close has risen by the initial multiple of the ATR. */
  lemma MarksInFigures(p: Pos, rows: seq<Row>, date: int, rules: Rules, row: Row, d: Decision, marked: Pos)
    requires RowOn(rows, date) == Some(row) && |UpTo(rows, date)| >= 15
    requires (d, marked) == CheckForSell(p, rows, date, rules)
    ensures var armed := d.NoSell? && row.atr.Some? && (p.stopTrailing.None? || p.stopTrailing == Some(0.0))
                         && row.close >= p.avgPrice + row.atr.value * rules.atrMultInitial;
            marked == p.(highPrice := Max(p.highPrice, row.close),
                         stopTrailing := if armed then Some(p.avgPrice) else p.stopTrailing)
  {
    RaisedFigures(p, row.close);
    hide Decide, UpTo, RowOn, TrailBelow;
  }

  // ---------------------------------------------------------------------------
  // The sale
  // ---------------------------------------------------------------------------

  /** A decided sale sells all or its part, at the day's low less slippage; what is left has the shares and the sold
   *  ratio of the rest of its lot. */
  lemma SaleInFigures(p: Pos, rows: seq<Row>, date: int, rules: Rules, row: Row, d: Decision, marked: Pos)
    requires RowOn(rows, date) == Some(row) && |UpTo(rows, date)| >= 15 && Consistent(p)
    requires (d, marked) == CheckForSell(p, rows, date, rules)
    ensures var n := match d case NoSell => 0 case SellAll(_) => p.quantity case SellPart(_, part) => part;
            && SoldOn(p, rows, date, rules) == n
            && SaleValue(p, rows, date, rules) == n as real * (row.low * 0.99885)
            && LeftOn(p, rows, date, rules)
               == if n == p.quantity then None
                  else if n == 0 then Some(marked)
                  else Some(marked.(quantity := p.quantity - n,
                                    soldRatio := p.soldRatio + n as real / p.originalQuantity as real))
  {
    PartIsSome(p, rows, date, rules, row, d, marked);
    DayKeepsConsistent(p, rows, date, rules);
    MarksInFigures(p, rows, date, rules, row, d, marked);
    SoldAtLow(rows, date, row, p.avgPrice);
    hide CheckForSell, UpTo, RowOn, SellPrice, Consistent, SaleFits, Left, SoldQuantity;
    LeftInFigures(d, marked);
  }

  lemma LeftInFigures(d: Decision, m: Pos)
    requires Consistent(m) && (d.SellPart? ==> 1 <= d.quantity <= m.quantity)
    ensures var n := match d case NoSell => 0 case SellAll(_) => m.quantity case SellPart(_, part) => part;
            && SoldQuantity(d, m) == n && m.originalQuantity >= 1
            && Left(d, m) == if n == m.quantity then None
                             else if n == 0 then Some(m)
                             else Some(m.(quantity := m.quantity - n,
                                          soldRatio := m.soldRatio + n as real / m.originalQuantity as real))
  {
    if d.SellPart? && d.quantity < m.quantity {
      PartKeepsRatio(m, d.quantity);
    }
  }

  lemma PartIsSome(p: Pos, rows: seq<Row>, date: int, rules: Rules, row: Row, d: Decision, marked: Pos)
    requires RowOn(rows, date) == Some(row) && |UpTo(rows, date)| >= 15 && Consistent(p)
    requires (d, marked) == CheckForSell(p, rows, date, rules)
    ensures p.quantity >= 1 && p.originalQuantity >= 1 && (d.SellPart? ==> 1 <= d.quantity <= p.quantity)
  {
    DayOutcomeIff(p, rows, date, rules, row, d, marked);
    hide CheckForSell, UpTo, RowOn;
  }

  lemma SoldAtLow(rows: seq<Row>, date: int, row: Row, close: real)
    requires RowOn(rows, date) == Some(row)
    ensures SellPrice(rows, date, close) == row.low * 0.99885
  {
  }
}
