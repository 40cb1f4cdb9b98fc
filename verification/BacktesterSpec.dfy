/** The event-driven backtester: sell decisions and their effect on one position, as functions. */
module BacktesterSpec {
  import opened Prelude
  import opened MapSums
  import opened MarketData

  datatype Pos = Pos(
    quantity: int,
    avgPrice: real,
    entryDate: int,
    stopInitial: real,
    stopTrailing: Option<real>,
    highPrice: real,
    soldRatio: real,
    originalQuantity: int)

  /** An entry of `portfolio_info_cache`. */
  datatype Info = Info(quantity: int, avgPrice: real, price: real)

  /** Sell rules of the day's regime, with overrides applied. */
  datatype Rules = Rules(
    stopLossPct: real,
    targetPct: real,
    trailingStopPct: real,
    rsi1: real,
    rsi2: real,
    rsi3: real,
    timeLimitDays: int,
    atrMultInitial: real,
    atrMultTrailing: real)

  const SELL_SLIPPAGE := 0.99885
  const BUY_SLIPPAGE := 1.00115
  const MIN_HISTORY := 14

  datatype Decision = NoSell | SellAll(reason: string) | SellPart(reason: string, quantity: int)

  // ---------------------------------------------------------------------------
  // Prices
  // ---------------------------------------------------------------------------

  /** `df.loc[:date]` */
  function UpTo(rows: seq<Row>, date: int): (s: seq<Row>)
    ensures s != [] ==> s[|s| - 1].date <= date
  {
    if rows == [] || rows[|rows| - 1].date <= date then rows else UpTo(rows[..|rows| - 1], date)
  }

  /** The day's own row, when it has one. */
  function RowOn(rows: seq<Row>, date: int): Option<Row> {
    var s := UpTo(rows, date);
    if s != [] && s[|s| - 1].date == date then Some(s[|s| - 1]) else None
  }

  /** Last known close, or the average price without any. */
  function CachePrice(rows: seq<Row>, date: int, avgPrice: real): real {
    var s := UpTo(rows, date);
    if s == [] then avgPrice else s[|s| - 1].close
  }

  function RowsOf(prices: map<string, seq<Row>>, code: string): seq<Row> {
    if code in prices then prices[code] else []
  }

  // ---------------------------------------------------------------------------
  // The decision for one position
  // ---------------------------------------------------------------------------

  /** `a or b` on prices: missing and zero both fall through. */
  function StopInForce(p: Pos): real {
    if p.stopTrailing.Some? && p.stopTrailing.value != 0.0 then p.stopTrailing.value else p.stopInitial
  }

  function ReturnPct(p: Pos, close: real): real {
    if p.avgPrice > 0.0 then (close - p.avgPrice) / p.avgPrice * 100.0 else 0.0
  }

  /** An RSI tier sells a part of what is left, or everything when hardly anything would remain. */
  function TierSale(p: Pos, ratio: real): Decision {
    if p.soldRatio + ratio >= 0.99 then SellAll("SELL_TAKE_PROFIT_RSI")
    else
      var wanted := Trunc(p.quantity as real * ratio);
      SellPart("SELL_TAKE_PROFIT_RSI_PARTIAL", if wanted >= 1 then wanted else 1)
  }

  function RsiDecision(p: Pos, rsi: Option<real>, rules: Rules): Decision {
    if rsi.None? then NoSell
    else if rsi.value >= rules.rsi3 && p.soldRatio < 0.8 then TierSale(p, 0.2)
    else if rsi.value >= rules.rsi2 && p.soldRatio < 0.5 then TierSale(p, 0.5)
    else if rsi.value >= rules.rsi1 && p.soldRatio < 0.3 then TierSale(p, 0.3)
    else NoSell
  }

  function Decide(p: Pos, row: Row, date: int, rules: Rules): Decision {
    var close := row.close;
    if StopInForce(p) != 0.0 && close <= StopInForce(p) then SellAll("SELL_STOP_LOSS_ATR")
    else if close <= p.highPrice * (1.0 - rules.trailingStopPct) then SellAll("SELL_TRAILING_STOP")
    else if ReturnPct(p, close) <= rules.stopLossPct * 100.0 then SellAll("SELL_STOP_LOSS_DYNAMIC")
    else if ReturnPct(p, close) >= rules.targetPct * 100.0 && 1.0 - p.soldRatio >= 0.99
        then SellAll("SELL_PROFIT_TARGET")
    else if !RsiDecision(p, row.rsi, rules).NoSell? then RsiDecision(p, row.rsi, rules)
    else if date - p.entryDate >= rules.timeLimitDays then SellAll("SELL_TIME_BASED")
    else NoSell
  }

  function TrailBelow(row: Row, rules: Rules): real
    requires row.atr.Some?
  {
    row.close - row.atr.value * rules.atrMultTrailing
  }

  /** The trailing stop is armed at break-even once the price has run far enough. */
  function Arm(p: Pos, row: Row, rules: Rules): Pos {
    if row.atr.None? then p
    else if p.stopTrailing.None? || p.stopTrailing.value == 0.0 then
      if row.close >= p.avgPrice + row.atr.value * rules.atrMultInitial then p.(stopTrailing := Some(p.avgPrice)) else p
    else if row.close > p.highPrice && TrailBelow(row, rules) > p.stopTrailing.value then
      p.(stopTrailing := Some(TrailBelow(row, rules)), highPrice := row.close)
    else p
  }

  function Raise(p: Pos, close: real): Pos {
    if close > p.highPrice then p.(highPrice := close) else p
  }

  /** Decision of a day and the position with its marks brought up to date. */
  function CheckForSell(p: Pos, rows: seq<Row>, date: int, rules: Rules): (Decision, Pos) {
    var row := RowOn(rows, date);
    if row.None? || |UpTo(rows, date)| - 1 < MIN_HISTORY then (NoSell, p)
    else
      var raised := Raise(p, row.value.close);
      var d := Decide(raised, row.value, date, rules);
      (d, if d.NoSell? then Arm(raised, row.value, rules) else raised)
  }

  /** A position that a day with a row keeps untouched: its close is above the stop in force and the trailing level,
   *  its return above the dynamic stop, and below the target as long as nothing has been sold; it is younger than the
   *  time limit, and its RSI fires no tier that its sold ratio leaves open. */
  lemma KeptIsBetweenStops(p: Pos, rows: seq<Row>, date: int, rules: Rules)
    requires RowOn(rows, date).Some? && |UpTo(rows, date)| > MIN_HISTORY && p.avgPrice > 0.0
    requires CheckForSell(p, rows, date, rules).0.NoSell?
    ensures var row := RowOn(rows, date).value;
            && (StopInForce(p) == 0.0 || row.close > StopInForce(p))
            && row.close > Max(p.highPrice, row.close) * (1.0 - rules.trailingStopPct)
            && row.close > p.avgPrice * (1.0 + rules.stopLossPct)
            && (p.soldRatio <= 0.01 ==> row.close < p.avgPrice * (1.0 + rules.targetPct))
            && date - p.entryDate < rules.timeLimitDays
            && (row.rsi.Some? && row.rsi.value >= rules.rsi3 ==> p.soldRatio >= 0.8)
            && (row.rsi.Some? && row.rsi.value >= rules.rsi2 ==> p.soldRatio >= 0.5)
            && (row.rsi.Some? && row.rsi.value >= rules.rsi1 ==> p.soldRatio >= 0.3)
  {
    var close := RowOn(rows, date).value.close;
    ReturnOrder(p.avgPrice, close, rules.stopLossPct);
    ReturnOrder(p.avgPrice, close, rules.targetPct);
    hide UpTo;
  }

  /** Comparing a percentage return with a limit is comparing the price with the marked-up cost. */
  lemma ReturnOrder(avgPrice: real, close: real, limit: real)
    requires avgPrice > 0.0
    ensures (close - avgPrice) / avgPrice * 100.0 > limit * 100.0 <==> close > avgPrice * (1.0 + limit)
    ensures (close - avgPrice) / avgPrice * 100.0 < limit * 100.0 <==> close < avgPrice * (1.0 + limit)
  {
    var r := (close - avgPrice) / avgPrice;
    assert r * avgPrice == close - avgPrice;
    assert (r - limit) * avgPrice == close - avgPrice * (1.0 + limit);
  }

  // ---------------------------------------------------------------------------
  // The sale
  // ---------------------------------------------------------------------------

  /** Shares actually sold: a part that is not smaller than the holding sells all of it. */
  function SoldQuantity(d: Decision, p: Pos): nat {
    var actual := if d.SellPart? && d.quantity < p.quantity then d.quantity else p.quantity;
    if d.NoSell? || actual <= 0 then 0 else actual
  }

  function Left(d: Decision, p: Pos): Option<Pos> {
    var q := SoldQuantity(d, p);
    if q == 0 then Some(p)
    else if d.SellPart? && q < p.quantity then
      var original := if p.originalQuantity <= 0 then p.quantity else p.originalQuantity;
      Some(p.(quantity := p.quantity - q,
              soldRatio := Min(1.0, p.soldRatio + Quotient(q as real, original as real))))
    else None
  }

  /** What is left of a position after a sale is consistent and lacks exactly the shares sold. */
  predicate SaleFits(d: Decision, p: Pos) {
    match Left(d, p)
    case Some(left) =>
      Consistent(left) && left.quantity == p.quantity - SoldQuantity(d, p) && left.avgPrice == p.avgPrice
    case None => SoldQuantity(d, p) == p.quantity
  }

  /** The sale price: the last low on or before the day, less slippage. */
  function SellPrice(rows: seq<Row>, date: int, close: real): real {
    var s := UpTo(rows, date);
    (if s == [] then close else s[|s| - 1].low) * SELL_SLIPPAGE
  }

  // ---------------------------------------------------------------------------
  // Consistency of a position
  // ---------------------------------------------------------------------------

  /** A position opened by a buy signal: its sold ratio is exactly the sold part of the lot,
   *  and its trailing stop is either unset or at break-even. */
  predicate Consistent(p: Pos) {
    && 1 <= p.quantity <= p.originalQuantity && p.avgPrice > 0.0
    && Times(p.soldRatio, p.originalQuantity as real) == (p.originalQuantity - p.quantity) as real
    && 0.0 <= p.soldRatio < 1.0
    && (p.stopTrailing.None? || p.stopTrailing.value == p.avgPrice)
    && p.highPrice >= p.avgPrice
  }

  /** The second branch of the arming step is never taken: the high has already been raised to the close. */
  lemma TrailingNeverPassesBreakEven(p: Pos, row: Row, rules: Rules)
    requires Consistent(p)
    ensures var armed := Arm(Raise(p, row.close), row, rules);
            && Consistent(armed) && armed.highPrice == Max(p.highPrice, row.close)
            && (armed.stopTrailing == p.stopTrailing || armed.stopTrailing == Some(p.avgPrice))
  {
  }

  /** A partial sale keeps the sold ratio exact; the cap at 1 never applies. */
  lemma PartKeepsRatio(p: Pos, q: int)
    requires Consistent(p) && 1 <= q < p.quantity
    ensures var ratio := p.soldRatio + Quotient(q as real, p.originalQuantity as real);
            && ratio < 1.0 && Min(1.0, ratio) == ratio && ratio >= 0.0
            && Times(ratio, p.originalQuantity as real) == (p.originalQuantity - (p.quantity - q)) as real
  {
    var n := p.originalQuantity as real;
    var part := Quotient(q as real, n);
    QuotientTimes(q as real, n);
    var ratio := p.soldRatio + part;
    assert Times(ratio, n) == Times(p.soldRatio, n) + Times(part, n);
    assert ratio >= 1.0 ==> Times(ratio, n) >= n;
  }

  /** A day's check and sale keep a position consistent; something is sold exactly when the decision says so. */
  lemma DayKeepsConsistent(p: Pos, rows: seq<Row>, date: int, rules: Rules)
    requires Consistent(p)
    ensures var (d, marked) := CheckForSell(p, rows, date, rules);
            && Consistent(marked) && marked.quantity == p.quantity && marked.avgPrice == p.avgPrice
            && (d.NoSell? <==> SoldQuantity(d, marked) == 0) && 0 <= SoldQuantity(d, marked) <= p.quantity
            && SaleFits(d, marked) && (Left(d, marked).None? <==> SoldQuantity(d, marked) == p.quantity)
  {
    var (d, marked) := CheckForSell(p, rows, date, rules);
    var row := RowOn(rows, date);
    if row.Some? {
      TrailingNeverPassesBreakEven(p, row.value, rules);
    }
    var q := SoldQuantity(d, marked);
    if d.SellPart? && q < marked.quantity {
      PartKeepsRatio(marked, q);
    }
  }

  /** A sale on a day with a row is at most the cached close, when the low is not above the close. */
  lemma SellPriceBelowClose(rows: seq<Row>, date: int, avgPrice: real, close: real)
    requires RowOn(rows, date).Some? && RowOn(rows, date).value.low >= 0.0
    ensures SellPrice(rows, date, close) >= 0.0
    ensures RowOn(rows, date).value.low <= RowOn(rows, date).value.close ==>
              SellPrice(rows, date, close) <= CachePrice(rows, date, avgPrice)
  {
  }

  lemma {:induction false} UpToIsPrefix(rows: seq<Row>, date: int)
    ensures UpTo(rows, date) <= rows
  {
    if rows != [] && rows[|rows| - 1].date > date {
      UpToIsPrefix(rows[..|rows| - 1], date);
    }
  }

  lemma RowInRange(rows: seq<Row>, date: int)
    requires RowOn(rows, date).Some?
    ensures RowOn(rows, date).value in rows
  {
    UpToIsPrefix(rows, date);
  }

  ghost predicate LowsNonNegative(prices: map<string, seq<Row>>) {
    forall c :: c in prices ==> forall i :: 0 <= i < |prices[c]| ==> prices[c][i].low >= 0.0
  }

  ghost predicate LowsBelowCloses(prices: map<string, seq<Row>>) {
    forall c :: c in prices ==> forall i :: 0 <= i < |prices[c]| ==> prices[c][i].low <= prices[c][i].close
  }

  // ---------------------------------------------------------------------------
  // The cache
  // ---------------------------------------------------------------------------

  /** Cached worth per code. */
  function CachedWorth(cache: map<string, Info>): map<string, real> {
    map c | c in cache :: Worth(cache[c].quantity, cache[c].price)
  }

  /** The cache has the keys, quantities and average prices of the portfolio. */
  ghost predicate SameHoldings(cache: map<string, Info>, portfolio: map<string, Pos>) {
    && cache.Keys == portfolio.Keys
    && forall c :: c in portfolio ==>
         cache[c].quantity == portfolio[c].quantity && cache[c].avgPrice == portfolio[c].avgPrice
  }

  ghost predicate AllConsistent(portfolio: map<string, Pos>) {
    forall c :: c in portfolio ==> Consistent(portfolio[c])
  }

  lemma CachedWorthUpdate(cache: map<string, Info>, c: string, info: Info)
    ensures SumValues(CachedWorth(cache[c := info]))
            == SumValues(CachedWorth(cache)) + Worth(info.quantity, info.price)
               - (if c in cache then Worth(cache[c].quantity, cache[c].price) else 0.0)
  {
    UpdateSum(CachedWorth(cache), c, Worth(info.quantity, info.price));
    assert CachedWorth(cache[c := info]) == CachedWorth(cache)[c := Worth(info.quantity, info.price)];
  }

  lemma CachedWorthRemove(cache: map<string, Info>, c: string)
    requires c in cache
    ensures SumValues(CachedWorth(cache - {c}))
            == SumValues(CachedWorth(cache)) - Worth(cache[c].quantity, cache[c].price)
  {
    SplitOff(CachedWorth(cache), c);
    assert CachedWorth(cache - {c}) == CachedWorth(cache) - {c};
  }

  // ---------------------------------------------------------------------------
  // A day's sells over the whole portfolio
  // ---------------------------------------------------------------------------

  function DecisionOn(p: Pos, rows: seq<Row>, date: int, rules: Rules): Decision {
    CheckForSell(p, rows, date, rules).0
  }

  function MarkedOn(p: Pos, rows: seq<Row>, date: int, rules: Rules): Pos {
    CheckForSell(p, rows, date, rules).1
  }

  /** What a day leaves of one position. */
  function LeftOn(p: Pos, rows: seq<Row>, date: int, rules: Rules): Option<Pos> {
    Left(DecisionOn(p, rows, date, rules), MarkedOn(p, rows, date, rules))
  }

  function SoldOn(p: Pos, rows: seq<Row>, date: int, rules: Rules): nat {
    SoldQuantity(DecisionOn(p, rows, date, rules), MarkedOn(p, rows, date, rules))
  }

  /** The cash a day brings in from one position. */
  function SaleValue(p: Pos, rows: seq<Row>, date: int, rules: Rules): real {
    Worth(SoldOn(p, rows, date, rules), SellPrice(rows, date, p.avgPrice))
  }

  /** The portfolio after a day's sells, with the codes in `rest` only marked so far. */
  function Selling(portfolio: map<string, Pos>, prices: map<string, seq<Row>>, date: int, rules: Rules,
                   rest: set<string>): map<string, Pos> {
    map c | c in portfolio && (c in rest || LeftOn(portfolio[c], RowsOf(prices, c), date, rules).Some?) ::
      if c in rest then MarkedOn(portfolio[c], RowsOf(prices, c), date, rules)
      else LeftOn(portfolio[c], RowsOf(prices, c), date, rules).value
  }

  /** The sales a day decides on, one per code. */
  function SellList(portfolio: map<string, Pos>, prices: map<string, seq<Row>>, date: int,
                    rules: Rules): map<string, Decision> {
    map c | c in portfolio && !DecisionOn(portfolio[c], RowsOf(prices, c), date, rules).NoSell? ::
      DecisionOn(portfolio[c], RowsOf(prices, c), date, rules)
  }

  /** Cash brought in per code, without the codes in `rest`. */
  function Proceeds(portfolio: map<string, Pos>, prices: map<string, seq<Row>>, date: int, rules: Rules,
                    rest: set<string>): map<string, real> {
    map c | c in portfolio :: if c in rest then 0.0 else SaleValue(portfolio[c], RowsOf(prices, c), date, rules)
  }

  lemma {:induction false} ZerosSum(m: map<string, real>)
    requires forall c :: c in m ==> m[c] == 0.0
    ensures SumValues(m) == 0.0
    decreases |m|
  {
    if m != map[] {
      var k :| k in m && SumValues(m) == m[k] + SumValues(m - {k});
      SmallerWithout(m, k);
      ZerosSum(m - {k});
    }
  }

  /** Executing one more sale adds its proceeds. */
  lemma ProceedsOneMore(portfolio: map<string, Pos>, prices: map<string, seq<Row>>, date: int, rules: Rules,
                        rest: set<string>, c: string)
    requires c in portfolio && c in rest
    ensures SumValues(Proceeds(portfolio, prices, date, rules, rest - {c}))
            == SumValues(Proceeds(portfolio, prices, date, rules, rest))
               + SaleValue(portfolio[c], RowsOf(prices, c), date, rules)
  {
    hide SaleValue, RowsOf;
    var v := SaleValue(portfolio[c], RowsOf(prices, c), date, rules);
    UpdateSum(Proceeds(portfolio, prices, date, rules, rest), c, v);
    assert Proceeds(portfolio, prices, date, rules, rest - {c})
        == Proceeds(portfolio, prices, date, rules, rest)[c := v];
  }

  /** Nothing sold means nothing brought in, and the position only marked. */
  lemma NoSaleNoValue(p: Pos, rows: seq<Row>, date: int, rules: Rules)
    requires Consistent(p) && DecisionOn(p, rows, date, rules).NoSell?
    ensures SaleValue(p, rows, date, rules) == 0.0
    ensures LeftOn(p, rows, date, rules) == Some(MarkedOn(p, rows, date, rules))
  {
  }

  /** Something sold: the day has a row, so the fallback price does not matter. */
  lemma SaleFacts(p: Pos, rows: seq<Row>, date: int, rules: Rules, close: real)
    requires Consistent(p) && !DecisionOn(p, rows, date, rules).NoSell?
    ensures RowOn(rows, date).Some? && SellPrice(rows, date, close) == SellPrice(rows, date, p.avgPrice)
    ensures SoldOn(p, rows, date, rules) >= 1
    ensures SaleFits(DecisionOn(p, rows, date, rules), MarkedOn(p, rows, date, rules))
  {
    DayKeepsConsistent(p, rows, date, rules);
  }
}
