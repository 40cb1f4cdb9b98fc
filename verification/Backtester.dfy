/** The event-driven backtester: portfolio, incremental cache and running portfolio value, updated in place. */
module Backtester {
  import opened Prelude
  import opened MapSums
  import opened MarketData
  import opened BacktesterSpec
  import opened SimulationSpec
  import C = SignalCursor
  import D = Diversification

  class Simulator {
    const prices: map<string, seq<Row>>
    const settings: Settings
    var cash: real
    var portfolio: map<string, Pos>
    var portfolioValue: real
    var cache: map<string, Info>

    function View(): Book
      reads this
    {
      Book(cash, portfolio, portfolioValue, cache)
    }

    ghost predicate Valid()
      reads this
    {
      Sound(View())
    }

    function ComputeEquity(): real
      reads this
    {
      cash + portfolioValue
    }

    constructor (initialCapital: real, prices: map<string, seq<Row>>, settings: Settings)
      requires initialCapital >= 0.0
      ensures Valid() && this.prices == prices && this.settings == settings
      ensures cash == initialCapital && portfolio == map[]
    {
      this.prices, this.settings := prices, settings;
      cash, portfolio, portfolioValue, cache := initialCapital, map[], 0.0, map[];
    }

    /** Every cached price is the one a recomputation on this day would use. */
    ghost predicate PricedOn(date: int)
      reads this
    {
      forall c :: c in cache ==> cache[c].price == CachePrice(RowsOf(prices, c), date, cache[c].avgPrice)
    }

    /** With every cached price brought up to a day, the book is what a recomputation gives. */
    lemma PricedIsRefreshed(date: int)
      requires Valid() && PricedOn(date)
      ensures View() == Refreshed(cash, portfolio, prices, date)
    {
      assert cache == Repriced(portfolio, prices, date);
    }

    /** `_update_portfolio_cache`: recompute value and cache from the portfolio. */
    method UpdatePortfolioCache(date: int)
      requires AllConsistent(portfolio) && cash >= 0.0
      modifies this`portfolioValue, this`cache
      ensures Valid() && PricedOn(date) && View() == Refreshed(cash, portfolio, prices, date)
    {
      var value := 0.0;
      cache := map[];
      var todo := portfolio.Keys;
      while todo != {}
        invariant todo <= portfolio.Keys && cache.Keys == portfolio.Keys - todo
        invariant forall c :: c in cache ==>
                    cache[c] == Info(portfolio[c].quantity, portfolio[c].avgPrice,
                                     CachePrice(RowsOf(prices, c), date, portfolio[c].avgPrice))
        invariant value == SumValues(CachedWorth(cache))
        decreases todo
      {
        var code :| code in todo;
        var pos := portfolio[code];
        var price := CachePrice(RowsOf(prices, code), date, pos.avgPrice);
        CachedWorthUpdate(cache, code, Info(pos.quantity, pos.avgPrice, price));
        value := value + Worth(pos.quantity, price);
        cache := cache[code := Info(pos.quantity, pos.avgPrice, price)];
        todo := todo - {code};
      }
      portfolioValue := value;
      PricedIsRefreshed(date);
    }

    /** Partial sale: fewer shares in the portfolio and in the cache. */
    method Shrink(code: string, left: Pos, sold: int)
      requires Valid() && code in portfolio && Consistent(left)
      requires left.quantity == portfolio[code].quantity - sold && left.avgPrice == portfolio[code].avgPrice
      modifies this`portfolio, this`portfolioValue, this`cache
      ensures Valid() && portfolio == old(portfolio)[code := left]
      ensures cache == old(cache)[code := old(cache[code]).(quantity := left.quantity)]
      ensures portfolioValue == old(portfolioValue) - Worth(sold, old(cache[code]).price)
    {
      ShrunkIsSound(View(), code, left, sold);
      hide Sound, Worth;
      var info := cache[code].(quantity := left.quantity);
      portfolioValue := portfolioValue - Worth(sold, info.price);
      portfolio := portfolio[code := left];
      cache := cache[code := info];
    }

    /** Full sale: the code leaves the portfolio and the cache. */
    method Drop(code: string)
      requires Valid() && code in portfolio
      modifies this`portfolio, this`portfolioValue, this`cache
      ensures Valid() && portfolio == old(portfolio) - {code} && cache == old(cache) - {code}
      ensures portfolioValue == old(portfolioValue) - Worth(old(portfolio[code]).quantity, old(cache[code]).price)
    {
      hide Consistent, Worth;
      CachedWorthRemove(cache, code);
      portfolioValue := portfolioValue - Worth(cache[code].quantity, cache[code].price);
      portfolio := portfolio - {code};
      cache := cache - {code};
    }

    /** Execute one decided sale. */
    method ExecuteSale(code: string, d: Decision, close: real, date: int)
      requires Valid() && code in portfolio && SoldQuantity(d, portfolio[code]) >= 1
      requires SaleFits(d, portfolio[code]) && SellPrice(RowsOf(prices, code), date, close) >= 0.0
      modifies this`cash, this`portfolio, this`portfolioValue, this`cache
      ensures Valid()
      ensures var p := old(portfolio[code]);
              var info := old(cache[code]);
              var left := Left(d, p);
              && portfolio == (if left.Some? then old(portfolio)[code := left.value] else old(portfolio) - {code})
              && cache == (if left.Some? then old(cache)[code := info.(quantity := left.value.quantity)]
                           else old(cache) - {code})
              && cash == old(cash) + Worth(SoldQuantity(d, p), SellPrice(RowsOf(prices, code), date, close))
              && portfolioValue == old(portfolioValue) - Worth(SoldQuantity(d, p), info.price)
    {
      var pos := portfolio[code];
      var current := pos.quantity;
      var actual := if d.SellPart? && d.quantity < current then d.quantity else current;
      var price := SellPrice(RowsOf(prices, code), date, close);
      WorthMonotone(0, actual, price);
      assert Worth(0, price) == 0.0;
      hide Consistent, Quotient, Worth, SellPrice;
      cash := cash + Worth(actual, price);
      if d.SellPart? && actual < current {
        var original := if pos.originalQuantity <= 0 then current else pos.originalQuantity;
        var newRatio := pos.soldRatio + Quotient(actual as real, original as real);
        Shrink(code, pos.(quantity := current - actual, soldRatio := Min(1.0, newRatio)), actual);
      } else {
        Drop(code);
      }
    }

    /** `_check_single_stock_for_sell`: raise the high, go through the sell rules, and arm the stop of what is kept. */
    method CheckSingleStock(code: string, date: int, rules: Rules) returns (d: Decision)
      requires code in portfolio
      modifies this`portfolio
      ensures d == DecisionOn(old(portfolio[code]), RowsOf(prices, code), date, rules)
      ensures portfolio == old(portfolio)[code := MarkedOn(old(portfolio[code]), RowsOf(prices, code), date, rules)]
    {
      var found := RowOn(RowsOf(prices, code), date);
      if found.None? || |UpTo(RowsOf(prices, code), date)| - 1 < MIN_HISTORY {
        assert portfolio[code := portfolio[code]] == portfolio;
        return NoSell;
      }
      var row := found.value;
      if row.close > portfolio[code].highPrice {
        portfolio := portfolio[code := portfolio[code].(highPrice := row.close)];
      }
      assert portfolio[code := portfolio[code]] == portfolio;
      d := ApplySellRules(portfolio[code], row, date, rules);
      if d.NoSell? {
        ArmStop(code, row, rules);
      }
    }

    /** The RSI tiers. */
    method TakeProfit(pos: Pos, rsi: Option<real>, rules: Rules) returns (d: Decision)
      ensures d == RsiDecision(pos, rsi, rules)
    {
      if rsi.None? {
        return NoSell;
      }
      var ratio := 0.0;
      if rsi.value >= rules.rsi3 && pos.soldRatio < 0.8 {
        ratio := 0.2;
      } else if rsi.value >= rules.rsi2 && pos.soldRatio < 0.5 {
        ratio := 0.5;
      } else if rsi.value >= rules.rsi1 && pos.soldRatio < 0.3 {
        ratio := 0.3;
      } else {
        return NoSell;
      }
      if pos.soldRatio + ratio >= 0.99 {
        return SellAll("SELL_TAKE_PROFIT_RSI");
      }
      var wanted := Trunc(pos.quantity as real * ratio);
      return SellPart("SELL_TAKE_PROFIT_RSI_PARTIAL", if wanted >= 1 then wanted else 1);
    }

    /** The sell rules in order of priority. */
    method ApplySellRules(pos: Pos, row: Row, date: int, rules: Rules) returns (d: Decision)
      ensures d == Decide(pos, row, date, rules)
    {
      var close := row.close;
      var returnPct := if pos.avgPrice > 0.0 then (close - pos.avgPrice) / pos.avgPrice * 100.0 else 0.0;
      var remainingRatio := 1.0 - pos.soldRatio;
      var stop := pos.stopInitial;
      if pos.stopTrailing.Some? && pos.stopTrailing.value != 0.0 {
        stop := pos.stopTrailing.value;
      }
      if stop != 0.0 && close <= stop {
        return SellAll("SELL_STOP_LOSS_ATR");
      }
      if close <= pos.highPrice * (1.0 - rules.trailingStopPct) {
        return SellAll("SELL_TRAILING_STOP");
      }
      if returnPct <= rules.stopLossPct * 100.0 {
        return SellAll("SELL_STOP_LOSS_DYNAMIC");
      }
      if returnPct >= rules.targetPct * 100.0 && remainingRatio >= 0.99 {
        return SellAll("SELL_PROFIT_TARGET");
      }
      d := TakeProfit(pos, row.rsi, rules);
      if !d.NoSell? {
        return;
      }
      if date - pos.entryDate >= rules.timeLimitDays {
        return SellAll("SELL_TIME_BASED");
      }
      return NoSell;
    }

    /** Arm the trailing stop of a kept position, or raise it on a new high. */
    method ArmStop(code: string, row: Row, rules: Rules)
      requires code in portfolio
      modifies this`portfolio
      ensures portfolio == old(portfolio)[code := Arm(old(portfolio[code]), row, rules)]
    {
      var pos := portfolio[code];
      if row.atr.Some? {
        if pos.stopTrailing.None? || pos.stopTrailing.value == 0.0 {
          if row.close >= pos.avgPrice + row.atr.value * rules.atrMultInitial {
            pos := pos.(stopTrailing := Some(pos.avgPrice));
          }
        } else if row.close > pos.highPrice {
          var newStop := row.close - row.atr.value * rules.atrMultTrailing;
          assert newStop == TrailBelow(row, rules);
          if newStop > pos.stopTrailing.value {
            pos := pos.(stopTrailing := Some(newStop), highPrice := row.close);
          }
        }
      }
      assert pos == Arm(old(portfolio[code]), row, rules);
      portfolio := portfolio[code := pos];
    }

    /** Decide for every position, marking it in place; the decided sales, one per code. */
    method CollectSells(date: int, rules: Rules) returns (toSell: map<string, Decision>)
      requires Valid()
      modifies this`portfolio
      ensures Valid()
      ensures toSell == SellList(old(portfolio), prices, date, rules)
      ensures portfolio == Selling(old(portfolio), prices, date, rules, old(portfolio).Keys)
    {
      ghost var before := portfolio;
      hide CheckForSell, Consistent, DecisionOn, MarkedOn, RowsOf, CachedWorth;
      toSell := map[];
      var todo := portfolio.Keys;
      while todo != {}
        invariant todo <= before.Keys && portfolio.Keys == before.Keys
        invariant forall c :: c in before ==>
                    portfolio[c] == if c in todo then before[c] else MarkedOn(before[c], RowsOf(prices, c), date, rules)
        invariant toSell == map c | c in SellList(before, prices, date, rules) && c !in todo ::
                              SellList(before, prices, date, rules)[c]
        decreases todo
      {
        var code :| code in todo;
        var d := CheckSingleStock(code, date, rules);
        if !d.NoSell? {
          toSell := toSell[code := d];
        }
        todo := todo - {code};
      }
      assert portfolio == Selling(before, prices, date, rules, before.Keys);
      MarkingKeepsValid(before, date, rules);
    }

    lemma MarkingKeepsValid(before: map<string, Pos>, date: int, rules: Rules)
      requires AllConsistent(before)
      ensures AllConsistent(Selling(before, prices, date, rules, before.Keys))
      ensures forall c :: c in before ==>
                MarkedOn(before[c], RowsOf(prices, c), date, rules).quantity == before[c].quantity
                && MarkedOn(before[c], RowsOf(prices, c), date, rules).avgPrice == before[c].avgPrice
    {
      hide CheckForSell, Consistent;
      forall c | c in before
        ensures Consistent(MarkedOn(before[c], RowsOf(prices, c), date, rules))
                && MarkedOn(before[c], RowsOf(prices, c), date, rules).quantity == before[c].quantity
                && MarkedOn(before[c], RowsOf(prices, c), date, rules).avgPrice == before[c].avgPrice
      {
        DayKeepsConsistent(before[c], RowsOf(prices, c), date, rules);
      }
    }

    /** `_process_sells`: decide for all, then execute; equity never rises when lows are not above closes. */
    method ProcessSells(date: int, rules: Rules)
      requires Valid() && PricedOn(date) && LowsNonNegative(prices)
      modifies this`cash, this`portfolio, this`portfolioValue, this`cache
      ensures Valid() && View() == Sold(old(View()), prices, date, rules)
      ensures LowsBelowCloses(prices) ==> ComputeEquity() <= old(ComputeEquity())
    {
      ghost var before, cash0, equity0 := portfolio, cash, ComputeEquity();
      hide Selling, Proceeds, Consistent, DecisionOn, SameHoldings;
      var toSell := CollectSells(date, rules);
      var rest := toSell.Keys;
      SellingStart(before, date, rules, rest);
      while rest != {}
        invariant rest <= toSell.Keys && Valid() && PricedOn(date)
        invariant portfolio == Selling(before, prices, date, rules, rest)
        invariant cash == cash0 + SumValues(Proceeds(before, prices, date, rules, rest))
        invariant LowsBelowCloses(prices) ==> ComputeEquity() <= equity0
        decreases rest
      {
        var code :| code in rest;
        SellOne(code, toSell[code], date, rules, before, rest);
        rest := rest - {code};
      }
      PricedIsRefreshed(date);
    }

    /** Before any sale is executed, everything is only marked and nothing has been brought in. */
    lemma SellingStart(before: map<string, Pos>, date: int, rules: Rules, rest: set<string>)
      requires AllConsistent(before) && rest == SellList(before, prices, date, rules).Keys
      ensures Selling(before, prices, date, rules, before.Keys) == Selling(before, prices, date, rules, rest)
      ensures SumValues(Proceeds(before, prices, date, rules, rest)) == 0.0
    {
      hide CheckForSell, SaleValue, LeftOn, MarkedOn, Consistent;
      forall c | c in before && c !in rest
        ensures SaleValue(before[c], RowsOf(prices, c), date, rules) == 0.0
                && LeftOn(before[c], RowsOf(prices, c), date, rules)
                    == Some(MarkedOn(before[c], RowsOf(prices, c), date, rules))
      {
        NoSaleNoValue(before[c], RowsOf(prices, c), date, rules);
      }
      ZerosSum(Proceeds(before, prices, date, rules, rest));
    }

    /** The code being sold is only marked; once sold, it is what the day leaves of it. */
    lemma SellingAt(code: string, date: int, rules: Rules, before: map<string, Pos>, rest: set<string>)
      requires code in before && code in rest
      ensures var now := Selling(before, prices, date, rules, rest);
              var left := LeftOn(before[code], RowsOf(prices, code), date, rules);
              && code in now && now[code] == MarkedOn(before[code], RowsOf(prices, code), date, rules)
              && Selling(before, prices, date, rules, rest - {code})
                 == if left.Some? then now[code := left.value] else now - {code}
    {
      hide LeftOn, MarkedOn, RowsOf;
    }

    /** One turn of the execution loop. */
    method SellOne(code: string, d: Decision, date: int, rules: Rules, ghost before: map<string, Pos>,
                   ghost rest: set<string>)
      requires Valid() && PricedOn(date) && LowsNonNegative(prices) && AllConsistent(before)
      requires code in before && code in rest && portfolio == Selling(before, prices, date, rules, rest)
      requires code in SellList(before, prices, date, rules) && d == SellList(before, prices, date, rules)[code]
      modifies this`cash, this`portfolio, this`portfolioValue, this`cache
      ensures Valid() && PricedOn(date)
      ensures portfolio == Selling(before, prices, date, rules, rest - {code})
      ensures cash == old(cash) + SumValues(Proceeds(before, prices, date, rules, rest - {code}))
                      - SumValues(Proceeds(before, prices, date, rules, rest))
      ensures LowsBelowCloses(prices) ==> ComputeEquity() <= old(ComputeEquity())
    {
      ghost var rows := RowsOf(prices, code);
      SellingAt(code, date, rules, before, rest);
      var close := CachePrice(RowsOf(prices, code), date, portfolio[code].avgPrice);
      SaleFacts(before[code], rows, date, rules, close);
      RowInRange(rows, date);
      SellPriceBelowClose(rows, date, cache[code].avgPrice, close);
      ProceedsOneMore(before, prices, date, rules, rest, code);
      hide CheckForSell, Consistent, SellPrice, CachePrice, SaleFits, RowOn, Worth, Selling, SameHoldings,
          AllConsistent;
      ghost var price, q := cache[code].price, SoldOn(before[code], rows, date, rules);
      PriceOrder(q, SellPrice(rows, date, close), price);
      ExecuteSale(code, d, close, date);
    }

    // -------------------------------------------------------------------------
    // Buying
    // -------------------------------------------------------------------------

    /** The cache as the checker's list of holdings. */
    method ListHoldings() returns (items: seq<D.Item>)
      ensures IsListing(items, cache, settings.nameOf)
    {
      items := [];
      var todo := cache.Keys;
      ghost var done: map<string, Info> := map[];
      while todo != {}
        invariant todo <= cache.Keys && done == map c | c in cache && c !in todo :: cache[c]
        invariant IsListing(items, done, settings.nameOf)
        decreases todo
      {
        hide IsListing;
        var code :| code in todo;
        ListingGrows(items, done, code, cache[code], settings.nameOf);
        items := items + [ItemOf(code, cache[code], settings.nameOf)];
        todo := todo - {code};
        done := done[code := cache[code]];
      }
      assert done == cache;
    }

    /** `_execute_buy_signal` */
    method ExecuteBuySignal(sig: C.Signal, day: Day) returns (bought: bool, cost: real)
      requires Valid() && sig.price > 0.0 && sig.code !in portfolio
      modifies this`cash, this`portfolio, this`portfolioValue, this`cache
      ensures Valid() && ComputeEquity() == old(ComputeEquity())
      ensures View() == Executed(old(View()), sig, day, settings)
      ensures bought == Fills(old(View()), sig, day, settings)
      ensures cost == old(cash) - cash
    {
      var items := ListHoldings();
      OrderOfAnyListing(View(), sig, day, items, settings);
      hide OrderFor, Order, Consistent, Worth, IsListing, SameHoldings, AllConsistent;
      var go := OrderFor(View(), sig, day, items, settings);
      if go.Stop? {
        return false, 0.0;
      }
      cost := Worth(go.quantity, sig.price * BUY_SLIPPAGE);
      if cost > cash {
        return false, 0.0;
      }
      NewPosConsistent(sig, go.quantity, settings);
      EnterPosition(sig.code, NewPos(sig, go.quantity, settings), cost);
      return true, cost;
    }

    /** Enter a bought position in portfolio, value and cache, and pay for it. */
    method EnterPosition(code: string, pos: Pos, cost: real)
      requires Valid() && code !in portfolio && Consistent(pos)
      requires cost == Worth(pos.quantity, pos.avgPrice) && cost <= cash
      modifies this`cash, this`portfolio, this`portfolioValue, this`cache
      ensures Valid() && ComputeEquity() == old(ComputeEquity())
      ensures View() == Booked(old(View()), code, pos)
    {
      BookedKeepsSound(View(), code, pos);
      hide Consistent, Worth, Sound;
      portfolio := portfolio[code := pos];
      cash := cash - cost;
      portfolioValue := portfolioValue + Worth(pos.quantity, pos.avgPrice);
      cache := cache[code := Info(pos.quantity, pos.avgPrice, pos.avgPrice)];
    }

    /** One signal taken off the cursor. */
    method OfferSignal(sig: C.Signal, day: Day, buysBefore: nat) returns (buysToday: nat)
      requires Valid() && sig.price > 0.0
      modifies this`cash, this`portfolio, this`portfolioValue, this`cache
      ensures Valid() && (View(), buysToday) == Offer(old(View()), buysBefore, sig, day, settings)
    {
      hide Sound, Fills, Booked, NewPos, Order, PercentOf, Quotient;
      buysToday := buysBefore;
      var totalAssets := cash + portfolioValue;
      var minRequiredCash := PercentOf(totalAssets, settings.cashKeepPct);
      if cash < minRequiredCash * 1.02 {
        return;
      }
      if day.watchlist.Some? && sig.code !in day.watchlist.value {
        if totalAssets == 0.0 {
          return;
        }
        var cashRatio := Quotient(cash, totalAssets);
        if cashRatio < 0.3 {
          return;
        }
      }
      if |portfolio| >= settings.maxHoldings || buysToday >= settings.maxBuysPerDay || sig.code in portfolio {
        return;
      }
      if day.bear {
        return;
      }
      var bought, cost := ExecuteBuySignal(sig, day);
      if bought {
        buysToday := buysToday + 1;
      }
    }

    /** The signals of one day, taken off the cursor one by one. */
    method TradeSignals(day: Day, signals: seq<C.Signal>, from: nat) returns (to: nat, buysToday: nat)
      requires Valid() && from <= |signals| && Priced(signals)
      modifies this`cash, this`portfolio, this`portfolioValue, this`cache
      ensures Valid() && to == C.Advance(signals, from, day.date)
      ensures (View(), buysToday) == Trade(old(View()), signals[from..to], day, settings)
    {
      hide Sound, Offer, Trade, C.Advance, Priced;
      to, buysToday := from, 0;
      ghost var b0, batch: seq<C.Signal> := View(), [];
      NothingTraded(b0, day, settings);
      while to < |signals|
        invariant from <= to <= |signals| && Valid() && batch == signals[from..to]
        invariant C.Advance(signals, from, day.date) == C.Advance(signals, to, day.date)
        invariant Priced(batch) && (View(), buysToday) == Trade(b0, batch, day, settings)
      {
        var sig := signals[to];
        C.AdvanceTurn(signals, to, day.date);
        PricedAt(signals, to);
        if sig.Date() > day.date {
          break;
        }
        TradeOneMore(b0, batch, sig, day, settings);
        batch, to := batch + [sig], to + 1;
        buysToday := OfferSignal(sig, day, buysToday);
      }
      C.AdvanceEnds(signals, day.date);
    }

    /** One day: refresh, sell, buy from the cursor. */
    method RunDay(day: Day, signals: seq<C.Signal>, from: nat) returns (to: nat)
      requires Valid() && LowsNonNegative(prices) && from <= |signals| && Priced(signals)
      modifies this`cash, this`portfolio, this`portfolioValue, this`cache
      ensures Valid() && to == C.Advance(signals, from, day.date)
      ensures View() == AfterDay(old(View()), day, signals[from..to], prices, settings)
    {
      hide Sound, Refreshed, Trade, C.Advance;
      ghost var b0 := View();
      SoundParts(b0);
      UpdatePortfolioCache(day.date);
      ProcessSells(day.date, day.rules);
      SoldOfRefreshed(b0, prices, day.date, day.rules);
      var buysToday;
      to, buysToday := TradeSignals(day, signals, from);
    }

    /** The event loop over all days, marking equity at the end of each. */
    method Run(days: seq<Day>, signals: seq<C.Signal>) returns (curve: seq<(int, real)>)
      requires Valid() && LowsNonNegative(prices) && Priced(signals)
      modifies this`cash, this`portfolio, this`portfolioValue, this`cache
      ensures Valid() && View() == BookBefore(old(View()), days, signals, |days|, prices, settings)
      ensures |curve| == |days|
      ensures forall i :: 0 <= i < |days| ==>
                curve[i] == (days[i].date, BookBefore(old(View()), days, signals, i + 1, prices, settings).Equity())
    {
      hide Sound, BookBefore, C.Advance, C.Cursor, AfterDay, Priced, LowsNonNegative, Dates;
      curve := [];
      ghost var books, marks := Stages(View(), days, signals, prices, settings);
      var examined := 0;
      for k := 0 to |days|
        invariant Valid() && examined <= |signals| && examined == marks[k] && View() == books[k]
        invariant |curve| == k && forall i :: 0 <= i < k ==> curve[i] == (days[i].date, books[i + 1].Equity())
      {
        assert IsDay(books[k], marks[k], days[k], books[k + 1], marks[k + 1], signals, prices, settings);
        examined := RunDay(days[k], signals, examined);
        curve := curve + [(days[k].date, ComputeEquity())];
      }
    }
  }

  lemma ShrunkIsSound(b: Book, code: string, left: Pos, sold: int)
    requires Sound(b) && code in b.portfolio && Consistent(left)
    requires left.quantity == b.portfolio[code].quantity - sold && left.avgPrice == b.portfolio[code].avgPrice
    ensures code in b.cache
    ensures Sound(Book(b.cash, b.portfolio[code := left], b.value - Worth(sold, b.cache[code].price),
                       b.cache[code := b.cache[code].(quantity := left.quantity)]))
  {
    hide Consistent, Worth;
    var info := b.cache[code].(quantity := left.quantity);
    CachedWorthUpdate(b.cache, code, info);
    WorthAdds(sold, left.quantity, info.price);
    assert b.cache[code].quantity == left.quantity + sold;
  }

  lemma SoundParts(b: Book)
    requires Sound(b)
    ensures AllConsistent(b.portfolio) && b.cash >= 0.0
  {
  }

  lemma SoldOfRefreshed(b: Book, prices: map<string, seq<Row>>, date: int, rules: Rules)
    ensures Sold(Refreshed(b.cash, b.portfolio, prices, date), prices, date, rules) == Sold(b, prices, date, rules)
  {
  }

  lemma NothingTraded(b: Book, day: Day, settings: Settings)
    ensures Priced([]) && Trade(b, [], day, settings) == (b, 0)
  {
  }

  lemma PricedAt(signals: seq<C.Signal>, i: nat)
    requires Priced(signals) && i < |signals|
    ensures signals[i].price > 0.0
  {
  }

  lemma TradeOneMore(b: Book, batch: seq<C.Signal>, sig: C.Signal, day: Day, settings: Settings)
    requires Priced(batch) && sig.price > 0.0
    ensures Priced(batch + [sig])
    ensures var before := Trade(b, batch, day, settings);
            Trade(b, batch + [sig], day, settings) == Offer(before.0, before.1, sig, day, settings)
  {
    hide Offer;
    assert (batch + [sig])[..|batch|] == batch;
  }

  lemma PriceOrder(quantity: nat, low: real, high: real)
    ensures low <= high ==> Worth(quantity, low) <= Worth(quantity, high)
  {
  }
}
