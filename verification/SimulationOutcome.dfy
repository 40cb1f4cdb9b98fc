/** What a signal, and what a day's sells, do to the book, in the figures of the book, the day and the settings. */
module SimulationOutcome {
  import opened Prelude
  import opened MapSums
  import opened MarketData
  import opened BacktesterSpec
  import opened SimulationSpec
  import C = SignalCursor
  import D = Diversification
  import X = BuyExecutor
  import Z = PositionSizing

  // ---------------------------------------------------------------------------
  // A signal
  // ---------------------------------------------------------------------------

  /** What the event loop asks of the book before a signal may buy: cash two percent above the share to be kept, at
   *  least thirty percent cash for a code off the day's watchlist, room for a holding and for a buy, a code not held,
   *  and no bear market. */
  predicate IsOpenFor(b: Book, sig: C.Signal, day: Day, buys: nat, settings: Settings) {
    var equity := b.cash + b.value;
    && b.cash >= equity * (settings.cashKeepPct / 100.0) * 1.02
    && (day.watchlist.Some? && sig.code !in day.watchlist.value ==> equity != 0.0 && b.cash / equity >= 0.3)
    && |b.portfolio| < settings.maxHoldings && buys < settings.maxBuysPerDay
    && sig.code !in b.portfolio && !day.bear
  }

  /** The whole part of the sizer's quantity times the ratio, at least one. */
  predicate IsWish(wish: int, base: int, ratio: real) {
    1 <= wish && wish as real <= base as real * ratio < (wish + 1) as real
  }

  /** The quantity ordered: the whole part of the sizer's quantity times the regime's ratio, within the limits of cash
   *  and holdings at cost, resized from cash and holdings at cached prices. */
  ghost predicate IsOrdered(b: Book, sig: C.Signal, day: Day, settings: Settings, price: real, base: int, n: int) {
    var sector := settings.sectorOf(sig.code, settings.nameOf(sig.code));
    var assets, held := b.cash + SumValues(AtCost(b.cache)), SumValues(InSector(b.cache, sector, settings));
    var limits := if day.strongBull then D.Limits(50.0, 20.0)
                  else D.Limits(settings.maxSectorPct, settings.maxStockPct);
    exists wish :: IsWish(wish, base, day.positionSizeRatio)
                   && X.IsOrderFor(n, wish, price, assets, held, b.cash + b.value, limits)
  }

  /** The two maps of holdings at cost, entry by entry. */
  lemma CostInFigures(cache: map<string, Info>, sector: string, settings: Settings)
    ensures AtCost(cache).Keys == cache.Keys == InSector(cache, sector, settings).Keys
    ensures forall c :: c in cache ==>
              && AtCost(cache)[c] == cache[c].quantity as real * cache[c].avgPrice
              && InSector(cache, sector, settings)[c]
                 == if settings.sectorOf(c, settings.nameOf(c)) == sector
                    then cache[c].quantity as real * cache[c].avgPrice else 0.0
  {
  }

  lemma WantedIff(b: Book, sig: C.Signal, day: Day, settings: Settings, price: real, base: int)
    requires price == sig.price * 1.00115
    requires base == Z.Steps(Z.Order(price, Some(if sig.atr.Some? then sig.atr.value else price * 0.02), b.cash,
                                     b.value, settings.cashKeepPct), settings.sizer).quantity
    ensures forall wish :: wish == WantedQuantity(b, sig, day, settings) >= 1
                           <==> IsWish(wish, base, day.positionSizeRatio)
  {
    WantedIs(b, sig, day, settings, price);
    hide Z.Steps, WantedQuantity;
    WishIff(base, day.positionSizeRatio);
    hide Times;
  }

  lemma WantedIs(b: Book, sig: C.Signal, day: Day, settings: Settings, price: real)
    requires price == sig.price * 1.00115
    ensures WantedQuantity(b, sig, day, settings)
            == Trunc(Times(Z.Steps(Z.Order(price, Some(if sig.atr.Some? then sig.atr.value else price * 0.02), b.cash,
                                           b.value, settings.cashKeepPct), settings.sizer).quantity as real,
                           day.positionSizeRatio))
  {
    hide Z.Steps, Trunc, Times;
  }

  lemma WishIff(base: int, ratio: real)
    ensures forall wish :: wish == Trunc(Times(base as real, ratio)) >= 1 <==> IsWish(wish, base, ratio)
  {
    var x := Times(base as real, ratio);
    assert x == base as real * ratio;
    hide Times;
  }

  /** Exactly which quantity a signal orders. */
  lemma OrderIff(b: Book, sig: C.Signal, day: Day, settings: Settings, price: real, base: int)
    requires sig.price > 0.0 && price == sig.price * 1.00115
    requires base == Z.Steps(Z.Order(price, Some(if sig.atr.Some? then sig.atr.value else price * 0.02), b.cash,
                                     b.value, settings.cashKeepPct), settings.sizer).quantity
    ensures forall n :: Order(b, sig, day, settings) == X.Go(n) <==> IsOrdered(b, sig, day, settings, price, base, n)
  {
    var sector := settings.sectorOf(sig.code, settings.nameOf(sig.code));
    var items, wanted := Listing(b.cache, settings.nameOf), WantedQuantity(b, sig, day, settings);
    var assets, held := b.cash + SumValues(AtCost(b.cache)), SumValues(InSector(b.cache, sector, settings));
    var limits := LimitsOn(day, settings);
    WantedIff(b, sig, day, settings, price, base);
    ListingSums(items, b.cache, sector, settings);
    LimitsInFigures(day, settings);
    hide WantedQuantity, X.Diversify, X.IsOrderFor, AtCost, InSector, Z.Steps, IsListing, LimitsOn, IsWish;
    forall n
      ensures Order(b, sig, day, settings) == X.Go(n)
              <==> wanted >= 1 && X.IsOrderFor(n, wanted, price, assets, held, b.cash + b.value, limits)
    {
      if wanted >= 1 {
        var c := D.Candidate(sig.code, settings.nameOf(sig.code), price, wanted);
        X.DiversifyIff(c, items, b.cash, b.Equity(), limits, settings.sectorOf, assets, held, n);
      }
    }
    forall n ensures Order(b, sig, day, settings) == X.Go(n) <==> IsOrdered(b, sig, day, settings, price, base, n) {
      OrderedFrom(b, sig, day, settings, price, base, n, wanted, assets, held);
    }
  }

  /** There is only one wish. */
  lemma OrderedFrom(b: Book, sig: C.Signal, day: Day, settings: Settings, price: real, base: int, n: int, wanted: int,
                    assets: real, held: real)
    requires forall wish :: wish == wanted >= 1 <==> IsWish(wish, base, day.positionSizeRatio)
    requires var sector := settings.sectorOf(sig.code, settings.nameOf(sig.code));
             assets == b.cash + SumValues(AtCost(b.cache)) && held == SumValues(InSector(b.cache, sector, settings))
    ensures IsOrdered(b, sig, day, settings, price, base, n)
            <==> wanted >= 1 && X.IsOrderFor(n, wanted, price, assets, held, b.cash + b.value, LimitsOn(day, settings))
  {
    LimitsInFigures(day, settings);
    hide X.IsOrderFor, AtCost, InSector, LimitsOn, IsWish;
    assert wanted >= 1 ==> IsWish(wanted, base, day.positionSizeRatio);
    assert forall wish :: IsWish(wish, base, day.positionSizeRatio) ==> wish == wanted;
  }

  lemma LimitsInFigures(day: Day, settings: Settings)
    ensures LimitsOn(day, settings)
            == if day.strongBull then D.Limits(50.0, 20.0) else D.Limits(settings.maxSectorPct, settings.maxStockPct)
  {
  }

  /** The book with a bought position: entered at the slipped price, stopped at a multiple of the ATR below it or,
   *  without an ATR, at five percent below it. */
  function WithBuy(b: Book, sig: C.Signal, settings: Settings, price: real, n: int): Book {
    var stop := match sig.atr
      case Some(atr) => price - atr * settings.atrMultInitialStop
      case None => price * 0.95;
    var pos := Pos(n, price, sig.time / 1440, stop, None, price, 0.0, n);
    Book(b.cash - n as real * price, b.portfolio[sig.code := pos], b.value + n as real * price,
         b.cache[sig.code := Info(n, price, price)])
  }

  lemma BookedIsWithBuy(b: Book, sig: C.Signal, settings: Settings, price: real, n: int)
    requires price == sig.price * 1.00115
    ensures Booked(b, sig.code, NewPos(sig, n, settings)) == WithBuy(b, sig, settings, price, n)
  {
  }

  /** Exactly what a signal does to the book: it buys the ordered quantity when the book is open for it and its cash
   *  pays for it, and changes nothing otherwise. */
  lemma OfferOutcomeIff(b: Book, buys: nat, sig: C.Signal, day: Day, settings: Settings, price: real, base: int)
    requires sig.price > 0.0 && price == sig.price * 1.00115
    requires base == Z.Steps(Z.Order(price, Some(if sig.atr.Some? then sig.atr.value else price * 0.02), b.cash,
                                     b.value, settings.cashKeepPct), settings.sizer).quantity
    ensures forall n :: IsOpenFor(b, sig, day, buys, settings) && IsOrdered(b, sig, day, settings, price, base, n)
                        && n as real * price <= b.cash
                        ==> Offer(b, buys, sig, day, settings) == (WithBuy(b, sig, settings, price, n), buys + 1)
    ensures (!IsOpenFor(b, sig, day, buys, settings)
             || forall n :: IsOrdered(b, sig, day, settings, price, base, n) ==> n as real * price > b.cash)
            ==> Offer(b, buys, sig, day, settings) == (b, buys)
  {
    hide MayBuy, IsOpenFor, IsOrdered, Order, Offer, Fills, Executed, Z.Steps, Booked, NewPos, WithBuy;
    OrderIff(b, sig, day, settings, price, base);
    OfferStep(b, buys, sig, day, settings, price);
  }

  lemma OfferStep(b: Book, buys: nat, sig: C.Signal, day: Day, settings: Settings, price: real)
    requires sig.price > 0.0 && price == sig.price * 1.00115
    ensures var go := Order(b, sig, day, settings);
            Offer(b, buys, sig, day, settings)
            == if IsOpenFor(b, sig, day, buys, settings) && go.Go? && go.quantity as real * price <= b.cash
               then (WithBuy(b, sig, settings, price, go.quantity), buys + 1) else (b, buys)
  {
    OpenIff(b, sig, day, buys, settings);
    hide MayBuy, IsOpenFor, Order, Booked, NewPos, WithBuy;
    var go := Order(b, sig, day, settings);
    if go.Go? {
      BookedIsWithBuy(b, sig, settings, price, go.quantity);
    }
  }

  lemma OpenIff(b: Book, sig: C.Signal, day: Day, buys: nat, settings: Settings)
    ensures MayBuy(b, sig, day, buys, settings) <==> IsOpenFor(b, sig, day, buys, settings)
  {
  }

  // ---------------------------------------------------------------------------
  // A day's refresh and sells
  // ---------------------------------------------------------------------------

  /** After a day's sells each code holds what the day leaves of it, the sales have added up in cash, and value and
   *  cache are those of what is left, at the day's prices. */
  lemma SoldInFigures(b: Book, prices: map<string, seq<Row>>, date: int, rules: Rules, rowsOf: string -> seq<Row>)
    requires forall c :: rowsOf(c) == if c in prices then prices[c] else []
    ensures var now := Sold(b, prices, date, rules);
            && now.cash
               == b.cash + SumValues(map c | c in b.portfolio :: SaleValue(b.portfolio[c], rowsOf(c), date, rules))
            && (forall c :: c in now.portfolio
                  <==> c in b.portfolio && LeftOn(b.portfolio[c], rowsOf(c), date, rules).Some?)
            && (forall c :: c in now.portfolio ==>
                  now.portfolio[c] == LeftOn(b.portfolio[c], rowsOf(c), date, rules).value)
            && now.cache == (map c | c in now.portfolio :: Info(now.portfolio[c].quantity, now.portfolio[c].avgPrice,
                                                                CachePrice(rowsOf(c), date, now.portfolio[c].avgPrice)))
            && now.value == SumValues(map c | c in now.cache :: now.cache[c].quantity as real * now.cache[c].price)
  {
    hide SaleValue, LeftOn, CachePrice;
    var now := Sold(b, prices, date, rules);
    assert Proceeds(b.portfolio, prices, date, rules, {})
        == map c | c in b.portfolio :: SaleValue(b.portfolio[c], rowsOf(c), date, rules);
    assert CachedWorth(now.cache) == map c | c in now.cache :: now.cache[c].quantity as real * now.cache[c].price;
  }
}
