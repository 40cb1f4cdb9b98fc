/** The event-driven simulation on values: a day's sells, the signals taken off the cursor, and whole runs. */
module SimulationSpec {
  import opened Prelude
  import opened MapSums
  import opened MarketData
  import opened BacktesterSpec
  import C = SignalCursor
  import D = Diversification
  import X = BuyExecutor
  import Z = PositionSizing

  /** Settings that do not change during a run. */
  datatype Settings = Settings(
    sizer: Z.SizerConfig,
    cashKeepPct: real,
    maxSectorPct: real,
    maxStockPct: real,
    atrMultInitialStop: real,
    maxHoldings: int,
    maxBuysPerDay: int,
    nameOf: string -> string,
    sectorOf: D.Sectors)

  /** A trading day: its rules, the regime's effects on buying, and the historical watchlist if there is one. */
  datatype Day = Day(
    date: int,
    rules: Rules,
    strongBull: bool,
    bear: bool,
    positionSizeRatio: real,
    watchlist: Option<set<string>>)

  /** Everything the simulation changes. */
  datatype Book = Book(cash: real, portfolio: map<string, Pos>, value: real, cache: map<string, Info>) {
    function Equity(): real {
      cash + value
    }
  }

  /** The incremental figures agree with a recomputation from scratch. */
  ghost predicate Sound(b: Book) {
    && b.cash >= 0.0
    && AllConsistent(b.portfolio)
    && SameHoldings(b.cache, b.portfolio)
    && b.value == SumValues(CachedWorth(b.cache))
  }

  // ---------------------------------------------------------------------------
  // The cache as the checker sees it
  // ---------------------------------------------------------------------------

  function ItemOf(c: string, info: Info, nameOf: string -> string): D.Item {
    D.Item(c, nameOf(c), info.quantity, info.avgPrice, None)
  }

  /** The cached holdings listed in some order. The cache stores no `current_price`,
   *  so the checker values them at cost. */
  ghost predicate IsListing(items: seq<D.Item>, cache: map<string, Info>, nameOf: string -> string) {
    && (forall i, j :: 0 <= i < j < |items| ==> items[i].code != items[j].code)
    && (forall i :: 0 <= i < |items| ==>
          items[i].code in cache && items[i] == ItemOf(items[i].code, cache[items[i].code], nameOf))
    && (forall c :: c in cache ==> exists i :: 0 <= i < |items| && items[i].code == c)
  }

  lemma ListingGrows(items: seq<D.Item>, cache: map<string, Info>, c: string, info: Info, nameOf: string -> string)
    requires IsListing(items, cache, nameOf) && c !in cache
    ensures IsListing(items + [ItemOf(c, info, nameOf)], cache[c := info], nameOf)
  {
    var now, wider := items + [ItemOf(c, info, nameOf)], cache[c := info];
    forall k | k in wider ensures exists i :: 0 <= i < |now| && now[i].code == k {
      if k == c {
        assert now[|items|].code == k;
      } else {
        var i :| 0 <= i < |items| && items[i].code == k;
        assert now[i].code == k;
      }
    }
  }

  /** Some listing of a cache. */
  ghost function Listing(cache: map<string, Info>, nameOf: string -> string): (items: seq<D.Item>)
    ensures IsListing(items, cache, nameOf)
    decreases |cache.Keys|
  {
    if cache == map[] then []
    else
      var c :| c in cache.Keys;
      var less := cache - {c};
      assert less.Keys == cache.Keys - {c} && less[c := cache[c]] == cache;
      var items := Listing(less, nameOf);
      ListingGrows(items, less, c, cache[c], nameOf);
      items + [ItemOf(c, cache[c], nameOf)]
  }

  /** Holdings at cost, per code; and those of one sector. */
  function AtCost(cache: map<string, Info>): map<string, real> {
    map c | c in cache :: Worth(cache[c].quantity, cache[c].avgPrice)
  }

  function InSector(cache: map<string, Info>, sector: string, settings: Settings): map<string, real> {
    map c | c in cache ::
      if settings.sectorOf(c, settings.nameOf(c)) == sector then Worth(cache[c].quantity, cache[c].avgPrice) else 0.0
  }

  lemma ListingShrinks(items: seq<D.Item>, cache: map<string, Info>, nameOf: string -> string)
    requires IsListing(items, cache, nameOf) && items != []
    ensures items[|items| - 1].code in cache
    ensures IsListing(items[..|items| - 1], cache - {items[|items| - 1].code}, nameOf)
  {
    var front, less := items[..|items| - 1], cache - {items[|items| - 1].code};
    forall k | k in less ensures exists i :: 0 <= i < |front| && front[i].code == k {
      var i :| 0 <= i < |items| && items[i].code == k;
      assert front[i].code == k;
    }
  }

  lemma SumsWithout(cache: map<string, Info>, k: string, sector: string, settings: Settings)
    requires k in cache
    ensures SumValues(AtCost(cache)) == SumValues(AtCost(cache - {k})) + Worth(cache[k].quantity, cache[k].avgPrice)
    ensures SumValues(InSector(cache, sector, settings))
            == SumValues(InSector(cache - {k}, sector, settings))
               + if settings.sectorOf(k, settings.nameOf(k)) == sector
                   then Worth(cache[k].quantity, cache[k].avgPrice) else 0.0
  {
    hide Worth;
    SplitOff(AtCost(cache), k);
    SplitOff(InSector(cache, sector, settings), k);
    assert AtCost(cache) - {k} == AtCost(cache - {k});
    assert InSector(cache, sector, settings) - {k} == InSector(cache - {k}, sector, settings);
  }

  lemma EmptyListing(cache: map<string, Info>, nameOf: string -> string)
    requires IsListing([], cache, nameOf)
    ensures cache == map[]
  {
    assert cache.Keys == {};
  }

  lemma LastItem(items: seq<D.Item>, cache: map<string, Info>, sector: string, settings: Settings)
    requires IsListing(items, cache, settings.nameOf) && items != []
    ensures var k := items[|items| - 1].code;
            && k in cache
            && items[|items| - 1].Value() == Worth(cache[k].quantity, cache[k].avgPrice)
            && items[|items| - 1].name == settings.nameOf(k)
  {
  }

  /** Whatever order the cache is listed in, the checker sums up the same values. */
  lemma {:induction false} ListingSums(items: seq<D.Item>, cache: map<string, Info>, sector: string, settings: Settings)
    requires IsListing(items, cache, settings.nameOf)
    ensures D.PortfolioValue(items) == SumValues(AtCost(cache))
    ensures D.SectorSum(items, sector, settings.sectorOf) == SumValues(InSector(cache, sector, settings))
    decreases |items|
  {
    hide IsListing, AtCost, InSector, Worth;
    if items == [] {
      EmptyListing(cache, settings.nameOf);
      NothingListed(sector, settings);
    } else {
      var k := items[|items| - 1].code;
      LastItem(items, cache, sector, settings);
      ListingShrinks(items, cache, settings.nameOf);
      ListingSums(items[..|items| - 1], cache - {k}, sector, settings);
      SumsWithout(cache, k, sector, settings);
    }
  }

  lemma NothingListed(sector: string, settings: Settings)
    ensures AtCost(map[]) == map[] && InSector(map[], sector, settings) == map[]
  {
  }

  lemma SameCheck(c: D.Candidate, n: int, a: seq<D.Item>, b: seq<D.Item>, balance: real, limits: D.Limits,
                  sectorOf: D.Sectors)
    requires D.PortfolioValue(a) == D.PortfolioValue(b)
    requires D.SectorSum(a, sectorOf(c.code, c.name), sectorOf) == D.SectorSum(b, sectorOf(c.code, c.name), sectorOf)
    ensures D.Check(c.(quantity := n), a, balance, limits, sectorOf)
        == D.Check(c.(quantity := n), b, balance, limits, sectorOf)
  {
  }

  /** The diversification stage does not depend on the order in which the cache is walked. */
  lemma ListingOrderIrrelevant(a: seq<D.Item>, b: seq<D.Item>, cache: map<string, Info>, c: D.Candidate,
                               cash: real, total: real, limits: D.Limits, settings: Settings)
    requires IsListing(a, cache, settings.nameOf) && IsListing(b, cache, settings.nameOf)
    requires c.price > 0.0 && c.quantity >= 1
    ensures X.Diversify(c, a, cash, total, limits, settings.sectorOf)
        == X.Diversify(c, b, cash, total, limits, settings.sectorOf)
  {
    var sector := settings.sectorOf(c.code, c.name);
    hide IsListing, D.Check, D.PortfolioValue, D.SectorSum, X.HalvedBy, X.ResizedQuantity;
    ListingSums(a, cache, sector, settings);
    ListingSums(b, cache, sector, settings);
    var v := D.Check(c, a, cash, limits, settings.sectorOf);
    assert c.(quantity := c.quantity) == c;
    SameCheck(c, c.quantity, a, b, cash, limits, settings.sectorOf);
    SameCheck(c, X.ResizedQuantity(total, limits.maxSectorPct - v.sectorExposure, c.price), a, b, cash, limits,
              settings.sectorOf);
    SameCheck(c, X.ResizedQuantity(total, limits.maxStockPct, c.price), a, b, cash, limits, settings.sectorOf);
  }

  // ---------------------------------------------------------------------------
  // Refreshing and selling
  // ---------------------------------------------------------------------------

  /** The cache recomputed at a day's prices. */
  function Repriced(portfolio: map<string, Pos>, prices: map<string, seq<Row>>, date: int): map<string, Info> {
    map c | c in portfolio ::
      Info(portfolio[c].quantity, portfolio[c].avgPrice, CachePrice(RowsOf(prices, c), date, portfolio[c].avgPrice))
  }

  /** The book with value and cache recomputed at a day's prices. */
  ghost function Refreshed(cash: real, portfolio: map<string, Pos>, prices: map<string, seq<Row>>, date: int): Book {
    var cache := Repriced(portfolio, prices, date);
    Book(cash, portfolio, SumValues(CachedWorth(cache)), cache)
  }

  /** The book after the day's refresh and sells. */
  ghost function Sold(b: Book, prices: map<string, seq<Row>>, date: int, rules: Rules): Book {
    Refreshed(b.cash + SumValues(Proceeds(b.portfolio, prices, date, rules, {})),
              Selling(b.portfolio, prices, date, rules, {}), prices, date)
  }

  // ---------------------------------------------------------------------------
  // Buying
  // ---------------------------------------------------------------------------

  function LimitsOn(day: Day, settings: Settings): D.Limits {
    if day.strongBull then D.Limits(50.0, 20.0) else D.Limits(settings.maxSectorPct, settings.maxStockPct)
  }

  /** Shares wanted for a signal before the diversification check. */
  function WantedQuantity(b: Book, sig: C.Signal, day: Day, settings: Settings): int {
    var price := sig.price * BUY_SLIPPAGE;
    var o := Z.Order(price, if sig.atr.Some? then sig.atr else Some(price * 0.02), b.cash, b.value,
                     settings.cashKeepPct);
    Trunc(Times(Z.Steps(o, settings.sizer).quantity as real, day.positionSizeRatio))
  }

  function NewPos(sig: C.Signal, quantity: int, settings: Settings): Pos {
    var price := sig.price * BUY_SLIPPAGE;
    Pos(quantity, price, sig.Date(),
        if sig.atr.Some? then price - sig.atr.value * settings.atrMultInitialStop else price * 0.95,
        None, price, 0.0, quantity)
  }

  /** What a signal orders: sized, checked and resized. Total assets are taken at cached prices,
   *  while the checker sees holdings at cost. */
  function OrderFor(b: Book, sig: C.Signal, day: Day, items: seq<D.Item>, settings: Settings): (go: X.Sizing)
    requires sig.price > 0.0
    ensures go.Go? ==> go.quantity >= 1
  {
    var wanted := WantedQuantity(b, sig, day, settings);
    if wanted <= 0 then X.Stop(X.TooSmall)
    else
      var c := D.Candidate(sig.code, settings.nameOf(sig.code), sig.price * BUY_SLIPPAGE, wanted);
      X.DiversifySound(c, items, b.cash, b.Equity(), LimitsOn(day, settings), settings.sectorOf);
      X.Diversify(c, items, b.cash, b.Equity(), LimitsOn(day, settings), settings.sectorOf)
  }

  ghost function Order(b: Book, sig: C.Signal, day: Day, settings: Settings): (go: X.Sizing)
    requires sig.price > 0.0
    ensures go.Go? ==> go.quantity >= 1
  {
    OrderFor(b, sig, day, Listing(b.cache, settings.nameOf), settings)
  }

  /** The order is the same for whatever listing the simulation makes. */
  lemma OrderOfAnyListing(b: Book, sig: C.Signal, day: Day, items: seq<D.Item>, settings: Settings)
    requires sig.price > 0.0 && IsListing(items, b.cache, settings.nameOf)
    ensures OrderFor(b, sig, day, items, settings) == Order(b, sig, day, settings)
  {
    var wanted := WantedQuantity(b, sig, day, settings);
    hide WantedQuantity, X.Diversify, IsListing;
    if wanted >= 1 {
      var c := D.Candidate(sig.code, settings.nameOf(sig.code), sig.price * BUY_SLIPPAGE, wanted);
      ListingOrderIrrelevant(items, Listing(b.cache, settings.nameOf), b.cache, c, b.cash, b.Equity(),
                             LimitsOn(day, settings), settings);
    }
  }

  /** The order goes through when the cash pays for it. */
  ghost predicate Fills(b: Book, sig: C.Signal, day: Day, settings: Settings)
    requires sig.price > 0.0
  {
    var go := Order(b, sig, day, settings);
    go.Go? && Worth(go.quantity, sig.price * BUY_SLIPPAGE) <= b.cash
  }

  /** Total assets as the checker sees them: cash and holdings at cost. */
  ghost function AssetsAtCost(b: Book): real {
    b.cash + SumValues(AtCost(b.cache))
  }

  /** Through sizing, the regime's ratio and any resize, what a signal orders keeps its sector and its own value within
   *  their shares of total assets, with every holding taken at cost. */
  lemma OrderRespectsLimitsAtCost(b: Book, sig: C.Signal, day: Day, settings: Settings)
    requires sig.price > 0.0 && Order(b, sig, day, settings).Go? && AssetsAtCost(b) > 0.0
    ensures var q := Order(b, sig, day, settings).quantity;
            var sector := settings.sectorOf(sig.code, settings.nameOf(sig.code));
            var worth := Worth(q, sig.price * BUY_SLIPPAGE);
            && SumValues(InSector(b.cache, sector, settings)) + worth
               <= PercentOf(AssetsAtCost(b), LimitsOn(day, settings).maxSectorPct)
            && worth <= PercentOf(AssetsAtCost(b), LimitsOn(day, settings).maxStockPct)
            && q <= WantedQuantity(b, sig, day, settings)
  {
    var items, limits := Listing(b.cache, settings.nameOf), LimitsOn(day, settings);
    var sector := settings.sectorOf(sig.code, settings.nameOf(sig.code));
    hide WantedQuantity, X.Diversify, D.Check, IsListing, LimitsOn, AtCost, InSector;
    var c := D.Candidate(sig.code, settings.nameOf(sig.code), sig.price * BUY_SLIPPAGE,
                         WantedQuantity(b, sig, day, settings));
    X.DiversifySound(c, items, b.cash, b.Equity(), limits, settings.sectorOf);
    ListingSums(items, b.cache, sector, settings);
    D.PassedIff(c.(quantity := Order(b, sig, day, settings).quantity), items, b.cash, limits, settings.sectorOf);
    X.OutcomesAreFour(c.(quantity := Order(b, sig, day, settings).quantity), items, b.cash, limits, settings.sectorOf);
  }

  /** A position entered in portfolio, value and cache, and paid for. */
  function Booked(b: Book, code: string, pos: Pos): Book {
    var worth := Worth(pos.quantity, pos.avgPrice);
    Book(b.cash - worth, b.portfolio[code := pos], b.value + worth,
         b.cache[code := Info(pos.quantity, pos.avgPrice, pos.avgPrice)])
  }

  ghost function Executed(b: Book, sig: C.Signal, day: Day, settings: Settings): Book
    requires sig.price > 0.0
  {
    if Fills(b, sig, day, settings)
    then Booked(b, sig.code, NewPos(sig, Order(b, sig, day, settings).quantity, settings))
    else b
  }

  /** The checks of the event loop before a signal may buy. */
  predicate MayBuy(b: Book, sig: C.Signal, day: Day, buysToday: int, settings: Settings) {
    && b.cash >= PercentOf(b.Equity(), settings.cashKeepPct) * 1.02
    && (day.watchlist.Some? && sig.code !in day.watchlist.value ==>
          b.Equity() != 0.0 && Quotient(b.cash, b.Equity()) >= 0.3)
    && |b.portfolio| < settings.maxHoldings
    && buysToday < settings.maxBuysPerDay
    && sig.code !in b.portfolio
    && !day.bear
  }

  predicate Priced(signals: seq<C.Signal>) {
    forall i :: 0 <= i < |signals| ==> signals[i].price > 0.0
  }

  /** One signal taken off the cursor; the second component counts the day's buys. */
  ghost function Offer(b: Book, buys: nat, sig: C.Signal, day: Day, settings: Settings): (Book, nat)
    requires sig.price > 0.0
  {
    if MayBuy(b, sig, day, buys, settings) && Fills(b, sig, day, settings)
    then (Executed(b, sig, day, settings), buys + 1) else (b, buys)
  }

  /** The signals of a day, in order. */
  ghost function Trade(b: Book, signals: seq<C.Signal>, day: Day, settings: Settings): (Book, nat)
    requires Priced(signals)
  {
    if signals == [] then (b, 0)
    else
      var before := Trade(b, signals[..|signals| - 1], day, settings);
      Offer(before.0, before.1, signals[|signals| - 1], day, settings)
  }

  /** A position bought on a signal is consistent, and entering it keeps the figures in agreement and equity as
   *  it is. */
  lemma BookedKeepsSound(b: Book, code: string, pos: Pos)
    requires Sound(b) && code !in b.portfolio && Consistent(pos) && Worth(pos.quantity, pos.avgPrice) <= b.cash
    ensures Sound(Booked(b, code, pos)) && Booked(b, code, pos).Equity() == b.Equity()
    ensures |Booked(b, code, pos).portfolio| == |b.portfolio| + 1
  {
    hide Consistent, Worth;
    CachedWorthUpdate(b.cache, code, Info(pos.quantity, pos.avgPrice, pos.avgPrice));
    assert Booked(b, code, pos).portfolio.Keys == b.portfolio.Keys + {code};
  }

  lemma NewPosConsistent(sig: C.Signal, quantity: int, settings: Settings)
    requires sig.price > 0.0 && quantity >= 1
    ensures Consistent(NewPos(sig, quantity, settings))
  {
  }

  lemma OfferKeepsLimits(b: Book, buys: nat, sig: C.Signal, day: Day, settings: Settings)
    requires sig.price > 0.0 && Sound(b) && |b.portfolio| <= settings.maxHoldings
    ensures var r := Offer(b, buys, sig, day, settings);
            && Sound(r.0) && r.0.Equity() == b.Equity()
            && |r.0.portfolio| == |b.portfolio| + r.1 - buys && |r.0.portfolio| <= settings.maxHoldings
            && (buys <= settings.maxBuysPerDay ==> r.1 <= settings.maxBuysPerDay)
            && (buys < r.1 ==> !day.bear && sig.code !in b.portfolio && sig.code in r.0.portfolio)
  {
    hide Sound, Consistent, Booked, NewPos, Order, Worth, PercentOf;
    if MayBuy(b, sig, day, buys, settings) && Fills(b, sig, day, settings) {
      var pos := NewPos(sig, Order(b, sig, day, settings).quantity, settings);
      PosIsOrder(b, sig, day, settings);
      NewPosConsistent(sig, pos.quantity, settings);
      BookedKeepsSound(b, sig.code, pos);
      BookedAt(b, sig.code, pos);
    }
  }

  lemma BookedAt(b: Book, code: string, pos: Pos)
    ensures code in Booked(b, code, pos).portfolio
  {
  }

  lemma PosIsOrder(b: Book, sig: C.Signal, day: Day, settings: Settings)
    requires sig.price > 0.0 && Order(b, sig, day, settings).Go?
    ensures var q := Order(b, sig, day, settings).quantity;
            NewPos(sig, q, settings).quantity == q && NewPos(sig, q, settings).avgPrice == sig.price * BUY_SLIPPAGE
  {
    hide Order;
  }

  /** Whatever the signals of a day are, trading them keeps the figures in agreement, leaves equity unchanged, and
      respects the daily limit and the limit on holdings. */
  lemma {:induction false} TradeKeepsLimits(b: Book, signals: seq<C.Signal>, day: Day, settings: Settings)
    requires Priced(signals) && Sound(b) && |b.portfolio| <= settings.maxHoldings
    ensures var r := Trade(b, signals, day, settings);
            && Sound(r.0) && r.0.Equity() == b.Equity()
            && |r.0.portfolio| == |b.portfolio| + r.1 && |r.0.portfolio| <= settings.maxHoldings
            && (0 <= settings.maxBuysPerDay ==> r.1 <= settings.maxBuysPerDay)
  {
    hide Sound, Offer;
    if signals != [] {
      var front := signals[..|signals| - 1];
      TradeKeepsLimits(b, front, day, settings);
      var before := Trade(b, front, day, settings);
      OfferKeepsLimits(before.0, before.1, signals[|signals| - 1], day, settings);
    }
  }

  // ---------------------------------------------------------------------------
  // Days and runs
  // ---------------------------------------------------------------------------

  /** One day: refresh, sell, and trade the day's signals. */
  ghost function AfterDay(b: Book, day: Day, batch: seq<C.Signal>, prices: map<string, seq<Row>>,
                          settings: Settings): Book
    requires Priced(batch)
  {
    Trade(Sold(b, prices, day.date, day.rules), batch, day, settings).0
  }

  function Dates(days: seq<Day>): (ds: seq<int>)
    ensures |ds| == |days|
    ensures forall i :: 0 <= i < |days| ==> ds[i] == days[i].date
  {
    seq(|days|, i requires 0 <= i < |days| => days[i].date)
  }

  /** The book before the day at place `k`. */
  ghost function BookBefore(b: Book, days: seq<Day>, signals: seq<C.Signal>, k: nat, prices: map<string, seq<Row>>,
                            settings: Settings): Book
    requires k <= |days| && Priced(signals)
  {
    if k == 0 then b
    else AfterDay(BookBefore(b, days, signals, k - 1, prices, settings), days[k - 1],
                  C.Batch(signals, Dates(days), k - 1), prices, settings)
  }

  /** One turn of the day loop, with the place of the cursor. */
  ghost predicate IsDay(before: Book, from: nat, day: Day, after: Book, to: nat, signals: seq<C.Signal>,
                        prices: map<string, seq<Row>>, settings: Settings) {
    && from <= |signals| && to == C.Advance(signals, from, day.date) && Priced(signals)
    && after == AfterDay(before, day, signals[from..to], prices, settings)
  }

  /** The books and cursor places between the days of a run. */
  lemma Stages(b: Book, days: seq<Day>, signals: seq<C.Signal>, prices: map<string, seq<Row>>, settings: Settings)
    returns (books: seq<Book>, marks: seq<nat>)
    requires Priced(signals)
    ensures |books| == |marks| == |days| + 1 && books[0] == b && marks[0] == 0
    ensures marks[|days|] == C.Cursor(signals, Dates(days), |days|)
    ensures forall k :: 0 <= k <= |days| ==> books[k] == BookBefore(b, days, signals, k, prices, settings)
    ensures forall k :: 0 <= k < |days| ==>
              IsDay(books[k], marks[k], days[k], books[k + 1], marks[k + 1], signals, prices, settings)
  {
    hide IsDay, BookBefore, C.Cursor, C.Advance, Dates, Priced;
    books := seq(|days| + 1, k requires 0 <= k <= |days| => BookBefore(b, days, signals, k, prices, settings));
    marks := seq(|days| + 1, k requires 0 <= k <= |days| => C.Cursor(signals, Dates(days), k));
    StartOfRun(b, days, signals, prices, settings);
    forall k | 0 <= k < |days|
      ensures IsDay(books[k], marks[k], days[k], books[k + 1], marks[k + 1], signals, prices, settings)
    {
      DayOfRun(b, days, signals, k, prices, settings);
    }
  }

  lemma StartOfRun(b: Book, days: seq<Day>, signals: seq<C.Signal>, prices: map<string, seq<Row>>, settings: Settings)
    requires Priced(signals)
    ensures BookBefore(b, days, signals, 0, prices, settings) == b && C.Cursor(signals, Dates(days), 0) == 0
  {
  }

  lemma DayOfRun(b: Book, days: seq<Day>, signals: seq<C.Signal>, k: nat, prices: map<string, seq<Row>>,
                 settings: Settings)
    requires Priced(signals) && k < |days|
    ensures IsDay(BookBefore(b, days, signals, k, prices, settings), C.Cursor(signals, Dates(days), k), days[k],
                  BookBefore(b, days, signals, k + 1, prices, settings), C.Cursor(signals, Dates(days), k + 1),
                  signals, prices, settings)
  {
    hide AfterDay;
  }

  lemma {:induction false} NonNegativeSum(m: map<string, real>)
    requires forall c :: c in m ==> m[c] >= 0.0
    ensures SumValues(m) >= 0.0
    decreases |m|
  {
    if m != map[] {
      var k :| k in m && SumValues(m) == m[k] + SumValues(m - {k});
      SmallerWithout(m, k);
      NonNegativeSum(m - {k});
    }
  }

  lemma {:induction false} SubsetSize(a: set<string>, b: set<string>)
    requires a <= b
    ensures |a| <= |b|
  {
    if a != {} {
      var x :| x in a;
      SubsetSize(a - {x}, b - {x});
    }
  }

  /** A day takes no cash for a sale, and leaves only consistent positions. */
  lemma DayOnPosition(p: Pos, rows: seq<Row>, date: int, rules: Rules)
    requires Consistent(p) && forall i :: 0 <= i < |rows| ==> rows[i].low >= 0.0
    ensures SaleValue(p, rows, date, rules) >= 0.0
    ensures LeftOn(p, rows, date, rules).Some? ==> Consistent(LeftOn(p, rows, date, rules).value)
  {
    DayKeepsConsistent(p, rows, date, rules);
    UpToIsPrefix(rows, date);
    hide CheckForSell, Consistent, Left;
    WorthMonotone(0, SoldOn(p, rows, date, rules), SellPrice(rows, date, p.avgPrice));
    assert Worth(0, SellPrice(rows, date, p.avgPrice)) == 0.0;
  }

  /** The day's sells keep the figures in agreement and never add a holding. */
  lemma SoldIsSound(b: Book, prices: map<string, seq<Row>>, date: int, rules: Rules)
    requires Sound(b) && LowsNonNegative(prices)
    ensures Sound(Sold(b, prices, date, rules))
    ensures |Sold(b, prices, date, rules).portfolio| <= |b.portfolio|
  {
    hide SaleValue, LeftOn, MarkedOn, Consistent, CachePrice, RowsOf, LowsNonNegative;
    forall c | c in b.portfolio
      ensures SaleValue(b.portfolio[c], RowsOf(prices, c), date, rules) >= 0.0
      ensures LeftOn(b.portfolio[c], RowsOf(prices, c), date, rules).Some? ==>
                Consistent(LeftOn(b.portfolio[c], RowsOf(prices, c), date, rules).value)
    {
      RowsNonNegative(prices, c);
      DayOnPosition(b.portfolio[c], RowsOf(prices, c), date, rules);
    }
    NonNegativeSum(Proceeds(b.portfolio, prices, date, rules, {}));
    SubsetSize(Selling(b.portfolio, prices, date, rules, {}).Keys, b.portfolio.Keys);
    RefreshedIsSound(b.cash + SumValues(Proceeds(b.portfolio, prices, date, rules, {})),
                     Selling(b.portfolio, prices, date, rules, {}), prices, date);
    hide Sound, Proceeds, Refreshed;
  }

  lemma RowsNonNegative(prices: map<string, seq<Row>>, c: string)
    requires LowsNonNegative(prices)
    ensures forall i :: 0 <= i < |RowsOf(prices, c)| ==> RowsOf(prices, c)[i].low >= 0.0
  {
  }

  /** A refresh makes the figures agree with the portfolio, whatever they were before. */
  lemma RefreshedIsSound(cash: real, portfolio: map<string, Pos>, prices: map<string, seq<Row>>, date: int)
    requires cash >= 0.0 && AllConsistent(portfolio)
    ensures Sound(Refreshed(cash, portfolio, prices, date))
    ensures Refreshed(cash, portfolio, prices, date).portfolio == portfolio
  {
    hide Consistent, CachePrice, RowsOf;
  }

  lemma BatchPriced(days: seq<Day>, signals: seq<C.Signal>, k: nat)
    requires Priced(signals) && k < |days|
    ensures Priced(C.Batch(signals, Dates(days), k))
  {
  }

  /** Over every run, the incremental value and cache agree with a recomputation, cash is not negative, and the limit on
      holdings is kept at the end of every day. */
  lemma {:induction false} RunKeepsLimits(b: Book, days: seq<Day>, signals: seq<C.Signal>, k: nat,
                                          prices: map<string, seq<Row>>,
                                          settings: Settings)
    requires Priced(signals) && k <= |days| && LowsNonNegative(prices)
    requires Sound(b) && |b.portfolio| <= settings.maxHoldings
    ensures var now := BookBefore(b, days, signals, k, prices, settings);
            Sound(now) && |now.portfolio| <= settings.maxHoldings
    decreases k
  {
    hide Sound, Sold, Trade, C.Cursor, LowsNonNegative;
    if k > 0 {
      RunKeepsLimits(b, days, signals, k - 1, prices, settings);
      var before, day := BookBefore(b, days, signals, k - 1, prices, settings), days[k - 1];
      SoldIsSound(before, prices, day.date, day.rules);
      BatchPriced(days, signals, k - 1);
      TradeKeepsLimits(Sold(before, prices, day.date, day.rules), C.Batch(signals, Dates(days), k - 1), day, settings);
    }
  }

  /** With signals on calendar days, each day of a run trades exactly its own signals, in time order; and the days'
   *  signals, one day after the other, are the signals up to the end of the run, each once. */
  lemma EachDayTradesItsOwn(b: Book, days: seq<Day>, signals: seq<C.Signal>, k: nat, prices: map<string, seq<Row>>,
                            settings: Settings)
    requires Priced(signals) && k < |days|
    requires C.SortedByTime(signals) && C.Increasing(Dates(days)) && C.OnCalendar(signals, Dates(days))
    ensures Priced(C.OnDate(signals, days[k].date))
    ensures BookBefore(b, days, signals, k + 1, prices, settings)
            == AfterDay(BookBefore(b, days, signals, k, prices, settings), days[k], C.OnDate(signals, days[k].date),
                        prices, settings)
    ensures C.Grouped(signals, Dates(days), |days|) == C.UpToDate(signals, days[|days| - 1].date)
  {
    hide AfterDay, Priced, C.Batch, C.OnDate, C.Grouped, C.UpToDate, C.OnCalendar, C.SortedByTime, C.Increasing,
         C.Cursor;
    C.BatchIsGroup(signals, Dates(days), k);
    BatchPriced(days, signals, k);
    C.GroupsCoverOnce(signals, Dates(days));
  }
}
