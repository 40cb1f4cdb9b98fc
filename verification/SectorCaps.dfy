/** Sector caps as an invariant of every run of the live executor, at fixed marks and a fixed cap. */
module SectorCaps {
  import opened Prelude
  import opened Diversification
  import opened BuyExecutor
  import Z = PositionSizing

  /** The account: cash and the HOLDING rows, each marked at its average price. */
  datatype Book = Book(cash: real, rows: seq<Row>)

  /** A buy signal with what surrounds it, or the sale of some shares of one row at some price. */
  datatype Step =
    | BuySignal(req: Request, cachedRisk: Risk, todayBuys: int, tradedRecently: string -> bool,
                snapshot: string -> Option<real>, orderAccepted: bool)
    | Sale(place: nat, shares: int, price: real)

  function Total(b: Book): real {
    b.cash + RowsValue(b.rows)
  }

  function WorldOf(b: Book, s: Step): World
    requires s.BuySignal?
  {
    World(b.cash, s.cachedRisk, b.rows, s.todayBuys, s.tradedRecently, s.snapshot, s.orderAccepted)
  }

  /** What a sale earns over the mark. */
  function Gain(b: Book, s: Step): real
    requires s.Sale? ==> s.place < |b.rows|
  {
    if s.BuySignal? then 0.0 else Worth(s.shares, s.price) - Worth(s.shares, b.rows[s.place].avgPrice)
  }

  predicate InRange(b: Book, s: Step)
    requires s.Sale?
  {
    s.place < |b.rows| && 1 <= s.shares <= b.rows[s.place].quantity
  }

  /** The sale leaves assets, and no sector is too large a part of them: its own sector without the shares sold, every
   *  other sector as it is. */
  ghost predicate SaleFits(b: Book, s: Step, limits: Limits, sectorOf: Sectors)
    requires s.Sale? && InRange(b, s)
  {
    var r, total := b.rows[s.place], Total(b) + Gain(b, s);
    && total > 0.0
    && forall sector ::
         SectorSum(Items(b.rows), sector, sectorOf)
         - (if sectorOf(r.code, r.name) == sector then Worth(s.shares, r.avgPrice) else 0.0)
         <= PercentOf(total, limits.maxSectorPct)
  }

  /** A signal with sensible prices and codes under the given limits; a sale of shares that are there, at the mark or
   *  above, or below it when the loss leaves every sector within the cap. */
  ghost predicate Allowed(b: Book, s: Step, limits: Limits, cfg: Config, sectorOf: Sectors) {
    match s
    case BuySignal(req, _, _, _, _, _) =>
      && Priced(req, WorldOf(b, s)) && LimitsFor(req, cfg) == limits
      && (forall c <- req.candidates :: c.code != "")
    case Sale(place, _, price) =>
      InRange(b, s) && (price >= b.rows[place].avgPrice || SaleFits(b, s, limits, sectorOf))
  }

  /** Remove shares of one row; a row sold out is no longer HOLDING. */
  function AfterSale(rows: seq<Row>, place: nat, shares: int): seq<Row>
    requires place < |rows|
  {
    var r := rows[place];
    if shares == r.quantity then rows[..place] + rows[place + 1..]
    else rows[place := r.(quantity := r.quantity - shares)]
  }

  ghost function After(b: Book, s: Step, cfg: Config, sizer: Z.SizerConfig, sectorOf: Sectors): Book
    requires if s.BuySignal? then Priced(s.req, WorldOf(b, s)) else InRange(b, s)
  {
    match s
    case BuySignal(req, _, _, _, _, _) =>
      var r := ProcessSignal(req, WorldOf(b, s), cfg, sizer, sectorOf);
      if r.Stopped? then b
      else Book(b.cash - Worth(r.quantity, r.price), b.rows + [Row(r.code, r.name, r.quantity, r.price)])
    case Sale(place, shares, price) =>
      Book(b.cash + Worth(shares, price), AfterSale(b.rows, place, shares))
  }

  /** Rows with at least one share, none at a negative price, keyed by distinct codes. */
  ghost predicate Sound(rows: seq<Row>) {
    WellKeyed(rows) && forall i :: 0 <= i < |rows| ==> rows[i].quantity >= 1 && rows[i].avgPrice >= 0.0
  }

  ghost predicate WithinCap(b: Book, maxSectorPct: real, sectorOf: Sectors) {
    forall sector :: SectorSum(Items(b.rows), sector, sectorOf) <= PercentOf(Total(b), maxSectorPct)
  }

  ghost predicate Good(b: Book, limits: Limits, sectorOf: Sectors) {
    Sound(b.rows) && Total(b) > 0.0 && WithinCap(b, limits.maxSectorPct, sectorOf)
  }

  lemma {:induction false} RowsAppend(a: seq<Row>, b: seq<Row>)
    ensures RowsValue(a + b) == RowsValue(a) + RowsValue(b)
  {
    if b == [] {
      assert a + b == a;
    } else {
      RowsAppend(a, b[..|b| - 1]);
      assert (a + b)[..|a + b| - 1] == a + b[..|b| - 1];
    }
  }

  lemma {:induction false} SectorAppend(a: seq<Row>, b: seq<Row>, sector: string, sectorOf: Sectors)
    ensures SectorSum(Items(a + b), sector, sectorOf)
            == SectorSum(Items(a), sector, sectorOf) + SectorSum(Items(b), sector, sectorOf)
  {
    if b == [] {
      assert a + b == a;
    } else {
      SectorAppend(a, b[..|b| - 1], sector, sectorOf);
      assert Items(a + b)[..|a + b| - 1] == Items(a + b[..|b| - 1]);
      assert Items(b)[..|b| - 1] == Items(b[..|b| - 1]);
    }
  }

  lemma OneRow(r: Row, sector: string, sectorOf: Sectors)
    ensures RowsValue([r]) == Worth(r.quantity, r.avgPrice)
    ensures SectorSum(Items([r]), sector, sectorOf)
            == if sectorOf(r.code, r.name) == sector then Worth(r.quantity, r.avgPrice) else 0.0
  {
    assert [r][..0] == [] && Items([r]) == [ItemOf(r)] && [ItemOf(r)][..0] == [];
    assert RowsValue([]) == 0.0 && SectorSum([], sector, sectorOf) == 0.0;
  }

  /** A purchase keeps total assets, and adds its worth to its own sector only. */
  lemma PurchaseMovesValue(rows: seq<Row>, row: Row, sector: string, sectorOf: Sectors)
    ensures RowsValue(rows + [row]) == RowsValue(rows) + Worth(row.quantity, row.avgPrice)
    ensures SectorSum(Items(rows + [row]), sector, sectorOf)
            == SectorSum(Items(rows), sector, sectorOf)
               + if sectorOf(row.code, row.name) == sector then Worth(row.quantity, row.avgPrice) else 0.0
  {
    RowsAppend(rows, [row]);
    SectorAppend(rows, [row], sector, sectorOf);
    OneRow(row, sector, sectorOf);
  }

  /** Value and sector sum split around one row. */
  lemma SplitAround(front: seq<Row>, r: Row, back: seq<Row>, sector: string, sectorOf: Sectors)
    ensures RowsValue(front + [r] + back) == RowsValue(front) + Worth(r.quantity, r.avgPrice) + RowsValue(back)
    ensures SectorSum(Items(front + [r] + back), sector, sectorOf)
            == SectorSum(Items(front), sector, sectorOf) + SectorSum(Items(back), sector, sectorOf)
               + if sectorOf(r.code, r.name) == sector then Worth(r.quantity, r.avgPrice) else 0.0
  {
    hide RowsValue, SectorSum, Items;
    RowsAppend(front + [r], back);
    RowsAppend(front, [r]);
    SectorAppend(front + [r], back, sector, sectorOf);
    SectorAppend(front, [r], sector, sectorOf);
    OneRow(r, sector, sectorOf);
  }

  /** A sale takes the marked worth of its shares out of the rows and out of its own sector, and out of no other. */
  lemma SaleMovesValue(rows: seq<Row>, place: nat, shares: int, sector: string, sectorOf: Sectors)
    requires place < |rows| && 1 <= shares <= rows[place].quantity
    ensures RowsValue(AfterSale(rows, place, shares)) == RowsValue(rows) - Worth(shares, rows[place].avgPrice)
    ensures SectorSum(Items(AfterSale(rows, place, shares)), sector, sectorOf)
            == SectorSum(Items(rows), sector, sectorOf)
               - if sectorOf(rows[place].code, rows[place].name) == sector
                 then Worth(shares, rows[place].avgPrice) else 0.0
  {
    hide RowsValue, SectorSum, Items;
    var front, r, back := rows[..place], rows[place], rows[place + 1..];
    var left := r.(quantity := r.quantity - shares);
    assert rows == front + [r] + back;
    SplitAround(front, r, back, sector, sectorOf);
    WorthAdds(left.quantity, shares, r.avgPrice);
    if shares < r.quantity {
      assert AfterSale(rows, place, shares) == front + [left] + back;
      SplitAround(front, left, back, sector, sectorOf);
    } else {
      RowsAppend(front, back);
      SectorAppend(front, back, sector, sectorOf);
    }
  }

  /** A sale at any price leaves every sector within the cap exactly when it fits. */
  lemma SaleKeepsGoodIff(b: Book, s: Step, limits: Limits, cfg: Config, sizer: Z.SizerConfig, sectorOf: Sectors)
    requires s.Sale? && InRange(b, s) && Sound(b.rows)
    ensures var r := After(b, s, cfg, sizer, sectorOf);
            && Total(r) == Total(b) + Gain(b, s)
            && (Good(r, limits, sectorOf) <==> SaleFits(b, s, limits, sectorOf))
  {
    var r := After(b, s, cfg, sizer, sectorOf);
    SaleMovesValue(b.rows, s.place, s.shares, "", sectorOf);
    AfterSaleSound(b.rows, s.place, s.shares);
    assert Total(r) == Total(b) + Gain(b, s);
    forall sector
      ensures SectorSum(Items(r.rows), sector, sectorOf)
              == SectorSum(Items(b.rows), sector, sectorOf)
                 - if sectorOf(b.rows[s.place].code, b.rows[s.place].name) == sector
                   then Worth(s.shares, b.rows[s.place].avgPrice) else 0.0
    {
      SaleMovesValue(b.rows, s.place, s.shares, sector, sectorOf);
    }
    hide SectorSum, Items, RowsValue, Sound, AfterSale, Worth;
  }

  /** At the mark or above it, every sale fits. */
  lemma SaleAtMarkFits(b: Book, s: Step, limits: Limits, sectorOf: Sectors)
    requires s.Sale? && InRange(b, s) && Good(b, limits, sectorOf) && s.price >= b.rows[s.place].avgPrice
    ensures SaleFits(b, s, limits, sectorOf)
  {
    var r := b.rows[s.place];
    SharesOrder(s.shares, r.avgPrice, s.price);
    SectorNotNegative(b.rows, sectorOf(r.code, r.name), sectorOf);
    WorthMonotone(0, s.shares, r.avgPrice);
    assert Worth(0, r.avgPrice) == 0.0;
    MorePct(Total(b), Total(b) + Gain(b, s), limits.maxSectorPct);
    hide SectorSum, Items, RowsValue, Sound, Worth;
  }

  lemma SharesOrder(shares: int, low: real, high: real)
    requires shares >= 1 && low <= high
    ensures Worth(shares, low) <= Worth(shares, high)
  {
    assert Worth(shares, high) - Worth(shares, low) == shares as real * (high - low);
  }

  lemma MorePct(total: real, more: real, pct: real)
    requires 0.0 < total <= more && PercentOf(total, pct) >= 0.0
    ensures PercentOf(more, pct) >= PercentOf(total, pct)
  {
    var x := pct / 100.0;
    assert x < 0.0 ==> total * x < 0.0;
    assert (more - total) * x >= 0.0;
  }

  lemma {:induction false} SectorNotNegative(rows: seq<Row>, sector: string, sectorOf: Sectors)
    requires forall i :: 0 <= i < |rows| ==> rows[i].quantity >= 1 && rows[i].avgPrice >= 0.0
    ensures SectorSum(Items(rows), sector, sectorOf) >= 0.0
  {
    if rows != [] {
      var front, last := rows[..|rows| - 1], rows[|rows| - 1];
      SectorNotNegative(front, sector, sectorOf);
      assert rows == front + [last];
      WorthMonotone(0, last.quantity, last.avgPrice);
      PurchaseMovesValue(front, last, sector, sectorOf);
    }
  }

  lemma SaleKeepsGood(b: Book, s: Step, limits: Limits, cfg: Config, sizer: Z.SizerConfig, sectorOf: Sectors)
    requires s.Sale? && Allowed(b, s, limits, cfg, sectorOf) && Good(b, limits, sectorOf)
    ensures var r := After(b, s, cfg, sizer, sectorOf);
            Good(r, limits, sectorOf) && Total(r) == Total(b) + Gain(b, s)
  {
    SaleKeepsGoodIff(b, s, limits, cfg, sizer, sectorOf);
    if s.price >= b.rows[s.place].avgPrice {
      SaleAtMarkFits(b, s, limits, sectorOf);
    }
    hide SaleFits, WithinCap, Total, Gain;
  }

  lemma AfterSaleSound(rows: seq<Row>, place: nat, shares: int)
    requires Sound(rows) && place < |rows| && 1 <= shares <= rows[place].quantity
    ensures Sound(AfterSale(rows, place, shares))
  {
    var after := AfterSale(rows, place, shares);
    if shares == rows[place].quantity {
      assert forall i :: 0 <= i < |after| ==> after[i] == rows[if i < place then i else i + 1];
    }
  }

  lemma GoodIsKeyed(b: Book, limits: Limits, sectorOf: Sectors)
    requires Good(b, limits, sectorOf)
    ensures WellKeyed(b.rows) && Total(b) > 0.0
  {
  }

  /** A row that may be booked: a new code in a quantity that keeps its sector within the cap. */
  ghost predicate FitsBook(b: Book, row: Row, limits: Limits, sectorOf: Sectors) {
    && row.quantity >= 1 && row.avgPrice >= 0.0 && row.code != "" && !HoldsCode(b.rows, row.code)
    && SectorSum(Items(b.rows), sectorOf(row.code, row.name), sectorOf) + Worth(row.quantity, row.avgPrice)
       <= PercentOf(Total(b), limits.maxSectorPct)
  }

  lemma BoughtFits(b: Book, s: Step, limits: Limits, cfg: Config, sizer: Z.SizerConfig, sectorOf: Sectors)
    requires s.BuySignal? && Allowed(b, s, limits, cfg, sectorOf) && Good(b, limits, sectorOf)
    requires ProcessSignal(s.req, WorldOf(b, s), cfg, sizer, sectorOf).Bought?
    ensures var r := ProcessSignal(s.req, WorldOf(b, s), cfg, sizer, sectorOf);
            FitsBook(b, Row(r.code, r.name, r.quantity, r.price), limits, sectorOf)
  {
    var w := WorldOf(b, s);
    var r := ProcessSignal(s.req, w, cfg, sizer, sectorOf);
    GoodIsKeyed(b, limits, sectorOf);
    BoughtIsApproved(s.req, w, cfg, sizer, sectorOf);
    hide ProcessSignal, Choose, SizeOrder, NotHeld, Best, Good, HoldsCode, WellKeyed, Check;
    ChosenFacts(s.req, w, cfg);
    CacheIsItems(b.rows);
    PassedIff(Candidate(r.code, r.name, r.price, r.quantity), Items(b.rows), b.cash, limits, sectorOf);
  }

  lemma SignalKeepsGood(b: Book, s: Step, limits: Limits, cfg: Config, sizer: Z.SizerConfig, sectorOf: Sectors)
    requires s.BuySignal? && Allowed(b, s, limits, cfg, sectorOf) && Good(b, limits, sectorOf)
    ensures var r := After(b, s, cfg, sizer, sectorOf);
            Good(r, limits, sectorOf) && Total(r) == Total(b)
  {
    hide ProcessSignal, NotHeld, Good, FitsBook, Total;
    var r := ProcessSignal(s.req, WorldOf(b, s), cfg, sizer, sectorOf);
    if r.Bought? {
      BoughtFits(b, s, limits, cfg, sizer, sectorOf);
      BookedPurchase(b, Row(r.code, r.name, r.quantity, r.price), limits, sectorOf);
    }
  }

  /** Booking an approved purchase of a code that is not held. */
  lemma BookedPurchase(b: Book, row: Row, limits: Limits, sectorOf: Sectors)
    requires Good(b, limits, sectorOf) && FitsBook(b, row, limits, sectorOf)
    ensures var r := Book(b.cash - Worth(row.quantity, row.avgPrice), b.rows + [row]);
            Good(r, limits, sectorOf) && Total(r) == Total(b)
  {
    var r := Book(b.cash - Worth(row.quantity, row.avgPrice), b.rows + [row]);
    PurchaseMovesValue(b.rows, row, "", sectorOf);
    forall sector ensures SectorSum(Items(r.rows), sector, sectorOf) <= PercentOf(Total(r), limits.maxSectorPct) {
      PurchaseMovesValue(b.rows, row, sector, sectorOf);
    }
  }

  // ---------------------------------------------------------------------------
  // Runs
  // ---------------------------------------------------------------------------

  /** The book after each step of a run whose steps are allowed when they come. */
  ghost predicate IsRun(books: seq<Book>, steps: seq<Step>, limits: Limits, cfg: Config, sizer: Z.SizerConfig,
                        sectorOf: Sectors) {
    && |books| == |steps| + 1
    && forall i :: 0 <= i < |steps| ==>
         Allowed(books[i], steps[i], limits, cfg, sectorOf)
         && books[i + 1] == After(books[i], steps[i], cfg, sizer, sectorOf)
  }

  /** What the sales of a run have earned over their marks. */
  ghost function Gains(books: seq<Book>, steps: seq<Step>, n: nat): real
    requires n <= |steps| < |books|
    requires forall i :: 0 <= i < |steps| && steps[i].Sale? ==> steps[i].place < |books[i].rows|
  {
    if n == 0 then 0.0 else Gains(books, steps, n - 1) + Gain(books[n - 1], steps[n - 1])
  }

  /** If every sector starts within the cap, it is within the cap after any sequence of buy signals, of sales at the
   *  mark or above, and of sales below it that fit; total assets change by what the sales earn over their marks. */
  lemma {:induction false} CapsOverRun(books: seq<Book>, steps: seq<Step>, limits: Limits, cfg: Config,
                                       sizer: Z.SizerConfig, sectorOf: Sectors, n: nat)
    requires IsRun(books, steps, limits, cfg, sizer, sectorOf) && n <= |steps|
    requires Good(books[0], limits, sectorOf)
    ensures Good(books[n], limits, sectorOf) && Total(books[n]) == Total(books[0]) + Gains(books, steps, n)
  {
    if n > 0 {
      CapsOverRun(books, steps, limits, cfg, sizer, sectorOf, n - 1);
      hide Good, SaleFits, After, Total;
      if steps[n - 1].Sale? {
        SaleKeepsGood(books[n - 1], steps[n - 1], limits, cfg, sizer, sectorOf);
      } else {
        SignalKeepsGood(books[n - 1], steps[n - 1], limits, cfg, sizer, sectorOf);
      }
    }
  }
}
