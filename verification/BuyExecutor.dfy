/** The live buy executor: pick a candidate, size it, check diversification, resize, check again. */
module BuyExecutor {
  import opened Prelude
  import opened Diversification
  import Z = PositionSizing

  /** A HOLDING row as the repository returns it: it carries no live price, so it is valued at cost. */
  datatype Row = Row(code: string, name: string, quantity: int, avgPrice: real)

  /** A risk setting, if there is one; it may lack a position size ratio. */
  datatype Risk = NoSetting | Setting(positionSizeRatio: Option<real>)

  /** A candidate of the scanner; a manual quantity of 0 means that none is given. */
  datatype Scan = Scan(
    code: string,
    name: string,
    llmScore: real,
    currentPrice: real,
    manualQuantity: int,
    risk: Risk)

  datatype Request = Request(
    candidates: seq<Scan>,
    strongBull: bool,
    manualQuantity: int,
    risk: Risk,
    dryRun: bool)

  /** What the executor reads from its surroundings during one request; the cached risk setting is the one of the
   *  market regime, when it is looked up. */
  datatype World = World(
    cash: real,
    cachedRisk: Risk,
    portfolio: seq<Row>,
    todayBuys: int,
    tradedRecently: string -> bool,
    snapshot: string -> Option<real>,
    orderAccepted: bool)

  datatype Config = Config(
    maxBuysPerDay: int,
    maxPortfolioSize: int,
    minLlmScore: real,
    maxSectorPct: real,
    maxStockPct: real,
    cashKeepPct: real)

  datatype Why =
    | NoCandidates | SafetyLimit | AllHeld | TradedRecently | LowScore | NoPrice
    | InvalidManual | NoCashForManual | TooSmall
    | SmartSkipSector | SectorResizedToZero | SectorRecheckFailed | NoSectorRoom
    | SmartSkipStock | StockResizedToZero | StockRecheckFailed
    | OrderFailed

  datatype Result = Stopped(why: Why) | Bought(code: string, name: string, quantity: int, price: real)

  datatype Choice = NotChosen(why: Why) | Chosen(scan: Scan, price: real)

  // ---------------------------------------------------------------------------
  // Portfolio
  // ---------------------------------------------------------------------------

  function RowsValue(rows: seq<Row>): real {
    if rows == [] then 0.0
    else RowsValue(rows[..|rows| - 1]) + Worth(rows[|rows| - 1].quantity, rows[|rows| - 1].avgPrice)
  }

  function ItemOf(r: Row): Item {
    Item(r.code, r.name, r.quantity, r.avgPrice, Some(r.avgPrice))
  }

  /** Dictionary assignment by code. */
  function PutItem(items: seq<Item>, it: Item): seq<Item> {
    if items == [] then [it]
    else if items[0].code == it.code then [it] + items[1..]
    else [items[0]] + PutItem(items[1..], it)
  }

  /** The dictionary handed to the checker; rows without a code are left out. */
  function CacheOf(rows: seq<Row>): seq<Item> {
    if rows == [] then []
    else
      var r := rows[|rows| - 1];
      if r.code == "" then CacheOf(rows[..|rows| - 1]) else PutItem(CacheOf(rows[..|rows| - 1]), ItemOf(r))
  }

  /** One HOLDING row per non-empty code. */
  predicate WellKeyed(rows: seq<Row>) {
    && (forall i :: 0 <= i < |rows| ==> rows[i].code != "")
    && (forall i, j :: 0 <= i < j < |rows| ==> rows[i].code != rows[j].code)
  }

  function Items(rows: seq<Row>): (s: seq<Item>)
    ensures |s| == |rows|
  {
    seq(|rows|, i requires 0 <= i < |rows| => ItemOf(rows[i]))
  }

  lemma {:induction false} PutNewItem(items: seq<Item>, it: Item)
    requires forall i :: 0 <= i < |items| ==> items[i].code != it.code
    ensures PutItem(items, it) == items + [it]
  {
    if items != [] {
      PutNewItem(items[1..], it);
    }
  }

  lemma ItemsGrow(front: seq<Row>, last: Row)
    ensures Items(front + [last]) == Items(front) + [ItemOf(last)]
  {
  }

  lemma WellKeyedFront(front: seq<Row>, last: Row)
    requires WellKeyed(front + [last])
    ensures WellKeyed(front) && last.code != ""
    ensures forall i :: 0 <= i < |front| ==> Items(front)[i].code != last.code
  {
    var rows := front + [last];
    assert rows[|front|] == last;
    assert forall i :: 0 <= i < |front| ==> rows[i] == front[i];
  }

  lemma ValueGrows(front: seq<Item>, last: Item)
    ensures PortfolioValue(front + [last]) == PortfolioValue(front) + last.Value()
  {
    assert (front + [last])[..|front|] == front;
  }

  /** With one row per code the dictionary lists exactly the rows, and the checker's total is theirs. */
  lemma {:induction false} CacheIsItems(rows: seq<Row>)
    requires WellKeyed(rows)
    ensures CacheOf(rows) == Items(rows) && PortfolioValue(Items(rows)) == RowsValue(rows)
  {
    if rows == [] {
      assert Items(rows) == [];
    } else {
      var front, last := rows[..|rows| - 1], rows[|rows| - 1];
      assert rows == front + [last];
      WellKeyedFront(front, last);
      CacheIsItems(front);
      ItemsGrow(front, last);
      ValueGrows(Items(front), ItemOf(last));
      hide WellKeyed, PutItem, PortfolioValue;
      PutNewItem(Items(front), ItemOf(last));
    }
  }

  // ---------------------------------------------------------------------------
  // Decision, as functions
  // ---------------------------------------------------------------------------

  predicate HoldsCode(rows: seq<Row>, code: string) {
    exists i :: 0 <= i < |rows| && rows[i].code == code
  }

  function NotHeld(cs: seq<Scan>, rows: seq<Row>): seq<Scan> {
    if cs == [] then []
    else NotHeld(cs[..|cs| - 1], rows) + if HoldsCode(rows, cs[|cs| - 1].code) then [] else [cs[|cs| - 1]]
  }

  /** First candidate of highest score, as a stable descending sort puts it in front. */
  function Best(cs: seq<Scan>): (c: Scan)
    requires cs != []
  {
    if |cs| == 1 then cs[0]
    else
      var front := Best(cs[..|cs| - 1]);
      if cs[|cs| - 1].llmScore > front.llmScore then cs[|cs| - 1] else front
  }

  function LimitsFor(req: Request, cfg: Config): Limits {
    if req.strongBull then Limits(50.0, 20.0) else Limits(cfg.maxSectorPct, cfg.maxStockPct)
  }

  datatype Sizing = Stop(why: Why) | Go(quantity: int)

  /** The request's manual quantity, or the candidate's. */
  function ManualQuantity(req: Request, scan: Scan): int {
    if req.manualQuantity != 0 then req.manualQuantity else scan.manualQuantity
  }

  /** The candidate's risk setting, else the request's, else the cached one. */
  function RiskFor(req: Request, scan: Scan, w: World): Risk {
    if scan.risk.Setting? then scan.risk else if req.risk.Setting? then req.risk else w.cachedRisk
  }

  function RatioOf(risk: Risk): real {
    match risk
    case NoSetting => 1.0
    case Setting(ratio) => ratio.GetOr(1.0)
  }

  /** What the sizer is asked for a chosen candidate. */
  function OrderAt(w: World, price: real, cfg: Config): Z.Order {
    Z.Order(price, Some(price * 0.02), w.cash, RowsValue(w.portfolio), cfg.cashKeepPct)
  }

  /** Manual quantity, or the sizer's quantity scaled by the regime's ratio and kept at one share at least. */
  function SizeOrder(req: Request, scan: Scan, w: World, price: real, cfg: Config, sizer: Z.SizerConfig): Sizing {
    var manual := ManualQuantity(req, scan);
    if manual != 0 then
      if manual <= 0 then Stop(InvalidManual)
      else if !req.dryRun && Worth(manual, price) > w.cash then Stop(NoCashForManual)
      else Go(manual)
    else
      var base := Z.Steps(OrderAt(w, price, cfg), sizer).quantity;
      var scaled := Trunc(Times(base as real, RatioOf(RiskFor(req, scan, w))));
      var size := if scaled < 1 && base >= 1 then 1 else scaled;
      if size <= 0 then Stop(TooSmall) else Go(size)
  }

  const SAFETY_MARGIN := 0.1
  const MINIMAL_ROOM := 0.5

  /** Shares that a percentage of total assets, less the safety margin, pays for. */
  function ResizedQuantity(total: real, roomPct: real, price: real): int
    requires price > 0.0
  {
    Trunc(Quotient(PercentOf(total, Max(0.0, roomPct - SAFETY_MARGIN)), price))
  }

  predicate HalvedBy(fewer: int, wanted: int)
    requires wanted != 0
  {
    Quotient(fewer as real, wanted as real) < 0.5
  }

  /** The diversification stage: the quantity to order, or why nothing is ordered. */
  function Diversify(c: Candidate, items: seq<Item>, cash: real, total: real, limits: Limits, sectorOf: Sectors): Sizing
    requires c.price > 0.0 && c.quantity >= 1
  {
    var v := Check(c, items, cash, limits, sectorOf);
    if v.Approved() then Go(c.quantity)
    else if v.outcome.SectorExceeded? then
      var room := limits.maxSectorPct - v.sectorExposure;
      if room <= MINIMAL_ROOM then Stop(NoSectorRoom)
      else
        var n := ResizedQuantity(total, room, c.price);
        if n <= 0 then Stop(SectorResizedToZero)
        else if HalvedBy(n, c.quantity) then Stop(SmartSkipSector)
        else if Check(c.(quantity := n), items, cash, limits, sectorOf).Approved() then Go(n)
        else Stop(SectorRecheckFailed)
    else
      var n := ResizedQuantity(total, limits.maxStockPct, c.price);
      if !(0 < n < c.quantity) then Stop(StockResizedToZero)
      else if HalvedBy(n, c.quantity) then Stop(SmartSkipStock)
      else if Check(c.(quantity := n), items, cash, limits, sectorOf).Approved() then Go(n)
      else Stop(StockRecheckFailed)
  }

  /** The stages before sizing: the chosen candidate with its price. */
  function Choose(req: Request, w: World, cfg: Config): Choice {
    if req.candidates == [] then NotChosen(NoCandidates)
    else if w.todayBuys >= cfg.maxBuysPerDay || |w.portfolio| >= cfg.maxPortfolioSize then NotChosen(SafetyLimit)
    else
      var open := NotHeld(req.candidates, w.portfolio);
      if open == [] then NotChosen(AllHeld)
      else if exists i :: 0 <= i < |open| && w.tradedRecently(open[i].code) then NotChosen(TradedRecently)
      else
        var best := Best(open);
        if best.llmScore < cfg.minLlmScore then NotChosen(LowScore)
        else if best.currentPrice != 0.0 then Chosen(best, best.currentPrice)
        else if w.snapshot(best.code).None? then NotChosen(NoPrice)
        else Chosen(best, w.snapshot(best.code).value)
  }

  /** Prices offered to the executor are positive, or missing. */
  predicate Priced(req: Request, w: World) {
    && (forall i :: 0 <= i < |req.candidates| ==> req.candidates[i].currentPrice >= 0.0)
    && (forall i :: 0 <= i < |req.candidates| ==>
          (w.snapshot(req.candidates[i].code).Some? ==> w.snapshot(req.candidates[i].code).value > 0.0))
  }

  lemma {:induction false} BestIsIn(cs: seq<Scan>)
    requires cs != []
    ensures Best(cs) in cs
    ensures forall i :: 0 <= i < |cs| ==> cs[i].llmScore <= Best(cs).llmScore
  {
    if |cs| > 1 {
      BestIsIn(cs[..|cs| - 1]);
    }
  }

  lemma {:induction false} NotHeldIsFilter(cs: seq<Scan>, rows: seq<Row>)
    ensures forall c <- NotHeld(cs, rows) :: c in cs && !HoldsCode(rows, c.code)
    ensures forall c <- cs :: !HoldsCode(rows, c.code) ==> c in NotHeld(cs, rows)
  {
    if cs != [] {
      NotHeldIsFilter(cs[..|cs| - 1], rows);
      assert cs == cs[..|cs| - 1] + [cs[|cs| - 1]];
    }
  }

  lemma ChosenIsPriced(req: Request, w: World, cfg: Config)
    requires Priced(req, w) && Choose(req, w, cfg).Chosen?
    ensures Choose(req, w, cfg).price > 0.0
  {
    NotHeldIsFilter(req.candidates, w.portfolio);
    BestIsIn(NotHeld(req.candidates, w.portfolio));
  }

  /** The candidate handed to the diversification check. */
  function CandidateOf(scan: Scan, price: real, quantity: int): Candidate {
    Candidate(scan.code, scan.name, price, quantity)
  }

  /** One buy signal, from request to recorded trade. */
  function ProcessSignal(req: Request, w: World, cfg: Config, sizer: Z.SizerConfig, sectorOf: Sectors): Result
    requires Priced(req, w)
  {
    match Choose(req, w, cfg)
    case NotChosen(why) => Stopped(why)
    case Chosen(scan, price) =>
      match SizeOrder(req, scan, w, price, cfg, sizer)
      case Stop(why) => Stopped(why)
      case Go(quantity) =>
        ChosenIsPriced(req, w, cfg);
        var go := Diversify(CandidateOf(scan, price, quantity), CacheOf(w.portfolio), w.cash,
                            w.cash + RowsValue(w.portfolio), LimitsFor(req, cfg), sectorOf);
        if go.Stop? then Stopped(go.why)
        else if !req.dryRun && !w.orderAccepted then Stopped(OrderFailed)
        else Bought(scan.code, scan.name, go.quantity, price)
  }

  // ---------------------------------------------------------------------------
  // Resize and re-check
  // ---------------------------------------------------------------------------

  lemma ResizedFits(total: real, roomPct: real, price: real, n: int)
    requires total > 0.0 && price > 0.0
    ensures n <= ResizedQuantity(total, roomPct, price)
            <==> Worth(n, price) <= PercentOf(total, Max(0.0, roomPct - SAFETY_MARGIN))
  {
    PercentSign(total, Max(0.0, roomPct - SAFETY_MARGIN));
    Z.TruncFits(PercentOf(total, Max(0.0, roomPct - SAFETY_MARGIN)), price, n);
  }

  lemma PercentOrder(total: real, low: real, high: real)
    requires total > 0.0
    ensures low < high ==> PercentOf(total, low) < PercentOf(total, high)
    ensures low <= high ==> PercentOf(total, low) <= PercentOf(total, high)
  {
    assert PercentOf(total, high) - PercentOf(total, low) == total * ((high - low) / 100.0);
  }

  lemma PositiveResize(total: real, roomPct: real, price: real)
    requires price > 0.0 && ResizedQuantity(total, roomPct, price) > 0
    ensures total > 0.0
  {
    var x := Max(0.0, roomPct - SAFETY_MARGIN);
    var amount := PercentOf(total, x);
    assert total <= 0.0 ==> amount <= 0.0 by {
      assert x / 100.0 >= 0.0;
    }
    Z.TruncCuts(amount, price, 0);
  }

  /** What the checker takes for total assets. */
  function CheckedTotal(items: seq<Item>, cash: real): real {
    cash + PortfolioValue(items)
  }

  /** After a stock-limit rejection the re-check of a smaller positive resize can fail on the stock limit only, and does
   *  exactly when the resized purchase is still over it. It never does when the resize is computed from a total that is
   *  not above the checker's. */
  lemma StockResizeOutcome(c: Candidate, items: seq<Item>, cash: real, total: real, limits: Limits, sectorOf: Sectors)
    requires c.price > 0.0 && c.quantity >= 1
    requires Check(c, items, cash, limits, sectorOf).outcome.StockExceeded?
    requires 0 < ResizedQuantity(total, limits.maxStockPct, c.price) < c.quantity
    ensures var n := ResizedQuantity(total, limits.maxStockPct, c.price);
            var again := Check(c.(quantity := n), items, cash, limits, sectorOf).outcome;
            && (again.Passed? || again.StockExceeded?)
            && (again.StockExceeded?
                <==> Worth(n, c.price) > PercentOf(CheckedTotal(items, cash), limits.maxStockPct))
            && (total <= CheckedTotal(items, cash) ==> again.Passed?)
  {
    var checked := CheckedTotal(items, cash);
    var n := ResizedQuantity(total, limits.maxStockPct, c.price);
    PositiveResize(total, limits.maxStockPct, c.price);
    WorthMonotone(n, c.quantity, c.price);
    PassedIff(c, items, cash, limits, sectorOf);
    PassedIff(c.(quantity := n), items, cash, limits, sectorOf);
    if total <= checked {
      ResizedFits(total, limits.maxStockPct, c.price, n);
      assert Worth(n, c.price) > 0.0;
      PercentOrder(total, limits.maxStockPct - SAFETY_MARGIN, limits.maxStockPct);
      assert PercentOf(total, 0.0) == 0.0;
      LargerTotal(total, checked, limits.maxStockPct);
    }
  }

  /** A percentage that is positive of one total is at least as much of a larger one. */
  lemma LargerTotal(total: real, larger: real, pct: real)
    requires 0.0 < total <= larger
    ensures PercentOf(total, pct) > 0.0 ==> PercentOf(total, pct) <= PercentOf(larger, pct)
  {
    var x := pct / 100.0;
    if PercentOf(total, pct) > 0.0 {
      assert x <= 0.0 ==> total * x <= 0.0;
      assert (larger - total) * x >= 0.0;
    }
  }

  /** After a sector-limit rejection the re-check judges the resized purchase by its own sector and stock values. When
   *  the resize is computed from a total that is not above the checker's, it is strictly smaller and cannot fail on
   *  the sector. */
  lemma SectorResizeOutcome(c: Candidate, items: seq<Item>, cash: real, total: real, limits: Limits, sectorOf: Sectors)
    requires c.price > 0.0 && c.quantity >= 1
    requires Check(c, items, cash, limits, sectorOf).outcome.SectorExceeded?
    requires limits.maxSectorPct - Check(c, items, cash, limits, sectorOf).sectorExposure > MINIMAL_ROOM
    ensures var checked := CheckedTotal(items, cash);
            var room := limits.maxSectorPct - Check(c, items, cash, limits, sectorOf).sectorExposure;
            var n := ResizedQuantity(total, room, c.price);
            var less := c.(quantity := n);
            var again := Check(less, items, cash, limits, sectorOf).outcome;
            && (again.SectorExceeded? <==> SectorAfter(less, items, sectorOf) > PercentOf(checked, limits.maxSectorPct))
            && (again.Passed? <==> !again.SectorExceeded?
                                   && Worth(n, c.price) <= PercentOf(checked, limits.maxStockPct))
            && (total <= checked ==> n < c.quantity && !again.SectorExceeded?)
  {
    var checked := CheckedTotal(items, cash);
    var held := SectorSum(items, sectorOf(c.code, c.name), sectorOf);
    var exposure := Check(c, items, cash, limits, sectorOf).sectorExposure;
    var room := limits.maxSectorPct - exposure;
    var n := ResizedQuantity(total, room, c.price);
    PassedIff(c, items, cash, limits, sectorOf);
    PassedIff(c.(quantity := n), items, cash, limits, sectorOf);
    if total <= checked {
      RoomIsRest(held, checked, exposure, limits.maxSectorPct);
      RoomSuffices(total, checked, room, c.price, n);
      RoomSuffices(total, checked, room, c.price, c.quantity);
    }
  }

  /** Whatever a resize for a positive room allows is worth at most the room. */
  lemma RoomSuffices(total: real, checked: real, room: real, price: real, n: int)
    requires price > 0.0 && room > MINIMAL_ROOM && 0.0 < checked && total <= checked
    ensures n <= ResizedQuantity(total, room, price) ==> Worth(n, price) <= PercentOf(checked, room)
  {
    var x := room - SAFETY_MARGIN;
    if n <= ResizedQuantity(total, room, price) {
      assert PercentOf(checked, room) >= 0.0 by {
        PercentSign(checked, room);
      }
      if n >= 1 {
        PositiveResize(total, room, price);
        ResizedFits(total, room, price, n);
        PercentOrder(total, x, room);
        LargerTotal(total, checked, room);
        assert Worth(n, price) > 0.0;
      } else {
        WorthMonotone(n, 0, price);
        assert Worth(0, price) == 0.0;
      }
    }
  }

  /** The percentage left under a cap is the cap's worth less what is held. */
  lemma RoomIsRest(held: real, total: real, exposure: real, maxPct: real)
    requires total > 0.0 && exposure == Share(held, total)
    ensures PercentOf(total, maxPct - exposure) == PercentOf(total, maxPct) - held
  {
    QuotientTimes(held, total);
    assert PercentOf(total, exposure) == held by {
      assert exposure / 100.0 == Quotient(held, total);
    }
    assert PercentOf(total, maxPct - exposure) == PercentOf(total, maxPct) - PercentOf(total, exposure) by {
      assert (maxPct - exposure) / 100.0 == maxPct / 100.0 - exposure / 100.0;
    }
  }

  /** Whatever total the resizes are computed from, what comes out of the diversification stage is a positive, approved
   *  quantity no larger than asked for. */
  lemma DiversifySound(c: Candidate, items: seq<Item>, cash: real, total: real, limits: Limits, sectorOf: Sectors)
    requires c.price > 0.0 && c.quantity >= 1
    ensures var go := Diversify(c, items, cash, total, limits, sectorOf);
            go.Go? ==> 1 <= go.quantity <= c.quantity
                       && Check(c.(quantity := go.quantity), items, cash, limits, sectorOf).Approved()
  {
    hide ResizedQuantity, HalvedBy, Check;
    assert c.(quantity := c.quantity) == c;
    var go := Diversify(c, items, cash, total, limits, sectorOf);
    if go.Go? && go.quantity > c.quantity {
      CheckAntitone(c.(quantity := go.quantity), c.quantity, items, cash, limits, sectorOf);
    }
  }

  // ---------------------------------------------------------------------------
  // What goes out, in figures
  // ---------------------------------------------------------------------------

  /** A number of shares stays within both limits of total assets; without assets nothing is limited. */
  predicate FitsLimits(n: int, price: real, assets: real, held: real, limits: Limits) {
    assets > 0.0 ==>
      && held + n as real * price <= assets * (limits.maxSectorPct / 100.0)
      && n as real * price <= assets * (limits.maxStockPct / 100.0)
  }

  /** What is ordered for a wish: all of it when it fits. Otherwise the most that the limit it breaks leaves, less 0.1
   *  percentage points of the total, the sector's limit coming first; at least half of the wish, and within both
   *  limits. A stock-limit resize must be smaller, a sector-limit resize needs more than half a percent of room. */
  predicate IsOrderFor(n: int, wish: int, price: real, assets: real, held: real, total: real, limits: Limits) {
    && 1 <= n && FitsLimits(n, price, assets, held, limits)
    && (FitsLimits(wish, price, assets, held, limits) ==> n == wish)
    && (!FitsLimits(wish, price, assets, held, limits) ==>
          && 2 * n >= wish
          && if held + wish as real * price > assets * (limits.maxSectorPct / 100.0)
             then
               var room := limits.maxSectorPct - held / assets * 100.0;
               room > 0.5 && IsLargest(n, price, PercentOf(total, room - 0.1))
             else
               n < wish && IsLargest(n, price, PercentOf(total, Max(0.0, limits.maxStockPct - 0.1))))
  }

  /** A positive resize is the largest number of shares that fits in the reduced share of the total. */
  lemma ResizeIsLargest(total: real, roomPct: real, price: real, n: int)
    requires price > 0.0 && n >= 1
    ensures n == ResizedQuantity(total, roomPct, price)
            <==> IsLargest(n, price, PercentOf(total, Max(0.0, roomPct - 0.1)))
  {
    var x := Max(0.0, roomPct - 0.1);
    assert x / 100.0 >= 0.0;
    if total > 0.0 {
      ResizedFits(total, roomPct, price, n);
      ResizedFits(total, roomPct, price, n + 1);
      hide ResizedQuantity;
    } else {
      assert PercentOf(total, x) <= 0.0;
      assert n as real * price > 0.0;
      if n == ResizedQuantity(total, roomPct, price) {
        PositiveResize(total, roomPct, price);
      }
    }
  }

  lemma HalvedIff(n: int, wanted: int)
    requires wanted >= 1
    ensures HalvedBy(n, wanted) <==> 2 * n < wanted
  {
    QuotientBelow(n as real, wanted as real, 0.5);
  }

  lemma QuotientBelow(a: real, b: real, x: real)
    requires b > 0.0
    ensures Quotient(a, b) < x <==> a < x * b
  {
    var q := Quotient(a, b);
    QuotientTimes(a, b);
    assert q * b == a;
    hide Quotient;
    if q < x {
      assert (x - q) * b > 0.0;
    } else {
      assert (q - x) * b >= 0.0;
    }
  }

  lemma FitsIff(c: Candidate, items: seq<Item>, cash: real, limits: Limits, sectorOf: Sectors, assets: real, held: real)
    requires assets == cash + PortfolioValue(items) && held == SectorSum(items, sectorOf(c.code, c.name), sectorOf)
    ensures var v := Check(c, items, cash, limits, sectorOf);
            && (v.Approved() <==> FitsLimits(c.quantity, c.price, assets, held, limits))
            && (v.outcome.SectorExceeded?
                <==> assets > 0.0 && held + c.quantity as real * c.price > assets * (limits.maxSectorPct / 100.0))
            && (if assets > 0.0 then v.sectorExposure == held / assets * 100.0 else v.Approved())
  {
    OutcomesAreFour(c, items, cash, limits, sectorOf);
    ExposureIs(c, items, cash, limits, sectorOf);
    hide Check, SectorSum, PortfolioValue;
    if assets > 0.0 {
      PassedIff(c, items, cash, limits, sectorOf);
      assert SectorAfter(c, items, sectorOf) == held + c.quantity as real * c.price;
      assert PercentOf(assets, limits.maxSectorPct) == assets * (limits.maxSectorPct / 100.0);
      assert PercentOf(assets, limits.maxStockPct) == assets * (limits.maxStockPct / 100.0);
      assert c.Value() == c.quantity as real * c.price;
    }
  }

  lemma ExposureIs(c: Candidate, items: seq<Item>, cash: real, limits: Limits, sectorOf: Sectors)
    ensures var assets := cash + PortfolioValue(items);
            assets > 0.0 ==> Check(c, items, cash, limits, sectorOf).sectorExposure
                             == SectorSum(items, sectorOf(c.code, c.name), sectorOf) / assets * 100.0
  {
  }

  /** Exactly when the diversification stage lets a quantity go out. */
  lemma DiversifyIff(c: Candidate, items: seq<Item>, cash: real, total: real, limits: Limits, sectorOf: Sectors,
                     assets: real, held: real, n: int)
    requires c.price > 0.0 && c.quantity >= 1
    requires assets == cash + PortfolioValue(items) && held == SectorSum(items, sectorOf(c.code, c.name), sectorOf)
    ensures Diversify(c, items, cash, total, limits, sectorOf) == Go(n)
            <==> IsOrderFor(n, c.quantity, c.price, assets, held, total, limits)
  {
    hide Check, ResizedQuantity, HalvedBy, FitsLimits, IsLargest, PortfolioValue, SectorSum, Quotient, PercentOf;
    DiversifySound(c, items, cash, total, limits, sectorOf);
    FitsIff(c, items, cash, limits, sectorOf, assets, held);
    if n >= 1 {
      FitsIff(c.(quantity := n), items, cash, limits, sectorOf, assets, held);
      DiversifyCases(c, items, cash, total, limits, sectorOf, n);
      ResizeIsLargest(total, limits.maxStockPct, c.price, n);
      hide Diversify;
      if assets > 0.0 {
        RoomIsLargest(total, limits.maxSectorPct - held / assets * 100.0, c.price, n);
      }
    }
  }

  lemma RoomIsLargest(total: real, room: real, price: real, n: int)
    requires price > 0.0 && n >= 1
    ensures room > 0.5 ==>
              (n == ResizedQuantity(total, room, price) <==> IsLargest(n, price, PercentOf(total, room - 0.1)))
  {
    ResizeIsLargest(total, room, price, n);
    hide ResizedQuantity;
    hide IsLargest, PercentOf;
    if room > 0.5 {
      assert Max(0.0, room - 0.1) == room - 0.1;
    }
  }

  /** The three ways to an order, one per verdict on the wish. */
  lemma DiversifyCases(c: Candidate, items: seq<Item>, cash: real, total: real, limits: Limits, sectorOf: Sectors,
                       n: int)
    requires c.price > 0.0 && c.quantity >= 1 && n >= 1
    ensures var v := Check(c, items, cash, limits, sectorOf);
            var room := limits.maxSectorPct - v.sectorExposure;
            var fits := Check(c.(quantity := n), items, cash, limits, sectorOf).Approved();
            Diversify(c, items, cash, total, limits, sectorOf) == Go(n)
            <==> if v.Approved() then n == c.quantity
                 else if v.outcome.SectorExceeded?
                 then room > 0.5 && n == ResizedQuantity(total, room, c.price) && 2 * n >= c.quantity && fits
                 else n < c.quantity && n == ResizedQuantity(total, limits.maxStockPct, c.price)
                      && 2 * n >= c.quantity && fits
    ensures c.(quantity := c.quantity) == c
  {
    hide Check, ResizedQuantity, HalvedBy;
    HalvedIff(n, c.quantity);
  }

  /** Exactly when the re-check after a stock-limit resize fails. */
  lemma StockRecheckFailsIff(c: Candidate, items: seq<Item>, cash: real, total: real, limits: Limits, sectorOf: Sectors)
    requires c.price > 0.0 && c.quantity >= 1
    ensures var n := ResizedQuantity(total, limits.maxStockPct, c.price);
            Diversify(c, items, cash, total, limits, sectorOf) == Stop(StockRecheckFailed)
            <==> && Check(c, items, cash, limits, sectorOf).outcome.StockExceeded?
                 && 0 < n < c.quantity && !HalvedBy(n, c.quantity)
                 && Worth(n, c.price) > PercentOf(CheckedTotal(items, cash), limits.maxStockPct)
    ensures total <= CheckedTotal(items, cash) ==>
              Diversify(c, items, cash, total, limits, sectorOf) != Stop(StockRecheckFailed)
  {
    hide ResizedQuantity, HalvedBy, Check;
    if Check(c, items, cash, limits, sectorOf).outcome.StockExceeded?
       && 0 < ResizedQuantity(total, limits.maxStockPct, c.price) < c.quantity {
      StockResizeOutcome(c, items, cash, total, limits, sectorOf);
    }
  }

  /** Exactly when the re-check after a sector-limit resize fails. */
  lemma SectorRecheckFailsIff(c: Candidate, items: seq<Item>, cash: real, total: real, limits: Limits,
                              sectorOf: Sectors)
    requires c.price > 0.0 && c.quantity >= 1
    ensures var v := Check(c, items, cash, limits, sectorOf);
            var room := limits.maxSectorPct - v.sectorExposure;
            var n := ResizedQuantity(total, room, c.price);
            var checked := CheckedTotal(items, cash);
            Diversify(c, items, cash, total, limits, sectorOf) == Stop(SectorRecheckFailed)
            <==> && v.outcome.SectorExceeded? && room > MINIMAL_ROOM && n > 0 && !HalvedBy(n, c.quantity)
                 && (|| SectorAfter(c.(quantity := n), items, sectorOf) > PercentOf(checked, limits.maxSectorPct)
                     || Worth(n, c.price) > PercentOf(checked, limits.maxStockPct))
    ensures total <= CheckedTotal(items, cash)
            && Diversify(c, items, cash, total, limits, sectorOf) == Stop(SectorRecheckFailed) ==>
              var room := limits.maxSectorPct - Check(c, items, cash, limits, sectorOf).sectorExposure;
              Worth(ResizedQuantity(total, room, c.price), c.price)
              > PercentOf(CheckedTotal(items, cash), limits.maxStockPct)
  {
    hide ResizedQuantity, HalvedBy, Check, SectorAfter;
    var v := Check(c, items, cash, limits, sectorOf);
    if v.outcome.SectorExceeded? && limits.maxSectorPct - v.sectorExposure > MINIMAL_ROOM {
      SectorResizeOutcome(c, items, cash, total, limits, sectorOf);
      OutcomesAreFour(c, items, cash, limits, sectorOf);
      var n := ResizedQuantity(total, limits.maxSectorPct - v.sectorExposure, c.price);
      OutcomesAreFour(c.(quantity := n), items, cash, limits, sectorOf);
    }
  }

  lemma OutcomesAreFour(c: Candidate, items: seq<Item>, cash: real, limits: Limits, sectorOf: Sectors)
    ensures var v := Check(c, items, cash, limits, sectorOf);
            v.Approved() <==> v.outcome.Passed? || CheckedTotal(items, cash) <= 0.0
    ensures Check(c, items, cash, limits, sectorOf).outcome.NoAssets? <==> CheckedTotal(items, cash) <= 0.0
  {
  }

  /** With two HOLDING rows of one code the executor's total counts both and the checker's only one, and the re-check
   *  after a stock-limit resize fails. */
  lemma DuplicateRowsFailRecheck(sectorOf: Sectors)
    requires sectorOf("B", "B") != sectorOf("A", "A")
    ensures var rows := [Row("A", "A", 100, 100.0), Row("A", "A", 100, 100.0)];
            var c := Candidate("B", "B", 100.0, 35);
            Diversify(c, CacheOf(rows), 10000.0, 10000.0 + RowsValue(rows), Limits(30.0, 10.0), sectorOf)
            == Stop(StockRecheckFailed)
  {
    var r, c, limits := Row("A", "A", 100, 100.0), Candidate("B", "B", 100.0, 35), Limits(30.0, 10.0);
    var items := CacheOf([r, r]);
    TwiceListed(r, sectorOf("B", "B"), sectorOf);
    hide CacheOf, RowsValue, PortfolioValue, SectorSum, HalvedBy, Check;
    ResizedFits(30000.0, 10.0, 100.0, 29);
    ResizedFits(30000.0, 10.0, 100.0, 30);
    assert ResizedQuantity(30000.0, 10.0, 100.0) == 29;
    NotHalved();
    PassedIff(c, items, 10000.0, limits, sectorOf);
    OutcomesAreFour(c, items, 10000.0, limits, sectorOf);
    hide ResizedQuantity;
    StockRecheckFailsIff(c, items, 10000.0, 30000.0, limits, sectorOf);
  }

  lemma NotHalved()
    ensures !HalvedBy(29, 35)
  {
  }

  /** A row listed twice counts twice for the executor and once for the checker. */
  lemma TwiceListed(r: Row, other: string, sectorOf: Sectors)
    requires r.code != "" && sectorOf(r.code, r.name) != other
    ensures RowsValue([r, r]) == 2.0 * Worth(r.quantity, r.avgPrice)
    ensures PortfolioValue(CacheOf([r, r])) == Worth(r.quantity, r.avgPrice)
    ensures SectorSum(CacheOf([r, r]), other, sectorOf) == 0.0
  {
    assert [r, r][..1] == [r] && [r][..0] == [];
    assert CacheOf([r]) == [ItemOf(r)];
    assert CacheOf([r, r]) == [ItemOf(r)] && [ItemOf(r)][..0] == [];
    assert RowsValue([r]) == Worth(r.quantity, r.avgPrice);
    hide Worth;
  }

  /** What the stages before sizing guarantee of the chosen candidate. */
  lemma ChosenFacts(req: Request, w: World, cfg: Config)
    requires Priced(req, w) && Choose(req, w, cfg).Chosen?
    ensures var best := Choose(req, w, cfg).scan;
            && best in req.candidates && best.llmScore >= cfg.minLlmScore
            && (forall c <- req.candidates :: !HoldsCode(w.portfolio, c.code) ==> c.llmScore <= best.llmScore)
            && !HoldsCode(w.portfolio, best.code) && !w.tradedRecently(best.code)
            && w.todayBuys < cfg.maxBuysPerDay && |w.portfolio| < cfg.maxPortfolioSize
            && Choose(req, w, cfg).price > 0.0
  {
    ChosenIsPriced(req, w, cfg);
    NotHeldIsFilter(req.candidates, w.portfolio);
    BestIsIn(NotHeld(req.candidates, w.portfolio));
    hide NotHeld, Best, HoldsCode;
  }

  /** A recorded trade: the chosen candidate in an approved quantity, which is all that was sized, or the most that the
   *  broken limit leaves. */
  ghost predicate IsApprovedTrade(r: Result, req: Request, w: World, cfg: Config, sizer: Z.SizerConfig,
                                  sectorOf: Sectors) {
    && r.Bought? && Choose(req, w, cfg).Chosen?
    && var scan, price := Choose(req, w, cfg).scan, Choose(req, w, cfg).price;
       var sized := SizeOrder(req, scan, w, price, cfg, sizer);
       && r == Bought(scan.code, scan.name, r.quantity, price)
       && sized.Go? && 1 <= r.quantity <= sized.quantity
       && Check(CandidateOf(scan, price, r.quantity), CacheOf(w.portfolio), w.cash, LimitsFor(req, cfg),
                sectorOf).Approved()
       && var limits := if req.strongBull then Limits(50.0, 20.0) else Limits(cfg.maxSectorPct, cfg.maxStockPct);
          IsOrderIn(w, r.quantity, sized.quantity, scan, price, limits, sectorOf)
  }

  /** An order in the executor's figures: limits are of cash and listed holdings, resizes of cash and all rows. */
  ghost predicate IsOrderIn(w: World, n: int, wish: int, scan: Scan, price: real, limits: Limits, sectorOf: Sectors) {
    var items := CacheOf(w.portfolio);
    IsOrderFor(n, wish, price, w.cash + PortfolioValue(items),
               SectorSum(items, sectorOf(scan.code, scan.name), sectorOf),
               w.cash + RowsValue(w.portfolio), limits)
  }

  lemma LimitsInFigures(req: Request, cfg: Config)
    ensures LimitsFor(req, cfg)
            == if req.strongBull then Limits(50.0, 20.0) else Limits(cfg.maxSectorPct, cfg.maxStockPct)
  {
  }

  /** Exactly which quantity a sized wish is ordered in, whatever rows the table holds. */
  lemma OrderedIff(w: World, scan: Scan, price: real, wish: int, limits: Limits, sectorOf: Sectors)
    requires price > 0.0 && wish >= 1
    ensures forall n :: Diversify(CandidateOf(scan, price, wish), CacheOf(w.portfolio), w.cash,
                                  w.cash + RowsValue(w.portfolio), limits, sectorOf) == Go(n)
                        <==> IsOrderIn(w, n, wish, scan, price, limits, sectorOf)
  {
    var c, items := CandidateOf(scan, price, wish), CacheOf(w.portfolio);
    var assets, held := w.cash + PortfolioValue(items), SectorSum(items, sectorOf(scan.code, scan.name), sectorOf);
    forall n ensures Diversify(c, items, w.cash, w.cash + RowsValue(w.portfolio), limits, sectorOf) == Go(n)
                     <==> IsOrderIn(w, n, wish, scan, price, limits, sectorOf)
    {
      DiversifyIff(c, items, w.cash, w.cash + RowsValue(w.portfolio), limits, sectorOf, assets, held, n);
      hide Diversify, IsOrderFor;
    }
  }

  /** Whatever rows the table holds, a recorded trade is the chosen candidate in an approved quantity; and when
   *  the executor's total is not above the checker's, as with one row per code, no stock-limit resize fails its
   *  re-check. */
  lemma BoughtIsApproved(req: Request, w: World, cfg: Config, sizer: Z.SizerConfig, sectorOf: Sectors)
    requires Priced(req, w)
    ensures var r := ProcessSignal(req, w, cfg, sizer, sectorOf);
            && (r.Bought? ==> IsApprovedTrade(r, req, w, cfg, sizer, sectorOf))
            && (r == Stopped(StockRecheckFailed) ==> RowsValue(w.portfolio) > PortfolioValue(CacheOf(w.portfolio)))
  {
    hide Choose, SizeOrder, Check, CacheOf, PortfolioValue, RowsValue, Priced, Diversify, LimitsFor, IsOrderIn;
    StoppedBefore(req, w, cfg);
    match Choose(req, w, cfg)
    case NotChosen(_) =>
    case Chosen(scan, price) =>
      ChosenIsPriced(req, w, cfg);
      SizeFacts(req, scan, w, price, cfg, sizer);
      match SizeOrder(req, scan, w, price, cfg, sizer)
      case Stop(_) =>
      case Go(quantity) =>
        var c, items := CandidateOf(scan, price, quantity), CacheOf(w.portfolio);
        var total := w.cash + RowsValue(w.portfolio);
        DiversifySound(c, items, w.cash, total, LimitsFor(req, cfg), sectorOf);
        OrderedIff(w, scan, price, quantity, LimitsFor(req, cfg), sectorOf);
        LimitsInFigures(req, cfg);
        StockRecheckFailsIff(c, items, w.cash, total, LimitsFor(req, cfg), sectorOf);
  }

  /** With one row per code the two totals agree. */
  lemma KeyedRowsPassRecheck(req: Request, w: World, cfg: Config, sizer: Z.SizerConfig, sectorOf: Sectors)
    requires Priced(req, w) && WellKeyed(w.portfolio)
    ensures ProcessSignal(req, w, cfg, sizer, sectorOf) != Stopped(StockRecheckFailed)
  {
    hide ProcessSignal;
    BoughtIsApproved(req, w, cfg, sizer, sectorOf);
    CacheIsItems(w.portfolio);
  }

  lemma StoppedBefore(req: Request, w: World, cfg: Config)
    ensures Choose(req, w, cfg) != NotChosen(StockRecheckFailed)
  {
  }

  lemma SizeFacts(req: Request, scan: Scan, w: World, price: real, cfg: Config, sizer: Z.SizerConfig)
    ensures var sized := SizeOrder(req, scan, w, price, cfg, sizer);
            sized != Stop(StockRecheckFailed) && (sized.Go? ==> sized.quantity >= 1)
  {
  }

  // ---------------------------------------------------------------------------
  // Orders without a manual quantity
  // ---------------------------------------------------------------------------

  lemma ScaledIsNoMore(base: int, ratio: real)
    requires base >= 0 && ratio <= 1.0
    ensures Trunc(Times(base as real, ratio)) <= base
  {
    assert base as real - Times(base as real, ratio) == Times(base as real, 1.0 - ratio);
    assert Times(base as real, 1.0 - ratio) >= 0.0;
  }

  /** The regime ratio and the minimum of one share never order more than the sizer allows. */
  lemma SizedIsNoMore(req: Request, scan: Scan, w: World, price: real, cfg: Config, sizer: Z.SizerConfig)
    requires ManualQuantity(req, scan) == 0 && RatioOf(RiskFor(req, scan, w)) <= 1.0
    requires Z.Steps(OrderAt(w, price, cfg), sizer).quantity >= 0
    ensures var sized := SizeOrder(req, scan, w, price, cfg, sizer);
            sized.Go? ==> 1 <= sized.quantity <= Z.Steps(OrderAt(w, price, cfg), sizer).quantity
  {
    ScaledIsNoMore(Z.Steps(OrderAt(w, price, cfg), sizer).quantity, RatioOf(RiskFor(req, scan, w)));
    hide Z.Steps, Trunc, Times, RatioOf, RiskFor, OrderAt;
  }

  /** A recorded trade without a manual quantity costs at most the position cap and leaves the share of assets that is
   *  to be kept in cash, through scaling, the minimum of one share, and any resize. */
  lemma AutomaticTradeRespectsCaps(req: Request, w: World, cfg: Config, sizer: Z.SizerConfig, sectorOf: Sectors)
    requires Priced(req, w) && ProcessSignal(req, w, cfg, sizer, sectorOf).Bought?
    requires var scan, price := Choose(req, w, cfg).scan, Choose(req, w, cfg).price;
             && ManualQuantity(req, scan) == 0 && RatioOf(RiskFor(req, scan, w)) <= 1.0
             && Z.Sane(OrderAt(w, price, cfg), sizer)
    ensures var r := ProcessSignal(req, w, cfg, sizer, sectorOf);
            var o := OrderAt(w, r.price, cfg);
            && Worth(r.quantity, r.price) <= Z.AssetCap(o, sizer)
            && w.cash - Worth(r.quantity, r.price) >= Z.CashToKeep(o)
  {
    var r := ProcessSignal(req, w, cfg, sizer, sectorOf);
    BoughtIsApproved(req, w, cfg, sizer, sectorOf);
    var scan, price := Choose(req, w, cfg).scan, Choose(req, w, cfg).price;
    var o := OrderAt(w, price, cfg);
    hide ProcessSignal, Choose, Check, CacheOf, Priced, SizeOrder, RatioOf, RiskFor, ManualQuantity;
    Z.StepsAreClosedForm(o, sizer);
    Z.SaneIsUsable(o, sizer);
    BaseNotNegative(o, sizer);
    SizedIsNoMore(req, scan, w, price, cfg, sizer);
    Z.SizedRespectsLimits(o, sizer);
    WorthMonotone(r.quantity, Z.ClosedForm(o, sizer), price);
  }

  lemma BaseNotNegative(o: Z.Order, sizer: Z.SizerConfig)
    requires Z.Sane(o, sizer)
    ensures Z.Steps(o, sizer).quantity >= 0
  {
    Z.SaneIsUsable(o, sizer);
    Z.StepsAreClosedForm(o, sizer);
    hide Z.Steps, Z.RiskPerShare, Z.CapQuantity, Z.RiskQuantity, Z.SkipsForCash;
  }

  // ---------------------------------------------------------------------------
  // The executor itself
  // ---------------------------------------------------------------------------

  class Executor {
    const cfg: Config
    const sizer: Z.PositionSizer
    const sectorOf: Sectors
    var trades: seq<Result>

    constructor (cfg: Config, sizer: Z.PositionSizer, sectorOf: Sectors)
      ensures this.cfg == cfg && this.sizer == sizer && this.sectorOf == sectorOf && trades == []
    {
      this.cfg, this.sizer, this.sectorOf, trades := cfg, sizer, sectorOf, [];
    }

    /** `_check_diversification`: fill the dictionary row by row, then ask the checker. */
    method CheckOrder(c: Candidate, rows: seq<Row>, cash: real, limits: Limits) returns (v: Verdict)
      ensures v == Check(c, CacheOf(rows), cash, limits, sectorOf)
    {
      var cache: seq<Item> := [];
      for i := 0 to |rows|
        invariant cache == CacheOf(rows[..i])
      {
        assert rows[..i + 1][..i] == rows[..i];
        if rows[i].code != "" {
          cache := PutItem(cache, ItemOf(rows[i]));
        }
      }
      assert rows[..|rows|] == rows;
      v := CheckDiversification(c, cache, cash, limits, sectorOf);
    }

    /** Check, resize on rejection, check again. */
    method DiversifyOrder(c: Candidate, rows: seq<Row>, cash: real, total: real, limits: Limits) returns (go: Sizing)
      requires c.price > 0.0 && c.quantity >= 1
      ensures go == Diversify(c, CacheOf(rows), cash, total, limits, sectorOf)
    {
      var positionSize := c.quantity;
      var v := CheckOrder(c, rows, cash, limits);
      hide Check, CacheOf, ResizedQuantity, HalvedBy;
      if !v.Approved() {
        if v.outcome.SectorExceeded? {
          var room := limits.maxSectorPct - v.sectorExposure;
          if room > MINIMAL_ROOM {
            var newQuantity := ResizedQuantity(total, room, c.price);
            if newQuantity > 0 {
              if HalvedBy(newQuantity, c.quantity) {
                return Stop(SmartSkipSector);
              }
              positionSize := newQuantity;
              var again := CheckOrder(c.(quantity := positionSize), rows, cash, limits);
              if !again.Approved() {
                return Stop(SectorRecheckFailed);
              }
            } else {
              return Stop(SectorResizedToZero);
            }
          } else {
            return Stop(NoSectorRoom);
          }
        } else {
          var newQuantity := ResizedQuantity(total, limits.maxStockPct, c.price);
          if newQuantity > 0 && newQuantity < positionSize {
            if HalvedBy(newQuantity, c.quantity) {
              return Stop(SmartSkipStock);
            }
            positionSize := newQuantity;
            var again := CheckOrder(c.(quantity := positionSize), rows, cash, limits);
            if !again.Approved() {
              return Stop(StockRecheckFailed);
            }
          } else {
            return Stop(StockResizedToZero);
          }
        }
      }
      return Go(positionSize);
    }

    /** `sum(quantity * avg_price)` over the rows. */
    method ValueOf(rows: seq<Row>) returns (value: real)
      ensures value == RowsValue(rows)
    {
      value := 0.0;
      for i := 0 to |rows|
        invariant value == RowsValue(rows[..i])
      {
        assert rows[..i + 1][..i] == rows[..i];
        value := value + Worth(rows[i].quantity, rows[i].avgPrice);
      }
      assert rows[..|rows|] == rows;
    }

    method Size(req: Request, scan: Scan, w: World, price: real) returns (sized: Sizing)
      ensures sized == SizeOrder(req, scan, w, price, cfg, sizer.cfg)
    {
      var risk := scan.risk;
      if risk.NoSetting? {
        risk := req.risk;
      }
      if risk.NoSetting? {
        risk := w.cachedRisk;
      }
      var portfolioValue := ValueOf(w.portfolio);
      var manual := req.manualQuantity;
      if manual == 0 {
        manual := scan.manualQuantity;
      }
      if manual != 0 {
        if manual <= 0 {
          return Stop(InvalidManual);
        }
        if !req.dryRun {
          var needed := Worth(manual, price);
          if needed > w.cash {
            return Stop(NoCashForManual);
          }
        }
        return Go(manual);
      }
      var sizing := sizer.CalculateQuantity(Z.Order(price, Some(price * 0.02), w.cash, portfolioValue,
                                                    cfg.cashKeepPct));
      var ratio := if risk.Setting? then risk.positionSizeRatio.GetOr(1.0) else 1.0;
      assert ratio == RatioOf(RiskFor(req, scan, w));
      var positionSize := Trunc(Times(sizing.quantity as real, ratio));
      if positionSize < 1 && sizing.quantity >= 1 {
        positionSize := 1;
      }
      if positionSize <= 0 {
        return Stop(TooSmall);
      }
      return Go(positionSize);
    }

    /** Candidates that are not held, in their order. */
    method KeepNotHeld(cs: seq<Scan>, rows: seq<Row>) returns (kept: seq<Scan>)
      ensures kept == NotHeld(cs, rows)
    {
      kept := [];
      for i := 0 to |cs|
        invariant kept == NotHeld(cs[..i], rows)
      {
        assert cs[..i + 1][..i] == cs[..i];
        if !(exists j :: 0 <= j < |rows| && rows[j].code == cs[i].code) {
          kept := kept + [cs[i]];
        }
      }
      assert cs[..|cs|] == cs;
    }

    /** The first of the highest scores, which a stable descending sort puts in front. */
    method FirstBest(cs: seq<Scan>) returns (best: Scan)
      requires cs != []
      ensures best == Best(cs)
    {
      best := cs[0];
      assert cs[..1] == [cs[0]];
      for i := 1 to |cs|
        invariant best == Best(cs[..i])
      {
        assert cs[..i + 1][..i] == cs[..i];
        if cs[i].llmScore > best.llmScore {
          best := cs[i];
        }
      }
      assert cs[..|cs|] == cs;
    }

    /** The stages before sizing. */
    method Pick(req: Request, w: World) returns (r: Choice)
      ensures r == Choose(req, w, cfg)
    {
      hide NotHeld, Best;
      if req.candidates == [] {
        return NotChosen(NoCandidates);
      }
      if w.todayBuys >= cfg.maxBuysPerDay || |w.portfolio| >= cfg.maxPortfolioSize {
        return NotChosen(SafetyLimit);
      }
      var candidates := KeepNotHeld(req.candidates, w.portfolio);
      if candidates == [] {
        return NotChosen(AllHeld);
      }
      for i := 0 to |candidates|
        invariant forall j :: 0 <= j < i ==> !w.tradedRecently(candidates[j].code)
      {
        if w.tradedRecently(candidates[i].code) {
          return NotChosen(TradedRecently);
        }
      }
      var selected := FirstBest(candidates);
      if selected.llmScore < cfg.minLlmScore {
        return NotChosen(LowScore);
      }
      var price := selected.currentPrice;
      if price == 0.0 {
        var snapshot := w.snapshot(selected.code);
        if snapshot.None? {
          return NotChosen(NoPrice);
        }
        price := snapshot.value;
      }
      return Chosen(selected, price);
    }

    method ProcessBuySignal(req: Request, w: World) returns (r: Result)
      requires Priced(req, w)
      modifies this
      ensures r == ProcessSignal(req, w, cfg, sizer.cfg, sectorOf)
      ensures trades == old(trades) + if r.Bought? then [r] else []
    {
      var choice := Pick(req, w);
      if choice.NotChosen? {
        return Stopped(choice.why);
      }
      var scan, price := choice.scan, choice.price;
      ChosenIsPriced(req, w, cfg);
      var sized := Size(req, scan, w, price);
      if sized.Stop? {
        return Stopped(sized.why);
      }
      SizeFacts(req, scan, w, price, cfg, sizer.cfg);
      var portfolioValue := ValueOf(w.portfolio);
      var go := DiversifyOrder(CandidateOf(scan, price, sized.quantity), w.portfolio, w.cash, w.cash + portfolioValue,
                               LimitsFor(req, cfg));
      hide SizeOrder, Diversify, Choose, Best, NotHeld;
      if go.Stop? {
        return Stopped(go.why);
      }
      if !req.dryRun && !w.orderAccepted {
        return Stopped(OrderFailed);
      }
      r := Bought(scan.code, scan.name, go.quantity, price);
      trades := trades + [r];
    }
  }
}
