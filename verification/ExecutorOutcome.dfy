/** Exactly what a buy signal ends in, in the figures of the request, the account and the configuration. */
module ExecutorOutcome {
  import opened Prelude
  import opened Diversification
  import opened BuyExecutor
  import Z = PositionSizing

  // ---------------------------------------------------------------------------
  // Choice
  // ---------------------------------------------------------------------------

  predicate IsHeld(rows: seq<Row>, code: string) {
    exists j :: 0 <= j < |rows| && rows[j].code == code
  }

  lemma HeldIff(rows: seq<Row>)
    ensures forall code :: HoldsCode(rows, code) <==> IsHeld(rows, code)
  {
  }

  /** The first candidate with the highest score among those not held. */
  ghost predicate IsFirstBest(cs: seq<Scan>, rows: seq<Row>, k: int) {
    && 0 <= k < |cs| && !IsHeld(rows, cs[k].code)
    && forall i :: 0 <= i < |cs| && !IsHeld(rows, cs[i].code) ==>
         cs[i].llmScore <= cs[k].llmScore && (i < k ==> cs[i].llmScore < cs[k].llmScore)
  }

  /** One more candidate takes the lead exactly when it is not held and scores higher. */
  lemma NextBest(front: seq<Scan>, last: Scan, rows: seq<Row>, k: int)
    requires IsFirstBest(front, rows, k)
    ensures IsFirstBest(front + [last], rows,
                        if !IsHeld(rows, last.code) && last.llmScore > front[k].llmScore then |front| else k)
  {
    hide IsHeld;
    var cs := front + [last];
    assert forall i :: 0 <= i < |front| ==> cs[i] == front[i];
  }

  lemma FirstOpen(front: seq<Scan>, last: Scan, rows: seq<Row>)
    requires (forall c <- front :: IsHeld(rows, c.code)) && !IsHeld(rows, last.code)
    ensures IsFirstBest(front + [last], rows, |front|)
  {
    hide IsHeld;
    var cs := front + [last];
    assert forall i :: 0 <= i < |front| ==> cs[i] == front[i] && cs[i] in front;
  }

  lemma {:induction false} BestIsFirst(cs: seq<Scan>, rows: seq<Row>) returns (k: int)
    requires NotHeld(cs, rows) != []
    ensures IsFirstBest(cs, rows, k) && Best(NotHeld(cs, rows)) == cs[k]
  {
    HeldIff(rows);
    hide HoldsCode, IsHeld, IsFirstBest;
    var n := |cs| - 1;
    var front, last := cs[..n], cs[n];
    assert cs == front + [last];
    var kept := NotHeld(front, rows);
    assert NotHeld(cs, rows) == if IsHeld(rows, last.code) then kept else kept + [last];
    assert (kept + [last])[..|kept|] == kept;
    NotHeldIsFilter(front, rows);
    if kept == [] {
      k := n;
      FirstOpen(front, last, rows);
    } else {
      k := BestIsFirst(front, rows);
      IndexOfBest(front, rows, k);
      NextBest(front, last, rows, k);
      hide NotHeld;
      if !IsHeld(rows, last.code) && last.llmScore > front[k].llmScore {
        k := n;
      }
    }
  }

  lemma IndexOfBest(cs: seq<Scan>, rows: seq<Row>, k: int)
    requires IsFirstBest(cs, rows, k)
    ensures 0 <= k < |cs|
  {
  }

  lemma FirstBestIsUnique(cs: seq<Scan>, rows: seq<Row>, a: int, b: int)
    requires IsFirstBest(cs, rows, a) && IsFirstBest(cs, rows, b)
    ensures a == b
  {
  }

  /** What gets a candidate past every stage before sizing, and at which price. */
  ghost predicate IsPick(req: Request, w: World, cfg: Config, k: int, price: real) {
    && IsFirstBest(req.candidates, w.portfolio, k)
    && w.todayBuys < cfg.maxBuysPerDay && |w.portfolio| < cfg.maxPortfolioSize
    && (forall c <- req.candidates :: !IsHeld(w.portfolio, c.code) ==> !w.tradedRecently(c.code))
    && var scan := req.candidates[k];
       && scan.llmScore >= cfg.minLlmScore
       && (if scan.currentPrice != 0.0 then price == scan.currentPrice else w.snapshot(scan.code) == Some(price))
  }

  /** A candidate is chosen exactly when it is the first of the highest scores among those not held and nothing stops
   *  the request. */
  lemma ChosenIff(req: Request, w: World, cfg: Config)
    ensures forall scan, price :: Choose(req, w, cfg) == Chosen(scan, price)
                                  <==> exists k :: IsPick(req, w, cfg, k, price) && req.candidates[k] == scan
  {
    NotHeldIsFilter(req.candidates, w.portfolio);
    HeldIff(w.portfolio);
    hide NotHeld, Best, HoldsCode, IsFirstBest, IsHeld;
    if NotHeld(req.candidates, w.portfolio) != [] {
      var k := BestIsFirst(req.candidates, w.portfolio);
      IndexOfBest(req.candidates, w.portfolio, k);
      forall j | IsFirstBest(req.candidates, w.portfolio, j) ensures j == k {
        FirstBestIsUnique(req.candidates, w.portfolio, j, k);
      }
    } else {
      forall k ensures !IsFirstBest(req.candidates, w.portfolio, k) {
        NoneIsBest(req.candidates, w.portfolio, k);
      }
    }
  }

  lemma NoneIsBest(cs: seq<Scan>, rows: seq<Row>, k: int)
    requires forall c <- cs :: IsHeld(rows, c.code)
    ensures !IsFirstBest(cs, rows, k)
  {
  }

  /** Why no candidate is chosen. */
  lemma NotChosenIff(req: Request, w: World, cfg: Config)
    ensures var choice := Choose(req, w, cfg);
            var full := w.todayBuys >= cfg.maxBuysPerDay || |w.portfolio| >= cfg.maxPortfolioSize;
            var allHeld := forall c <- req.candidates :: IsHeld(w.portfolio, c.code);
            var traded := exists c <- req.candidates :: !IsHeld(w.portfolio, c.code) && w.tradedRecently(c.code);
            && (choice == NotChosen(NoCandidates) <==> req.candidates == [])
            && (choice == NotChosen(SafetyLimit) <==> req.candidates != [] && full)
            && (choice == NotChosen(AllHeld) <==> req.candidates != [] && !full && allHeld)
            && (choice == NotChosen(TradedRecently) <==> !full && traded)
            && (choice == NotChosen(LowScore)
                <==> !full && !allHeld && !traded
                     && forall c <- req.candidates :: !IsHeld(w.portfolio, c.code) ==> c.llmScore < cfg.minLlmScore)
  {
    var open := NotHeld(req.candidates, w.portfolio);
    NotHeldIsFilter(req.candidates, w.portfolio);
    HeldIff(w.portfolio);
    hide NotHeld, Best, HoldsCode, IsHeld;
    if open != [] {
      BestIsIn(open);
    }
  }

  // ---------------------------------------------------------------------------
  // Size
  // ---------------------------------------------------------------------------

  /** The quantity a chosen candidate is sized at: the manual quantity, which must be paid for unless nothing is ordered
   *  for real, or the whole part of the sizer's quantity times the ratio, raised to one share. */
  predicate IsSize(req: Request, scan: Scan, w: World, price: real, base: int, ratio: real, q: int) {
    var manual := if req.manualQuantity != 0 then req.manualQuantity else scan.manualQuantity;
    if manual != 0 then q == manual >= 1 && (req.dryRun || q as real * price <= w.cash)
    else
      && q >= 1
      && (|| q as real <= base as real * ratio < (q + 1) as real
          || (q == 1 <= base && base as real * ratio < 1.0))
  }

  /** The ratio comes from the candidate's risk setting, else the request's, else the cached one, and is 1 when the
   *  first setting found does not give it. */
  predicate IsRatio(req: Request, scan: Scan, w: World, ratio: real) {
    match (scan.risk, req.risk, w.cachedRisk)
    case (Setting(Some(r)), _, _) => ratio == r
    case (Setting(None), _, _) => ratio == 1.0
    case (NoSetting, Setting(Some(r)), _) => ratio == r
    case (NoSetting, Setting(None), _) => ratio == 1.0
    case (NoSetting, NoSetting, Setting(Some(r))) => ratio == r
    case (NoSetting, NoSetting, Setting(None)) => ratio == 1.0
    case (NoSetting, NoSetting, NoSetting) => ratio == 1.0
  }

  lemma RatioIff(req: Request, scan: Scan, w: World, ratio: real)
    ensures ratio == RatioOf(RiskFor(req, scan, w)) <==> IsRatio(req, scan, w, ratio)
  {
  }

  lemma WholeTimes(base: int, ratio: real, q: int)
    ensures q >= 1 ==> (q == Trunc(Times(base as real, ratio)) <==> q as real <= base as real * ratio < (q + 1) as real)
    ensures Trunc(Times(base as real, ratio)) < 1 <==> base as real * ratio < 1.0
  {
    var x := Times(base as real, ratio);
    assert x == base as real * ratio;
    hide Times;
  }

  /** Exactly which quantity is sized, and why none is. */
  lemma SizeIff(req: Request, scan: Scan, w: World, price: real, cfg: Config, sizer: Z.SizerConfig, base: int,
                ratio: real)
    requires base == Z.Steps(Z.Order(price, Some(price * 0.02), w.cash, RowsValue(w.portfolio), cfg.cashKeepPct),
                             sizer).quantity
    requires IsRatio(req, scan, w, ratio)
    ensures var manual := if req.manualQuantity != 0 then req.manualQuantity else scan.manualQuantity;
            var sized := SizeOrder(req, scan, w, price, cfg, sizer);
            && (forall q :: sized == Go(q) <==> IsSize(req, scan, w, price, base, ratio, q))
            && (sized == Stop(InvalidManual) <==> manual < 0)
            && (sized == Stop(NoCashForManual) <==> manual > 0 && !req.dryRun && manual as real * price > w.cash)
            && (sized == Stop(TooSmall) <==> manual == 0 && base < 1 && base as real * ratio < 1.0)
  {
    hide Z.Steps, RatioOf, RiskFor, IsRatio, Trunc, Times;
    RatioIff(req, scan, w, ratio);
    forall q
      ensures SizeOrder(req, scan, w, price, cfg, sizer) == Go(q) <==> IsSize(req, scan, w, price, base, ratio, q)
    {
      WholeTimes(base, ratio, q);
    }
    WholeTimes(base, ratio, 1);
  }

  // ---------------------------------------------------------------------------
  // Order
  // ---------------------------------------------------------------------------

  /** A signal buys a quantity of a candidate exactly when that candidate is picked, sized, ordered in that quantity,
   *  and the order is accepted or not placed for real. */
  lemma SignalBuysIff(req: Request, w: World, cfg: Config, sizer: Z.SizerConfig, sectorOf: Sectors, k: int, price: real,
                      base: int, ratio: real, n: int)
    requires Priced(req, w) && IsPick(req, w, cfg, k, price)
    requires base == Z.Steps(Z.Order(price, Some(price * 0.02), w.cash, RowsValue(w.portfolio), cfg.cashKeepPct),
                             sizer).quantity
    requires IsRatio(req, req.candidates[k], w, ratio)
    ensures var scan := req.candidates[k];
            var limits := if req.strongBull then Limits(50.0, 20.0) else Limits(cfg.maxSectorPct, cfg.maxStockPct);
            ProcessSignal(req, w, cfg, sizer, sectorOf) == Bought(scan.code, scan.name, n, price)
            <==> && (req.dryRun || w.orderAccepted)
                 && exists q :: IsSize(req, scan, w, price, base, ratio, q)
                                && IsOrderIn(w, n, q, scan, price, limits, sectorOf)
  {
    var scan := req.candidates[k];
    hide Choose, IsPick, SizeOrder, Diversify, Priced, RowsValue, CacheOf, IsSize, IsOrderIn, IsRatio, LimitsFor,
         Z.Steps, ProcessSignal;
    ChosenIff(req, w, cfg);
    assert Choose(req, w, cfg) == Chosen(scan, price);
    ChosenIsPriced(req, w, cfg);
    SizeIff(req, scan, w, price, cfg, sizer, base, ratio);
    SizeFacts(req, scan, w, price, cfg, sizer);
    LimitsInFigures(req, cfg);
    SignalStages(req, w, cfg, sizer, sectorOf, scan, price, n);
    var sized := SizeOrder(req, scan, w, price, cfg, sizer);
    if sized.Go? {
      assert IsSize(req, scan, w, price, base, ratio, sized.quantity);
      OrderedIff(w, scan, price, sized.quantity, LimitsFor(req, cfg), sectorOf);
    }
  }

  /** The stages after the choice, one after the other. */
  lemma SignalStages(req: Request, w: World, cfg: Config, sizer: Z.SizerConfig, sectorOf: Sectors, scan: Scan,
                     price: real, n: int)
    requires Priced(req, w) && Choose(req, w, cfg) == Chosen(scan, price) && price > 0.0
    requires SizeOrder(req, scan, w, price, cfg, sizer).Go? ==>
               SizeOrder(req, scan, w, price, cfg, sizer).quantity >= 1
    ensures var sized := SizeOrder(req, scan, w, price, cfg, sizer);
            ProcessSignal(req, w, cfg, sizer, sectorOf) == Bought(scan.code, scan.name, n, price)
            <==> && (req.dryRun || w.orderAccepted) && sized.Go?
                 && Diversify(CandidateOf(scan, price, sized.quantity), CacheOf(w.portfolio), w.cash,
                              w.cash + RowsValue(w.portfolio), LimitsFor(req, cfg), sectorOf) == Go(n)
  {
    hide Choose, SizeOrder, Diversify, Priced, RowsValue, CacheOf, LimitsFor;
  }

  /** A signal that picks no candidate buys nothing. */
  lemma NoPickNoBuy(req: Request, w: World, cfg: Config, sizer: Z.SizerConfig, sectorOf: Sectors)
    requires Priced(req, w) && ProcessSignal(req, w, cfg, sizer, sectorOf).Bought?
    ensures exists k :: IsPick(req, w, cfg, k, ProcessSignal(req, w, cfg, sizer, sectorOf).price)
  {
    hide Choose, IsPick, SizeOrder, Diversify, Priced, RowsValue, CacheOf, LimitsFor;
    ChosenIff(req, w, cfg);
  }

  // ---------------------------------------------------------------------------
  // Reasons for ordering nothing
  // ---------------------------------------------------------------------------

  /** Why a wish that breaks its sector's limit is not ordered: no room, or the room left, less 0.1 percentage points,
   *  pays for no share or for less than half of the wish. */
  lemma SectorStopsIff(c: Candidate, items: seq<Item>, cash: real, total: real, limits: Limits, sectorOf: Sectors,
                       assets: real, held: real, room: real, left: real)
    requires c.price > 0.0 && c.quantity >= 1
    requires assets == cash + PortfolioValue(items) && held == SectorSum(items, sectorOf(c.code, c.name), sectorOf)
    requires assets > 0.0 ==> room == limits.maxSectorPct - held / assets * 100.0
    requires left == total * (Max(0.0, room - 0.1) / 100.0)
    ensures var go := Diversify(c, items, cash, total, limits, sectorOf);
            var half := (c.quantity + 1) / 2;
            var full := assets > 0.0 && held + c.quantity as real * c.price > assets * (limits.maxSectorPct / 100.0);
            && (go == Stop(NoSectorRoom) <==> full && room <= 0.5)
            && (go == Stop(SectorResizedToZero) <==> full && room > 0.5 && left < c.price)
            && (go == Stop(SmartSkipSector) <==> full && room > 0.5 && c.price <= left < half as real * c.price)
  {
    hide Check, ResizedQuantity, HalvedBy, PortfolioValue, SectorSum, Quotient;
    FitsIff(c, items, cash, limits, sectorOf, assets, held);
    ResizedReaches(total, room, c.price, c.quantity);
    HalvedIff(ResizedQuantity(total, room, c.price), c.quantity);
    hide FitsLimits;
  }

  /** Why a wish that breaks the stock's limit only is not ordered. */
  lemma StockStopsIff(c: Candidate, items: seq<Item>, cash: real, total: real, limits: Limits, sectorOf: Sectors,
                      assets: real, held: real, cap: real)
    requires c.price > 0.0 && c.quantity >= 1
    requires assets == cash + PortfolioValue(items) && held == SectorSum(items, sectorOf(c.code, c.name), sectorOf)
    requires cap == total * (Max(0.0, limits.maxStockPct - 0.1) / 100.0)
    ensures var go := Diversify(c, items, cash, total, limits, sectorOf);
            var half := (c.quantity + 1) / 2;
            var cost := c.quantity as real * c.price;
            var over := assets > 0.0 && held + cost <= assets * (limits.maxSectorPct / 100.0)
                        && cost > assets * (limits.maxStockPct / 100.0);
            && (go == Stop(StockResizedToZero) <==> over && (cap < c.price || cost <= cap))
            && (go == Stop(SmartSkipStock) <==> over && c.price <= cap < cost && cap < half as real * c.price)
  {
    hide Check, ResizedQuantity, HalvedBy, PortfolioValue, SectorSum, Quotient;
    FitsIff(c, items, cash, limits, sectorOf, assets, held);
    ResizedReaches(total, limits.maxStockPct, c.price, c.quantity);
    HalvedIff(ResizedQuantity(total, limits.maxStockPct, c.price), c.quantity);
  }

  /** A resize reaches one share, half of a wish, or the wish, exactly when the reduced share of the total pays
   *  for it. */
  lemma ResizedReaches(total: real, roomPct: real, price: real, wish: int)
    requires price > 0.0 && wish >= 1
    ensures var n := ResizedQuantity(total, roomPct, price);
            var amount := total * (Max(0.0, roomPct - 0.1) / 100.0);
            && (n >= 1 <==> price <= amount)
            && (2 * n >= wish <==> ((wish + 1) / 2) as real * price <= amount)
            && (n >= wish <==> wish as real * price <= amount)
  {
    ResizeReaches(total, roomPct, price, 1);
    ResizeReaches(total, roomPct, price, (wish + 1) / 2);
    ResizeReaches(total, roomPct, price, wish);
    hide ResizedQuantity;
  }

  lemma ResizeReaches(total: real, roomPct: real, price: real, m: int)
    requires price > 0.0 && m >= 1
    ensures ResizedQuantity(total, roomPct, price) >= m
            <==> m as real * price <= total * (Max(0.0, roomPct - 0.1) / 100.0)
  {
    var x := Max(0.0, roomPct - 0.1);
    assert x / 100.0 >= 0.0;
    if total > 0.0 {
      ResizedFits(total, roomPct, price, m);
      hide ResizedQuantity;
    } else {
      assert total * (x / 100.0) <= 0.0;
      assert m as real * price > 0.0;
      if ResizedQuantity(total, roomPct, price) >= m {
        PositiveResize(total, roomPct, price);
      }
    }
  }

  // ---------------------------------------------------------------------------
  // The dictionary and its sums
  // ---------------------------------------------------------------------------

  /** The last row of a code. */
  predicate IsLastOf(rows: seq<Row>, i: int) {
    0 <= i < |rows| && rows[i].code != "" && forall j :: i < j < |rows| ==> rows[j].code != rows[i].code
  }

  predicate OnePerCode(items: seq<Item>) {
    forall i, j :: 0 <= i < j < |items| ==> items[i].code != items[j].code
  }

  lemma {:induction false} PutHas(items: seq<Item>, it: Item)
    requires OnePerCode(items)
    ensures forall x :: x in PutItem(items, it) <==> x == it || (x in items && x.code != it.code)
  {
    if items != [] {
      var rest := items[1..];
      assert items == [items[0]] + rest;
      assert forall x :: x in rest ==> x.code != items[0].code;
      hide OnePerCode;
      assert OnePerCode(rest) by {
        RestOnePerCode(items);
      }
      PutHas(rest, it);
    }
  }

  lemma RestOnePerCode(items: seq<Item>)
    requires items != []
    ensures OnePerCode(items) <==> OnePerCode(items[1..]) && forall x <- items[1..] :: x.code != items[0].code
  {
    var rest := items[1..];
    assert forall i :: 0 <= i < |rest| ==> items[i + 1] == rest[i] && rest[i] in rest;
    assert forall i :: 0 < i < |items| ==> items[i] == rest[i - 1];
  }

  lemma {:induction false} PutOnePerCode(items: seq<Item>, it: Item)
    requires OnePerCode(items)
    ensures OnePerCode(PutItem(items, it))
  {
    hide OnePerCode;
    if items == [] {
      Single(it);
    } else {
      var first, rest, now := items[0], items[1..], PutItem(items, it);
      RestOnePerCode(items);
      RestOnePerCode(now);
      if first.code == it.code {
        assert now[1..] == rest;
      } else {
        assert now[1..] == PutItem(rest, it);
        PutOnePerCode(rest, it);
        PutHas(rest, it);
      }
    }
  }

  lemma Single(it: Item)
    ensures OnePerCode([it])
  {
  }

  /** A listed item has the figures of the last row of its code, marked at cost. */
  ghost predicate ShowsLast(it: Item, rows: seq<Row>) {
    && it.code != ""
    && exists i :: 0 <= i < |rows| && it == Item(rows[i].code, rows[i].name, rows[i].quantity, rows[i].avgPrice,
                                                 Some(rows[i].avgPrice))
                   && forall j :: i < j < |rows| ==> rows[j].code != it.code
  }

  lemma LastGrows(it: Item, front: seq<Row>, last: Row)
    ensures ShowsLast(it, front + [last])
            <==> if it.code == last.code then last.code != "" && it == ItemOf(last) else ShowsLast(it, front)
  {
    var rows := front + [last];
    assert forall i :: 0 <= i < |front| ==> rows[i] == front[i];
    assert rows[|front|] == last;
  }

  /** The dictionary lists every non-empty code once, with the figures of its last row. */
  lemma {:induction false} DictionaryIsLastRows(rows: seq<Row>)
    ensures OnePerCode(CacheOf(rows))
    ensures forall it :: it in CacheOf(rows) <==> ShowsLast(it, rows)
  {
    hide ShowsLast, PutItem, OnePerCode;
    if rows == [] {
      NothingShown();
    } else {
      var front, last := rows[..|rows| - 1], rows[|rows| - 1];
      assert rows == front + [last];
      DictionaryIsLastRows(front);
      PutHas(CacheOf(front), ItemOf(last));
      PutOnePerCode(CacheOf(front), ItemOf(last));
      forall it ensures it in CacheOf(rows) <==> ShowsLast(it, rows) {
        LastGrows(it, front, last);
        CodeShown(it, front);
      }
    }
  }

  lemma NothingShown()
    ensures OnePerCode([]) && forall it :: !ShowsLast(it, [])
  {
  }

  lemma CodeShown(it: Item, rows: seq<Row>)
    ensures ShowsLast(it, rows) ==> it.code != ""
  {
  }

  /** The worth of the rows is at cost, and adds up. */
  lemma {:induction false} RowsAddUp(a: seq<Row>, b: seq<Row>)
    ensures RowsValue([]) == 0.0 && forall r :: RowsValue([r]) == r.quantity as real * r.avgPrice
    ensures RowsValue(a + b) == RowsValue(a) + RowsValue(b)
  {
    forall r ensures RowsValue([r]) == r.quantity as real * r.avgPrice {
      assert [r][..0] == [];
    }
    if b == [] {
      assert a + b == a;
    } else {
      var front := b[..|b| - 1];
      RowsAddUp(a, front);
      assert (a + b)[..|a + b| - 1] == a + front;
    }
  }

  /** The checker's total and its sector sums mark an item at its current price, without one at its cost, and add up. */
  lemma {:induction false} ItemsAddUp(a: seq<Item>, b: seq<Item>, sector: string, sectorOf: Sectors)
    ensures PortfolioValue([]) == 0.0 == SectorSum([], sector, sectorOf)
    ensures forall it: Item :: var worth := it.quantity as real * (if it.currentPrice.Some? then it.currentPrice.value
                                                             else it.avgPrice);
                         && PortfolioValue([it]) == worth
                         && SectorSum([it], sector, sectorOf)
                            == if sectorOf(it.code, it.name) == sector then worth else 0.0
    ensures PortfolioValue(a + b) == PortfolioValue(a) + PortfolioValue(b)
    ensures SectorSum(a + b, sector, sectorOf) == SectorSum(a, sector, sectorOf) + SectorSum(b, sector, sectorOf)
  {
    forall it: Item ensures PortfolioValue([it]) == it.Value() && SectorSum([it], sector, sectorOf)
                            == if sectorOf(it.code, it.name) == sector then it.Value() else 0.0 {
      assert [it][..0] == [];
    }
    if b == [] {
      assert a + b == a;
    } else {
      var front := b[..|b| - 1];
      ItemsAddUp(a, front, sector, sectorOf);
      assert (a + b)[..|a + b| - 1] == a + front;
    }
  }
}
