/** What every filled buy respects: allocation, stock and sector caps, and the cash floor. */
module EngineAdmission {
  import opened Prelude
  import opened MarketData
  import opened EngineSpec
  import opened EngineLedger
  import opened EngineValue

  /** A quantity that fits under a percentage cap next to what is already exposed. */
  predicate Fits(existing: real, n: int, price: real, equity: real, maxPct: real) {
    existing + Worth(n, price) <= maxPct / 100.0 * equity
  }

  lemma FitsUpTo(existing: real, n: int, price: real, equity: real, maxPct: real)
    requires price > 0.0
    ensures Fits(existing, n, price, equity, maxPct)
            <==> n <= WholeShares(maxPct / 100.0 * equity - existing, price)
  {
    FloorQuotientFits(maxPct / 100.0 * equity - existing, price, n);
  }

  /** The limit returns the largest quantity that fits, and nothing exactly when no half of the wish fits. */
  lemma FittingIsLargest(existing: real, quantity: int, price: real, equity: real, maxPct: real)
    requires price > 0.0 && quantity >= 1
    ensures var r := FittingQuantity(existing, quantity, price, equity, maxPct);
            && 0 <= r <= quantity
            && (r > 0 ==> Fits(existing, r, price, equity, maxPct) && 2 * r >= quantity)
            && (r > 0 ==> forall n :: r < n <= quantity ==> !Fits(existing, n, price, equity, maxPct))
            && (r > 0
                <==> exists n :: 1 <= n <= quantity && 2 * n >= quantity && Fits(existing, n, price, equity, maxPct))
  {
    var amount := maxPct / 100.0 * equity - existing;
    var r := FittingQuantity(existing, quantity, price, equity, maxPct);
    forall n ensures Fits(existing, n, price, equity, maxPct) <==> n <= WholeShares(amount, price) {
      FitsUpTo(existing, n, price, equity, maxPct);
    }
    FloorQuotientFits(amount, price, 1);
    assert amount <= 0.0 ==> WholeShares(amount, price) <= 0;
    hide WholeShares, Fits;
    if r > 0 {
      assert Fits(existing, r, price, equity, maxPct);
    }
  }

  /** The caps on one quantity, as properties of the quantity alone. */
  ghost predicate WithinCaps(q: int, sized: int, price: real, equity: real, cash: real, inStock: real, inSector: real,
                             stockCap: real, sectorCap: real, cashKeepPct: real) {
    && 1 <= q <= sized <= 4 * q
    && Fits(inStock, q, price, equity, stockCap)
    && Fits(inSector, q, price, equity, sectorCap)
    && cash - Worth(q, price) >= equity * (cashKeepPct / 100.0)
    && Worth(q, price) <= cash
  }

  /** The capped quantity is within every cap. */
  lemma CappedWithinCaps(sized: int, price: real, equity: real, cash: real, inStock: real, inSector: real,
                         stockCap: real, sectorCap: real, cashKeepPct: real)
    requires price > 0.0
    ensures var q := CappedQuantity(sized, price, equity, cash, inStock, inSector, stockCap, sectorCap, cashKeepPct);
            q.Some? ==> WithinCaps(q.value, sized, price, equity, cash, inStock, inSector, stockCap, sectorCap,
                                   cashKeepPct)
  {
    hide FittingQuantity, Fits, Worth;
    if sized >= 1 {
      FittingIsLargest(inStock, sized, price, equity, stockCap);
      var q1 := FittingQuantity(inStock, sized, price, equity, stockCap);
      if q1 >= 1 {
        FittingIsLargest(inSector, q1, price, equity, sectorCap);
        var q2 := FittingQuantity(inSector, q1, price, equity, sectorCap);
        FitsDownward(inStock, q2, q1, price, equity, stockCap);
      }
    }
  }

  lemma FitsDownward(existing: real, m: int, n: int, price: real, equity: real, maxPct: real)
    requires price > 0.0 && m <= n && Fits(existing, n, price, equity, maxPct)
    ensures Fits(existing, m, price, equity, maxPct)
  {
    WorthMonotone(m, n, price);
  }

  lemma {:induction false} SectorAppend(a: seq<Holding>, h: Holding, sector: string, slot: Slot)
    ensures SectorValue(a + [h], sector, slot)
            == SectorValue(a, sector, slot) + if h.sector == sector then HoldingValue(h, slot) else 0.0
  {
    assert (a + [h])[..|a|] == a;
  }

  // ---------------------------------------------------------------------------
  // The limits in configuration figures
  // ---------------------------------------------------------------------------

  /** What one buy may cost, and up to what values a stock and a sector may grow. */
  datatype Limits = Limits(budget: real, stock: real, sector: real)

  /** The slice of equity scaled by the regime's ratio, never more than the cash; the percentages, raised in a strong
   *  bull market. */
  function LimitsOf(cash: real, equity: real, regime: Regime, risk: RiskSetting, cfg: EngineConfig,
                    d: DriverConfig): Limits
  {
    var ratio := if risk.positionSizeRatio.Some? then risk.positionSizeRatio.value else 1.0;
    var slice := equity * cfg.maxPositionPct * ratio;
    var stockPct := if regime != StrongBull then d.maxStockPct
                    else if d.maxStockPct * 1.5 < 20.0 then d.maxStockPct * 1.5 else 20.0;
    var sectorPct := if regime != StrongBull then d.maxSectorPct
                     else if d.maxSectorPct + 10.0 < 50.0 then d.maxSectorPct + 10.0 else 50.0;
    Limits(if cash < slice then cash else slice, stockPct / 100.0 * equity, sectorPct / 100.0 * equity)
  }

  lemma LimitsInFigures(cash: real, equity: real, regime: Regime, risk: RiskSetting, cfg: EngineConfig, d: DriverConfig)
    ensures var m := LimitsOf(cash, equity, regime, risk, cfg, d);
            && m.budget == Allocation(cash, equity, cfg.maxPositionPct, risk)
            && m.stock == StockCap(d, regime) / 100.0 * equity
            && m.sector == SectorCap(d, regime) / 100.0 * equity
  {
  }

  /** The largest quantity, at most a wish, that is worth no more than the room for it. */
  predicate IsMost(n: int, wish: int, price: real, room: real) {
    1 <= n <= wish && n as real * price <= room && (n < wish ==> (n + 1) as real * price > room)
  }

  /** The candidate gets past every check made before sizing. */
  predicate PassesGates(s: State, c: Candidate, slot: Slot, regime: Regime, equity: real, cfg: EngineConfig,
                        d: DriverConfig) {
    && c.llmScore >= d.llmThreshold
    && |s.held| < cfg.maxPositions && (forall i :: 0 <= i < |s.held| ==> s.held[i].code != c.code)
    && regime != Bear
    && equity > 0.0 && s.cash > 0.0
    && slot.RowOf(c.code).Some?
  }

  /** The chain of quantities: what the budget pays for, the most of it under the stock limit, the most of that under
   *  the sector limit; neither limit cuts below half, and the cash that is to be kept stays. */
  predicate IsOrder(q: int, sized: int, q1: int, price: real, cash: real, equity: real, inSector: real, m: Limits,
                    keepPct: real) {
    && sized >= 1 && sized as real * price <= m.budget < (sized + 1) as real * price
    && IsMost(q1, sized, price, m.stock) && 2 * q1 >= sized
    && IsMost(q, q1, price, m.sector - inSector) && 2 * q >= q1
    && q as real * price <= cash && cash - q as real * price >= equity * (keepPct / 100.0)
  }

  lemma FittingIsMost(existing: real, wish: int, price: real, equity: real, maxPct: real, n: int)
    requires price > 0.0 && wish >= 1
    ensures FittingQuantity(existing, wish, price, equity, maxPct) == n > 0
            <==> IsMost(n, wish, price, maxPct / 100.0 * equity - existing) && 2 * n >= wish
  {
    var amount := maxPct / 100.0 * equity - existing;
    FloorQuotientFits(amount, price, n);
    FloorQuotientFits(amount, price, n + 1);
    FloorQuotientFits(amount, price, 1);
    SignOfShares(amount, price, n);
    var k := WholeShares(amount, price);
    assert n <= k <==> n as real * price <= amount;
    assert n + 1 <= k <==> (n + 1) as real * price <= amount;
    hide WholeShares, Worth, Quotient;
  }

  lemma SignOfShares(amount: real, price: real, n: int)
    requires price > 0.0
    ensures n >= 1 && n as real * price <= amount ==> amount > 0.0
    ensures amount > 0.0 || WholeShares(amount, price) <= 0
  {
    if n >= 1 {
      assert n as real * price > 0.0;
    }
    FloorQuotientFits(amount, price, 1);
    assert Worth(1, price) == price;
  }

  lemma SizedIsFloor(budget: real, price: real, sized: int)
    requires price > 0.0
    ensures WholeShares(budget, price) == sized <==> sized as real * price <= budget < (sized + 1) as real * price
  {
    FloorQuotientFits(budget, price, sized);
    FloorQuotientFits(budget, price, sized + 1);
    assert Worth(sized, price) == sized as real * price && Worth(sized + 1, price) == (sized + 1) as real * price;
    hide Worth, Quotient;
  }

  lemma CappedIsOrder(sized: int, price: real, equity: real, cash: real, inSector: real, stockCap: real,
                      sectorCap: real, keepPct: real, m: Limits, q: int, q1: int)
    requires price > 0.0 && WholeShares(m.budget, price) == sized
    requires m.stock == stockCap / 100.0 * equity && m.sector == sectorCap / 100.0 * equity
    ensures IsOrder(q, sized, q1, price, cash, equity, inSector, m, keepPct) ==>
              CappedQuantity(sized, price, equity, cash, 0.0, inSector, stockCap, sectorCap, keepPct) == Some(q)
    ensures CappedQuantity(sized, price, equity, cash, 0.0, inSector, stockCap, sectorCap, keepPct) == Some(q)
            && sized >= 1 && q1 == FittingQuantity(0.0, sized, price, equity, stockCap) ==>
              IsOrder(q, sized, q1, price, cash, equity, inSector, m, keepPct)
  {
    hide FittingQuantity, IsMost, WholeShares, CappedQuantity;
    SizedIsFloor(m.budget, price, sized);
    CappedChain(sized, price, equity, cash, inSector, stockCap, sectorCap, keepPct, q);
    if sized >= 1 {
      FittingIsMost(0.0, sized, price, equity, stockCap, q1);
      assert m.stock == stockCap / 100.0 * equity - 0.0;
      if q1 >= 1 {
        FittingIsMost(inSector, q1, price, equity, sectorCap, q);
      }
      MostIsPositive(q1, sized, price, m.stock);
      MostIsPositive(q, q1, price, m.sector - inSector);
    }
  }

  /** The checks of a capped quantity, one after the other. */
  lemma CappedChain(sized: int, price: real, equity: real, cash: real, inSector: real, stockCap: real, sectorCap: real,
                    keepPct: real, q: int)
    requires price > 0.0
    ensures var q1 := FittingQuantity(0.0, sized, price, equity, stockCap);
            CappedQuantity(sized, price, equity, cash, 0.0, inSector, stockCap, sectorCap, keepPct) == Some(q)
            <==> && sized >= 1 && q1 >= 1 && q == FittingQuantity(inSector, q1, price, equity, sectorCap) >= 1
                 && q as real * price <= cash && cash - q as real * price >= equity * (keepPct / 100.0)
  {
    hide FittingQuantity;
  }

  lemma MostIsPositive(n: int, wish: int, price: real, room: real)
    ensures IsMost(n, wish, price, room) ==> n >= 1
  {
  }

  /** The capped quantity is the end of the chain. */
  lemma CappedIff(sized: int, price: real, equity: real, cash: real, inSector: real, stockCap: real, sectorCap: real,
                  keepPct: real, m: Limits, q: int)
    requires price > 0.0 && sized == WholeShares(m.budget, price)
    requires m.stock == stockCap / 100.0 * equity && m.sector == sectorCap / 100.0 * equity
    ensures CappedQuantity(sized, price, equity, cash, 0.0, inSector, stockCap, sectorCap, keepPct) == Some(q)
            <==> exists n, q1 :: IsOrder(q, n, q1, price, cash, equity, inSector, m, keepPct)
  {
    hide CappedQuantity, WholeShares, IsOrder, FittingQuantity;
    forall n, q1 | IsOrder(q, n, q1, price, cash, equity, inSector, m, keepPct)
      ensures CappedQuantity(sized, price, equity, cash, 0.0, inSector, stockCap, sectorCap, keepPct) == Some(q)
    {
      OrderIsSized(q, n, q1, price, cash, equity, inSector, m, keepPct);
      CappedIsOrder(sized, price, equity, cash, inSector, stockCap, sectorCap, keepPct, m, q, q1);
    }
    CappedSized(sized, price, equity, cash, inSector, stockCap, sectorCap, keepPct);
    if sized >= 1 {
      CappedIsOrder(sized, price, equity, cash, inSector, stockCap, sectorCap, keepPct, m, q,
                    FittingQuantity(0.0, sized, price, equity, stockCap));
    }
  }

  lemma AdmittedIsCapped(s: State, c: Candidate, slot: Slot, regime: Regime, sector: string, cfg: EngineConfig,
                         d: DriverConfig)
    requires DistinctCodes(s.held) && c.price > 0.0 && Eligible(s, c, slot, regime, cfg, d)
    ensures AdmittedQuantity(s, c, slot, regime, sector, cfg, d)
            == CappedQuantity(SizedQuantity(s, c, slot, cfg), c.price, TotalValue(s, slot), s.cash, 0.0,
                              SectorValue(s.held, sector, slot), StockCap(d, regime), SectorCap(d, regime),
                              d.cashKeepPct)
  {
    hide CappedQuantity, SizedQuantity, StockCap, SectorCap, TotalValue;
    NotHeldNoValue(s, c, slot);
    ExposuresPartition(s.held, slot);
  }

  /** Exactly when a buy attempt fills, and how many shares: the candidate passes every gate, the chain of quantities
   *  ends in that number, and the cash pays for it with the fee. */
  lemma FillsIff(s: State, c: Candidate, slot: Slot, regime: Regime, sector: string, cfg: EngineConfig, d: DriverConfig,
                 q: int, equity: real, inSector: real, m: Limits)
    requires DistinctCodes(s.held) && c.price > 0.0
    requires equity == TotalValue(s, slot) && inSector == SectorValue(s.held, sector, slot)
    requires m == LimitsOf(s.cash, equity, regime, slot.risk, cfg, d)
    ensures Fills(s, c, slot, regime, sector, cfg, d)
            && AdmittedQuantity(s, c, slot, regime, sector, cfg, d) == Some(q)
            <==> && PassesGates(s, c, slot, regime, equity, cfg, d)
                 && (exists sized, q1 :: IsOrder(q, sized, q1, c.price, s.cash, equity, inSector, m, d.cashKeepPct))
                 && q as real * c.price * (1.0 + 0.0000841) <= s.cash
  {
    hide CappedQuantity, WholeShares, IsOrder, LimitsOf, Allocation, StockCap, SectorCap, TotalValue, SectorValue;
    hide PassesGates, Eligible, HoldingValues, Exposures, Worth;
    GatesAreEligible(s, c, slot, regime, equity, cfg, d);
    LimitsInFigures(s.cash, equity, regime, slot.risk, cfg, d);
    if Eligible(s, c, slot, regime, cfg, d) {
      AdmittedIsCapped(s, c, slot, regime, sector, cfg, d);
      CappedIff(SizedQuantity(s, c, slot, cfg), c.price, equity, s.cash, inSector, StockCap(d, regime),
                SectorCap(d, regime), d.cashKeepPct, m, q);
    }
    FeeOf(q, c.price);
    OrderIsPositive(q, c.price, s.cash, equity, inSector, m, d.cashKeepPct);
  }

  lemma GatesAreEligible(s: State, c: Candidate, slot: Slot, regime: Regime, equity: real, cfg: EngineConfig,
                         d: DriverConfig)
    requires equity == TotalValue(s, slot)
    ensures PassesGates(s, c, slot, regime, equity, cfg, d) <==> Eligible(s, c, slot, regime, cfg, d)
  {
  }

  lemma NotHeldNoValue(s: State, c: Candidate, slot: Slot)
    requires !Holds(s.held, c.code) && DistinctCodes(s.held)
    ensures GetOrZero(HoldingValues(s.held, slot), c.code) == 0.0
  {
    HoldingsPartition(s.held, slot);
  }

  lemma OrderIsSized(q: int, n: int, q1: int, price: real, cash: real, equity: real, inSector: real, m: Limits,
                     keepPct: real)
    requires price > 0.0
    ensures IsOrder(q, n, q1, price, cash, equity, inSector, m, keepPct) ==> n == WholeShares(m.budget, price)
  {
    SizedIsFloor(m.budget, price, n);
  }

  lemma OrderIsPositive(q: int, price: real, cash: real, equity: real, inSector: real, m: Limits, keepPct: real)
    ensures forall sized, q1 :: IsOrder(q, sized, q1, price, cash, equity, inSector, m, keepPct) ==> q >= 1
  {
  }

  lemma CappedSized(sized: int, price: real, equity: real, cash: real, inSector: real, stockCap: real,
                    sectorCap: real, keepPct: real)
    requires price > 0.0
    ensures CappedQuantity(sized, price, equity, cash, 0.0, inSector, stockCap, sectorCap, keepPct).Some? ==> sized >= 1
  {
  }

  lemma FeeOf(q: int, price: real)
    ensures Worth(q, price) + Worth(q, price) * FEE_BUY == q as real * price * (1.0 + 0.0000841)
  {
  }

  /** What a filled buy does to the engine; a skipped one does nothing. The stop is put below the price by the size of
   *  the loss limit, whatever its sign. */
  lemma BuyOutcome(s: State, c: Candidate, slot: Slot, regime: Regime, sector: string, cfg: EngineConfig,
                   d: DriverConfig, row: Row, loss: real, goal: real, stop: real, target: real)
    requires c.price > 0.0
    requires slot.RowOf(c.code).Some? ==> slot.RowOf(c.code) == Some(row)
    requires loss == if slot.risk.stopLossPct.Some? then slot.risk.stopLossPct.value else -cfg.baseStopLossPct
    requires goal == if slot.risk.targetProfitPct.Some? then slot.risk.targetProfitPct.value else cfg.targetProfitPct
    requires stop == c.price * (1.0 - if loss >= 0.0 then loss else -loss) && target == c.price * (1.0 + goal)
    ensures var r := AttemptBuy(s, c, slot, regime, sector, cfg, d);
            && (!Fills(s, c, slot, regime, sector, cfg, d) ==> r == s)
            && (Fills(s, c, slot, regime, sector, cfg, d) ==>
                  var q := AdmittedQuantity(s, c, slot, regime, sector, cfg, d).value;
                  var cost := q as real * c.price;
                  var atr := if row.atr.Some? then row.atr.value else c.price * 0.02;
                  && r.cash == s.cash - cost - cost * 0.0000841
                  && r.held == s.held + [Holding(c.code, q, c.price, slot.timestamp, stop, target, atr, sector, q, 0.0,
                                                 c.price)]
                  && r.log == s.log + [Trade(Buy, c.code, c.price, q, c.signal, slot.timestamp, cost * 0.0000841)])
  {
    hide AttemptBuy, Fills, AdmittedQuantity, NewHolding, BuyTrade, CashOf;
    BuyStep(s, c, slot, regime, sector, cfg, d);
    assert EntryAtr(c, slot) == if slot.RowOf(c.code).Some? && row.atr.Some? then row.atr.value else c.price * 0.02;
    hide EntryAtr;
    if Fills(s, c, slot, regime, sector, cfg, d) {
      FilledHasRow(s, c, slot, regime, sector, cfg, d);
      var q := AdmittedQuantity(s, c, slot, regime, sector, cfg, d).value;
      NewHoldingFigures(c, q, slot, EntryAtr(c, slot), sector, cfg, loss, goal, stop, target);
      BuyTradeFigures(s.cash, c, q, slot.timestamp);
    }
  }

  lemma BuyStep(s: State, c: Candidate, slot: Slot, regime: Regime, sector: string, cfg: EngineConfig, d: DriverConfig)
    requires c.price > 0.0
    ensures AttemptBuy(s, c, slot, regime, sector, cfg, d)
            == if Fills(s, c, slot, regime, sector, cfg, d)
               then
                 var q := AdmittedQuantity(s, c, slot, regime, sector, cfg, d).value;
                 var t := BuyTrade(c, q, slot.timestamp);
                 State(s.cash + CashOf(t), s.held + [NewHolding(c, q, slot, EntryAtr(c, slot), sector, cfg)],
                       s.log + [t])
               else s
  {
    hide CappedQuantity, TotalValue, Worth;
    if Fills(s, c, slot, regime, sector, cfg, d) {
      var q := AdmittedQuantity(s, c, slot, regime, sector, cfg, d).value;
      PutNew(s.held, NewHolding(c, q, slot, EntryAtr(c, slot), sector, cfg));
    }
  }

  lemma FilledHasRow(s: State, c: Candidate, slot: Slot, regime: Regime, sector: string, cfg: EngineConfig,
                     d: DriverConfig)
    requires c.price > 0.0 && Fills(s, c, slot, regime, sector, cfg, d)
    ensures slot.RowOf(c.code).Some? && AdmittedQuantity(s, c, slot, regime, sector, cfg, d).Some?
  {
    hide CappedQuantity, TotalValue, Worth;
  }

  lemma NewHoldingFigures(c: Candidate, q: int, slot: Slot, atr: real, sector: string, cfg: EngineConfig, loss: real,
                          goal: real, stop: real, target: real)
    requires loss == if slot.risk.stopLossPct.Some? then slot.risk.stopLossPct.value else -cfg.baseStopLossPct
    requires goal == if slot.risk.targetProfitPct.Some? then slot.risk.targetProfitPct.value else cfg.targetProfitPct
    requires stop == c.price * (1.0 - if loss >= 0.0 then loss else -loss) && target == c.price * (1.0 + goal)
    ensures NewHolding(c, q, slot, atr, sector, cfg)
            == Holding(c.code, q, c.price, slot.timestamp, stop, target, atr, sector, q, 0.0, c.price)
  {
    assert StopLossOf(slot.risk, cfg) == loss && TargetOf(slot.risk, cfg) == goal;
    assert Abs(loss) == if loss >= 0.0 then loss else -loss;
  }

  lemma BuyTradeFigures(cash: real, c: Candidate, q: int, timestamp: int)
    ensures var cost := q as real * c.price;
            var t := BuyTrade(c, q, timestamp);
            && t == Trade(Buy, c.code, c.price, q, c.signal, timestamp, cost * 0.0000841)
            && cash + CashOf(t) == cash - cost - cost * 0.0000841
  {
  }

  /** What a filled buy `t` leading from `s` to `r` respects. */
  ghost predicate RespectsCaps(s: State, r: State, t: Trade, c: Candidate, slot: Slot, regime: Regime, sector: string,
                               cfg: EngineConfig, d: DriverConfig)
    requires c.price > 0.0
  {
    var equity := TotalValue(s, slot);
    var m := LimitsOf(s.cash, equity, regime, slot.risk, cfg, d);
    var cost := t.quantity as real * c.price;
    && r.log == s.log + [t] && t.side.Buy? && t.code == c.code && t.price == c.price && t.fee == cost * 0.0000841
    && equity > 0.0 && |s.held| < |r.held| <= cfg.maxPositions
    && t.quantity >= 1 && m.budget < (4 * t.quantity + 1) as real * c.price
    && cost <= m.budget && cost <= m.stock && SectorValue(r.held, sector, slot) <= m.sector
    && r.cash >= equity * (d.cashKeepPct / 100.0) - t.fee
  }

  /** Every filled buy of every run: at most the regime-scaled slice of equity, stock and sector within their
   *  percentages of it, cash at least the kept share less the fee, and at least a quarter of what the budget would pay
   *  for. */
  lemma FilledBuyRespectsCaps(initialCapital: real, past: seq<Event>, e: Event, cfg: EngineConfig, d: DriverConfig)
    requires initialCapital >= 0.0 && AllFeasible(past) && Feasible(e) && e.BuyEvent?
    requires Fills(Run(Start(initialCapital), past, cfg, d), e.candidate, e.slot, e.regime, e.sector, cfg, d)
    ensures var s := Run(Start(initialCapital), past, cfg, d);
            var r := Apply(s, e, cfg, d);
            && r.log != []
            && RespectsCaps(s, r, r.log[|r.log| - 1], e.candidate, e.slot, e.regime, e.sector, cfg, d)
  {
    hide RespectsCaps, Fills, AttemptBuy;
    var s := Run(Start(initialCapital), past, cfg, d);
    LedgerOverRun(initialCapital, past, cfg, d);
    BuyRespectsCaps(s, e.candidate, e.slot, e.regime, e.sector, cfg, d);
  }

  lemma BuyRespectsCaps(s: State, c: Candidate, slot: Slot, regime: Regime, sector: string, cfg: EngineConfig,
                        d: DriverConfig)
    requires DistinctCodes(s.held) && c.price > 0.0 && c.price == slot.price(c.code)
    requires Fills(s, c, slot, regime, sector, cfg, d)
    ensures var r := AttemptBuy(s, c, slot, regime, sector, cfg, d);
            r.log != [] && RespectsCaps(s, r, r.log[|r.log| - 1], c, slot, regime, sector, cfg, d)
  {
    hide CappedQuantity, WholeShares, Allocation, StockCap, SectorCap, WithinCaps;
    var q := AdmittedQuantity(s, c, slot, regime, sector, cfg, d).value;
    var inStock := GetOrZero(HoldingValues(s.held, slot), c.code);
    var inSector := GetOrZero(Exposures(s.held, slot), sector);
    CappedWithinCaps(SizedQuantity(s, c, slot, cfg), c.price, TotalValue(s, slot), s.cash, inStock, inSector,
                     StockCap(d, regime), SectorCap(d, regime), d.cashKeepPct);
    HoldingsPartition(s.held, slot);
    ExposuresPartition(s.held, slot);
    assert inStock == 0.0;
    var t, h := BuyTrade(c, q, slot.timestamp), NewHolding(c, q, slot, EntryAtr(c, slot), sector, cfg);
    PutNew(s.held, h);
    SectorAppend(s.held, h, sector, slot);
    var r := AttemptBuy(s, c, slot, regime, sector, cfg, d);
    assert r == State(s.cash + CashOf(t), s.held + [h], s.log + [t]);
    assert t.fee == t.quantity as real * c.price * 0.0000841;
    WithinCapsRespect(s, r, t, c, slot, regime, sector, inSector, cfg, d);
  }

  /** A quantity within the caps makes a buy that respects them. */
  lemma WithinCapsRespect(s: State, r: State, t: Trade, c: Candidate, slot: Slot, regime: Regime, sector: string,
                          inSector: real, cfg: EngineConfig, d: DriverConfig)
    requires c.price > 0.0 && TotalValue(s, slot) > 0.0 && |s.held| < |r.held| <= cfg.maxPositions
    requires t.side.Buy? && t.code == c.code && t.price == c.price && r.log == s.log + [t]
    requires r.cash == s.cash + CashOf(t) && t.fee == t.quantity as real * c.price * 0.0000841
    requires SectorValue(r.held, sector, slot) == inSector + Worth(t.quantity, t.price)
    requires WithinCaps(t.quantity, SizedQuantity(s, c, slot, cfg), c.price, TotalValue(s, slot), s.cash, 0.0, inSector,
                        StockCap(d, regime), SectorCap(d, regime), d.cashKeepPct)
    ensures RespectsCaps(s, r, t, c, slot, regime, sector, cfg, d)
  {
    hide WholeShares, Allocation, StockCap, SectorCap, TotalValue, SectorValue, LimitsOf;
    var equity := TotalValue(s, slot);
    LimitsInFigures(s.cash, equity, regime, slot.risk, cfg, d);
    QuarterOfBudget(t.quantity, SizedQuantity(s, c, slot, cfg),
                    LimitsOf(s.cash, equity, regime, slot.risk, cfg, d).budget,
                    c.price);
  }

  lemma QuarterOfBudget(q: int, sized: int, budget: real, price: real)
    requires price > 0.0 && q <= sized <= 4 * q && sized == WholeShares(budget, price)
    ensures q as real * price <= budget < (4 * q + 1) as real * price
  {
    SizedIsFloor(budget, price, sized);
    WorthMonotone(q, sized, price);
    WorthMonotone(sized + 1, 4 * q + 1, price);
    hide WholeShares;
  }
}
