/** Value conservation: trading moves value between cash and shares and loses only its fees. */
module EngineValue {
  import opened Prelude
  import opened MapSums
  import opened MarketData
  import opened EngineSpec
  import opened EngineLedger

  function Fees(log: seq<Trade>): real {
    if log == [] then 0.0 else Fees(log[..|log| - 1]) + log[|log| - 1].fee
  }

  lemma {:induction false} FeesAppend(a: seq<Trade>, b: seq<Trade>)
    ensures Fees(a + b) == Fees(a) + Fees(b)
  {
    if b == [] {
      assert a + b == a;
    } else {
      FeesAppend(a, b[..|b| - 1]);
      assert (a + b)[..|a + b| - 1] == a + b[..|b| - 1];
    }
  }

  lemma {:induction false} HeldValueAppend(a: seq<Holding>, b: seq<Holding>, slot: Slot)
    ensures HeldValue(a + b, slot) == HeldValue(a, slot) + HeldValue(b, slot)
  {
    if b == [] {
      assert a + b == a;
    } else {
      HeldValueAppend(a, b[..|b| - 1], slot);
      assert (a + b)[..|a + b| - 1] == a + b[..|b| - 1];
    }
  }

  lemma OneValue(h: Holding, slot: Slot)
    ensures HeldValue([h], slot) == HoldingValue(h, slot) && HeldValue([], slot) == 0.0
  {
    assert [h][..0] == [];
  }

  lemma OneFee(t: Trade)
    ensures Fees([t]) == t.fee && Fees([]) == 0.0
  {
    assert [t][..0] == [];
  }

  /** Equity is cash plus, for each holding with a row, its shares at the live price; a sector counts its own holdings
   *  only. The four sums are those of their single elements, however a list is split. */
  lemma SumsInFigures(slot: Slot, sector: string)
    ensures HeldValue([], slot) == 0.0 == SectorValue([], sector, slot) && CashFlow([]) == 0.0 == Fees([])
    ensures forall h: Holding ::
              var worth := if slot.RowOf(h.code).Some? then h.quantity as real * slot.price(h.code) else 0.0;
              && HeldValue([h], slot) == worth
              && SectorValue([h], sector, slot) == if h.sector == sector then worth else 0.0
    ensures forall t: Trade ::
              && CashFlow([t]) == (if t.side.Sell? then t.quantity as real * t.price - t.fee
                                   else -(t.quantity as real * t.price) - t.fee)
              && Fees([t]) == t.fee
    ensures forall s: State :: TotalValue(s, slot) == s.cash + HeldValue(s.held, slot)
  {
    CashFlowOne();
    forall h: Holding
      ensures HeldValue([h], slot) == HoldingValue(h, slot)
      ensures SectorValue([h], sector, slot) == if h.sector == sector then HoldingValue(h, slot) else 0.0
    {
      assert [h][..0] == [];
    }
    forall t: Trade ensures Fees([t]) == t.fee {
      OneFee(t);
    }
  }

  lemma {:induction false} SumsAddUp(a: seq<Holding>, b: seq<Holding>, x: seq<Trade>, y: seq<Trade>, slot: Slot,
                                     sector: string)
    ensures HeldValue(a + b, slot) == HeldValue(a, slot) + HeldValue(b, slot)
    ensures SectorValue(a + b, sector, slot) == SectorValue(a, sector, slot) + SectorValue(b, sector, slot)
    ensures CashFlow(x + y) == CashFlow(x) + CashFlow(y) && Fees(x + y) == Fees(x) + Fees(y)
  {
    HeldValueAppend(a, b, slot);
    CashFlowAppend(x, y);
    FeesAppend(x, y);
    if b == [] {
      assert a + b == a;
    } else {
      SumsAddUp(a, b[..|b| - 1], x, y, slot, sector);
      assert (a + b)[..|a + b| - 1] == a + b[..|b| - 1];
    }
  }

  // ---------------------------------------------------------------------------
  // One event
  // ---------------------------------------------------------------------------

  lemma StepConservesValue(h: Holding, slot: Slot, cfg: EngineConfig)
    requires Sound(h) && slot.price(h.code) >= 0.0
    ensures var o := StepHolding(h, slot, cfg);
            HeldValue(o.next, slot) + CashFlow(o.sales) == HoldingValue(h, slot) - Fees(o.sales)
  {
    var o := StepHolding(h, slot, cfg);
    CashFlowOne();
    if o.next != [] {
      assert o.next == [o.next[0]];
      OneValue(o.next[0], slot);
    }
    if o.sales != [] {
      SaleBounds(h, slot, cfg);
      assert o.sales == [o.sales[0]];
      OneFee(o.sales[0]);
      if o.next != [] {
        WorthAdds(o.next[0].quantity, o.sales[0].quantity, slot.price(h.code));
      }
    }
  }

  lemma {:induction false} SalesConserveValue(hs: seq<Holding>, slot: Slot, cfg: EngineConfig)
    requires AllSound(hs) && forall c :: slot.price(c) >= 0.0
    ensures HeldValue(Survivors(hs, slot, cfg), slot) + CashFlow(Sales(hs, slot, cfg))
            == HeldValue(hs, slot) - Fees(Sales(hs, slot, cfg))
  {
    hide StepHolding;
    CashFlowOne();
    if hs != [] {
      var front, h := hs[..|hs| - 1], hs[|hs| - 1];
      var o := StepHolding(h, slot, cfg);
      SalesConserveValue(front, slot, cfg);
      StepConservesValue(h, slot, cfg);
      HeldValueAppend(Survivors(front, slot, cfg), o.next, slot);
      CashFlowAppend(Sales(front, slot, cfg), o.sales);
      FeesAppend(Sales(front, slot, cfg), o.sales);
    }
  }

  /** At the slot's own prices, processing a slot loses exactly the fees of its sales. */
  lemma SlotLosesFees(s: State, slot: Slot, cfg: EngineConfig)
    requires AllSound(s.held) && forall c :: slot.price(c) >= 0.0
    ensures var r := ProcessSlot(s, slot, cfg);
            TotalValue(r, slot) == TotalValue(s, slot) - (Fees(r.log) - Fees(s.log))
  {
    SalesConserveValue(s.held, slot, cfg);
    FeesAppend(s.log, Sales(s.held, slot, cfg));
  }

  /** A filled buy loses exactly its fee, a skipped one nothing. */
  lemma BuyLosesFee(s: State, c: Candidate, slot: Slot, regime: Regime, sector: string, cfg: EngineConfig,
                    d: DriverConfig)
    requires c.price > 0.0 && c.price == slot.price(c.code)
    ensures var r := AttemptBuy(s, c, slot, regime, sector, cfg, d);
            TotalValue(r, slot) == TotalValue(s, slot) - (Fees(r.log) - Fees(s.log))
  {
    hide CappedQuantity;
    var q := AdmittedQuantity(s, c, slot, regime, sector, cfg, d);
    if q.Some? && BuyAffordable(s, c, q.value) {
      var h, t := NewHolding(c, q.value, slot, EntryAtr(c, slot), sector, cfg), BuyTrade(c, q.value, slot.timestamp);
      PutNew(s.held, h);
      HeldValueAppend(s.held, [h], slot);
      FeesAppend(s.log, [t]);
      OneValue(h, slot);
      OneFee(t);
    }
  }

  lemma EventLosesFees(s: State, e: Event, cfg: EngineConfig, d: DriverConfig)
    requires AllSound(s.held) && Feasible(e)
    ensures var r := Apply(s, e, cfg, d);
            TotalValue(r, e.slot) == TotalValue(s, e.slot) - (Fees(r.log) - Fees(s.log))
  {
    hide AttemptBuy, ProcessSlot;
    match e {
      case SlotEvent(slot) => SlotLosesFees(s, slot, cfg);
      case BuyEvent(slot, c, regime, sector) => BuyLosesFee(s, c, slot, regime, sector, cfg, d);
    }
  }

  // ---------------------------------------------------------------------------
  // Whole runs
  // ---------------------------------------------------------------------------

  /** Mark-to-market change of what is held when prices move from one lookup to another. */
  function Drift(hs: seq<Holding>, before: Slot, after: Slot): real {
    if hs == [] then 0.0
    else
      var h := hs[|hs| - 1];
      Drift(hs[..|hs| - 1], before, after) + HoldingValue(h, after) - HoldingValue(h, before)
  }

  /** Shares times price moves. */
  function PriceMoves(hs: seq<Holding>, before: Slot, after: Slot): real {
    if hs == [] then 0.0
    else
      var h := hs[|hs| - 1];
      PriceMoves(hs[..|hs| - 1], before, after) + Worth(h.quantity, after.price(h.code) - before.price(h.code))
  }

  /** For holdings that have a row at both lookups, the drift is shares times price moves. */
  lemma {:induction false} DriftIsPriceMoves(hs: seq<Holding>, before: Slot, after: Slot)
    requires forall i :: 0 <= i < |hs| ==> before.RowOf(hs[i].code).Some? && after.RowOf(hs[i].code).Some?
    ensures Drift(hs, before, after) == PriceMoves(hs, before, after)
  {
    if hs != [] {
      var front := hs[..|hs| - 1];
      assert forall i :: 0 <= i < |front| ==> front[i] == hs[i];
      DriftIsPriceMoves(front, before, after);
    }
  }

  lemma {:induction false} DriftIsRevaluation(hs: seq<Holding>, before: Slot, after: Slot)
    ensures HeldValue(hs, after) == HeldValue(hs, before) + Drift(hs, before, after)
  {
    if hs != [] {
      DriftIsRevaluation(hs[..|hs| - 1], before, after);
    }
  }

  function LastSlot(es: seq<Event>, start: Slot): Slot {
    if es == [] then start else es[|es| - 1].slot
  }

  /** Mark-to-market gains along a run: the drift of the positions open at each change of prices. */
  ghost function Gains(s: State, es: seq<Event>, start: Slot, cfg: EngineConfig, d: DriverConfig): real
    requires AllSound(s.held) && AllFeasible(es)
  {
    if es == [] then 0.0
    else
      var front := es[..|es| - 1];
      Gains(s, front, start, cfg, d)
      + Drift(Run(s, front, cfg, d).held, LastSlot(front, start), es[|es| - 1].slot)
  }

  lemma {:induction false} EquityIdentity(s: State, es: seq<Event>, start: Slot, cfg: EngineConfig, d: DriverConfig)
    requires AllSound(s.held) && AllFeasible(es)
    ensures var r := Run(s, es, cfg, d);
            TotalValue(r, LastSlot(es, start))
            == TotalValue(s, start) + Gains(s, es, start, cfg, d) - (Fees(r.log) - Fees(s.log))
  {
    if es != [] {
      hide Apply;
      var front, e := es[..|es| - 1], es[|es| - 1];
      EquityIdentity(s, front, start, cfg, d);
      var mid := Run(s, front, cfg, d);
      DriftIsRevaluation(mid.held, LastSlot(front, start), e.slot);
      EventLosesFees(mid, e, cfg, d);
    }
  }

  /** Final equity is the initial capital plus mark-to-market gains minus every fee in the log. */
  lemma FinalEquity(initialCapital: real, es: seq<Event>, start: Slot, cfg: EngineConfig, d: DriverConfig)
    requires AllFeasible(es)
    ensures var r := Run(Start(initialCapital), es, cfg, d);
            TotalValue(r, LastSlot(es, start))
            == initialCapital + Gains(Start(initialCapital), es, start, cfg, d) - Fees(r.log)
  {
    EquityIdentity(Start(initialCapital), es, start, cfg, d);
  }

  // ---------------------------------------------------------------------------
  // The snapshot
  // ---------------------------------------------------------------------------

  /** The snapshot's exposures are the per-sector sums, and together they are everything held. */
  lemma {:induction false} ExposuresPartition(hs: seq<Holding>, slot: Slot)
    ensures forall sector :: GetOrZero(Exposures(hs, slot), sector) == SectorValue(hs, sector, slot)
    ensures SumValues(Exposures(hs, slot)) == HeldValue(hs, slot)
  {
    if hs != [] {
      var front, h := hs[..|hs| - 1], hs[|hs| - 1];
      ExposuresPartition(front, slot);
      var before := Exposures(front, slot);
      if slot.RowOf(h.code).Some? {
        UpdateSum(before, h.sector, GetOrZero(before, h.sector) + HoldingValue(h, slot));
      }
    }
  }

  lemma {:induction false} ValuedIsHeld(hs: seq<Holding>, slot: Slot, code: string)
    ensures code in HoldingValues(hs, slot) ==> Holds(hs, code)
  {
    if hs != [] {
      var front, h := hs[..|hs| - 1], hs[|hs| - 1];
      ValuedIsHeld(front, slot, code);
      if Holds(front, code) {
        var i :| 0 <= i < |front| && front[i].code == code;
        assert hs[i].code == code;
      }
      assert hs[|hs| - 1].code == h.code;
    }
  }

  /** The snapshot's holdings give each held code its value, and together they are everything held. */
  lemma {:induction false} HoldingsPartition(hs: seq<Holding>, slot: Slot)
    requires DistinctCodes(hs)
    ensures forall i :: 0 <= i < |hs| ==> GetOrZero(HoldingValues(hs, slot), hs[i].code) == HoldingValue(hs[i], slot)
    ensures forall code :: code in HoldingValues(hs, slot) ==> Holds(hs, code)
    ensures SumValues(HoldingValues(hs, slot)) == HeldValue(hs, slot)
  {
    forall code ensures code in HoldingValues(hs, slot) ==> Holds(hs, code) {
      ValuedIsHeld(hs, slot, code);
    }
    if hs != [] {
      var front, h := hs[..|hs| - 1], hs[|hs| - 1];
      HoldingsPartition(front, slot);
      var before := HoldingValues(front, slot);
      ValuedIsHeld(front, slot, h.code);
      assert forall i :: 0 <= i < |front| ==> hs[i] == front[i] && hs[i].code != h.code;
      hide Worth, Holds;
      if slot.RowOf(h.code).Some? {
        UpdateSum(before, h.code, HoldingValue(h, slot));
      }
    }
  }
}
