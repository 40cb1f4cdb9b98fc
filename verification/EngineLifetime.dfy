/** The life of one position: how it is sold in parts, how long it can last, and how its stop moves. */
module EngineLifetime {
  import opened Prelude
  import opened MarketData
  import opened EngineSpec
  import opened EngineLedger

  // ---------------------------------------------------------------------------
  // Partial sales
  // ---------------------------------------------------------------------------

  /** The sold ratios a position can reach. */
  predicate OnGrid(r: real) {
    r == 0.0 || r == 0.2 || r == 0.3 || r == 0.4 || r == 0.5 || r == 0.6 || r == 0.7 || r == 0.8 || r == 0.9
  }

  /** A tier that may fire at this sold ratio. */
  predicate LegalTier(soldRatio: real, increment: real) {
    || (increment == 0.2 && soldRatio < 0.8)
    || (increment == 0.5 && soldRatio < 0.5)
    || (increment == 0.3 && soldRatio < 0.3)
  }

  /** How many partial sales can still follow at a sold ratio. */
  function PartialsLeft(r: real): (n: nat)
    ensures n <= 4
  {
    if r < 0.2 then 4 else if r < 0.4 then 3 else if r < 0.6 then 2 else if r < 0.8 then 1 else 0
  }

  /** The part of a lot that its sold ratio leaves. */
  function Unsold(lot: int, soldRatio: real): real {
    lot as real * (1.0 - soldRatio)
  }

  /** A position whose lot and sold ratio are consistent with the tiers. */
  predicate Tidy(h: Holding) {
    && 1 <= h.quantity <= h.originalQuantity && h.avgPrice > 0.0
    && OnGrid(h.soldRatio)
    && (h.originalQuantity >= 5 ==> h.quantity as real >= Unsold(h.originalQuantity, h.soldRatio))
  }

  /** Every legal tier stays on the grid, uses up one of the remaining partial sales, and is never cut at 1. */
  lemma TierMovesOnGrid(r: real, increment: real)
    requires OnGrid(r) && LegalTier(r, increment)
    ensures OnGrid(r + increment) && r + increment <= 0.9 && Min(1.0, r + increment) == r + increment
    ensures PartialsLeft(r + increment) < PartialsLeft(r)
  {
  }

  /** The share of a lot of five or more is at least one and never more than its exact fraction. */
  lemma LotShareBounds(original: int, r: real, increment: real)
    requires original >= 5 && increment >= 0.2
    ensures 1 <= LotShare(original, r, r + increment)
    ensures LotShare(original, r, r + increment) as real <= original as real * increment
  {
    var x := original as real * (r + increment - r);
    assert x == original as real * increment;
    assert x >= 5.0 * increment >= 1.0;
  }

  /** A tier takes at least one share and at most what is left; of a lot of five or more, at most its fraction. */
  lemma TierTakes(h: Holding, increment: real)
    requires h.quantity >= 1 && LegalTier(h.soldRatio, increment) && h.soldRatio + increment <= 0.9
    ensures 1 <= TierQuantity(h, increment) <= h.quantity
    ensures h.originalQuantity >= 5 ==>
              TierQuantity(h, increment) as real <= Times(h.originalQuantity as real, increment)
  {
    if h.originalQuantity >= 5 {
      LotShareBounds(h.originalQuantity, h.soldRatio, increment);
      hide LotShare;
    }
  }

  /** Partial sales keep a position tidy; a lot of five or more is never emptied by them. */
  lemma PartialKeepsTidy(h: Holding, increment: real)
    requires Tidy(h) && LegalTier(h.soldRatio, increment)
    ensures var left := AfterPartial(h, increment);
            && left.soldRatio == h.soldRatio + increment
            && 0 <= left.quantity < h.quantity
            && (left.quantity >= 1 ==> Tidy(left))
            && (h.originalQuantity >= 5 ==> left.quantity >= 1)
  {
    hide TierQuantity, OnGrid, Unsold, Times;
    TierMovesOnGrid(h.soldRatio, increment);
    TierTakes(h, increment);
    if h.originalQuantity >= 5 {
      UnsoldShare(h.quantity, TierQuantity(h, increment), h.originalQuantity, h.soldRatio, increment);
    }
  }

  lemma UnsoldParts(lot: int, r: real)
    ensures Unsold(lot, r) == lot as real - Times(lot as real, r)
  {
  }

  lemma NonNegativeTimes(a: real, b: real)
    requires a >= 0.0 && b >= 0.0
    ensures Times(a, b) >= 0.0
  {
  }

  /** Taking off at most a fraction of the lot leaves the rest of the lot, which is positive below a sold ratio of 1. */
  lemma UnsoldShare(quantity: int, sold: int, lot: int, r: real, increment: real)
    requires lot >= 1 && r + increment <= 0.9
    requires quantity as real >= Unsold(lot, r) && sold as real <= Times(lot as real, increment)
    ensures (quantity - sold) as real >= Unsold(lot, r + increment) > 0.0
  {
    var n := lot as real;
    UnsoldParts(lot, r);
    UnsoldParts(lot, r + increment);
    assert Times(n, r + increment) == Times(n, r) + Times(n, increment);
    NonNegativeTimes(n, 0.9 - (r + increment));
    assert Times(n, 0.9 - (r + increment)) == 0.9 * n - Times(n, r + increment);
    hide Unsold, Times;
  }

  /** The tail of the promise: at least a tenth of the original lot is left. */
  lemma TenthIsLeft(h: Holding)
    requires Tidy(h) && h.originalQuantity >= 5
    ensures h.quantity as real >= h.originalQuantity as real * (1.0 - h.soldRatio)
                               >= h.originalQuantity as real / 10.0
  {
    assert h.soldRatio <= 0.9;
    assert h.originalQuantity as real * (1.0 - h.soldRatio) >= h.originalQuantity as real * 0.1;
  }

  predicate LegalTiers(r: real, increments: seq<real>)
    decreases |increments|
  {
    increments == []
    || (LegalTier(r, increments[0]) && LegalTiers(r + increments[0], increments[1..]))
  }

  /** Shares left of a lot after a list of tiers, stopping when nothing is left. */
  function AfterTiers(h: Holding, increments: seq<real>): int
    decreases |increments|
  {
    if increments == [] || h.quantity <= 0 then h.quantity
    else AfterTiers(AfterPartial(h, increments[0]), increments[1..])
  }

  lemma {:induction false} LargeLotSurvives(h: Holding, increments: seq<real>)
    requires Tidy(h) && h.originalQuantity >= 5 && LegalTiers(h.soldRatio, increments)
    ensures AfterTiers(h, increments) >= 1
    decreases |increments|
  {
    if increments != [] {
      PartialKeepsTidy(h, increments[0]);
      LargeLotSurvives(AfterPartial(h, increments[0]), increments[1..]);
    }
  }

  /** Partial sales alone can empty a freshly bought lot exactly when it has at most four shares. */
  lemma EmptiedByPartialsIff(h: Holding)
    requires Tidy(h) && h.soldRatio == 0.0 && h.quantity == h.originalQuantity
    ensures (exists increments :: LegalTiers(0.0, increments) && AfterTiers(h, increments) == 0)
            <==> h.originalQuantity <= 4
  {
    if h.originalQuantity >= 5 {
      forall increments | LegalTiers(0.0, increments) ensures AfterTiers(h, increments) != 0 {
        LargeLotSurvives(h, increments);
      }
    } else {
      SmallLotEmptied(h, h.quantity);
      TwentiesAreLegal(0.0, h.quantity);
    }
  }

  function Twenties(n: nat): seq<real> {
    if n == 0 then [] else [0.2] + Twenties(n - 1)
  }

  lemma {:induction false} TwentiesAreLegal(r: real, n: nat)
    requires r + 0.2 * n as real <= 0.8
    ensures LegalTiers(r, Twenties(n))
    decreases n
  {
    if n > 0 {
      TwentiesAreLegal(r + 0.2, n - 1);
      assert Twenties(n)[1..] == Twenties(n - 1);
    }
  }

  lemma {:induction false} SmallLotEmptied(h: Holding, n: nat)
    requires h.quantity == n && 1 <= h.originalQuantity <= 4
    requires h.soldRatio == 0.2 * (h.originalQuantity - n) as real && n <= h.originalQuantity
    ensures AfterTiers(h, Twenties(n)) == 0
    decreases n
  {
    if n > 0 {
      var left := AfterPartial(h, 0.2);
      assert 0.0 <= h.originalQuantity as real * (Min(1.0, h.soldRatio + 0.2) - h.soldRatio) < 1.0;
      assert left.quantity == n - 1;
      SmallLotEmptied(left, n - 1);
      assert Twenties(n)[1..] == Twenties(n - 1);
    }
  }

  // ---------------------------------------------------------------------------
  // One slot
  // ---------------------------------------------------------------------------

  /** The decision of a slot for a holding whose row is found. */
  function DecisionFor(h: Holding, slot: Slot, cfg: EngineConfig): Decision
    requires Sound(h) && slot.RowOf(h.code).Some?
  {
    var row, price := slot.RowOf(h.code).value, slot.price(h.code);
    Decide(Mark(h, price, row, cfg), price, row, slot, cfg)
  }

  /** One slot on one tidy holding: it stays tidy; a sale that leaves it open is a partial sale and uses one up. */
  lemma StepKeepsTidy(h: Holding, slot: Slot, cfg: EngineConfig)
    requires Tidy(h)
    ensures var o := StepHolding(h, slot, cfg);
            && |o.sales| <= 1
            && (o.next != [] ==>
                  && Tidy(o.next[0])
                  && o.next[0].originalQuantity == h.originalQuantity && o.next[0].entryDate == h.entryDate
                  && PartialsLeft(o.next[0].soldRatio) + |o.sales| <= PartialsLeft(h.soldRatio))
  {
    if slot.RowOf(h.code).Some? {
      var row, price := slot.RowOf(h.code).value, slot.price(h.code);
      var m := Mark(h, price, row, cfg);
      var d := Decide(m, price, row, slot, cfg);
      if d.Partial? {
        assert LegalTier(m.soldRatio, d.increment);
        PartialKeepsTidy(m, d.increment);
        TierMovesOnGrid(m.soldRatio, d.increment);
      }
    }
  }

  /** A holding that has reached its age limit is closed or partially sold by every slot that finds its row. */
  lemma OverdueActs(h: Holding, slot: Slot, cfg: EngineConfig)
    requires Tidy(h) && slot.RowOf(h.code).Some?
    requires AgeInDays(h, slot.timestamp) >= cfg.maxHoldDays
    ensures var o := StepHolding(h, slot, cfg);
            |o.sales| == 1 && (o.next != [] ==> PartialsLeft(o.next[0].soldRatio) < PartialsLeft(h.soldRatio))
  {
    StepKeepsTidy(h, slot, cfg);
    assert !DecisionFor(h, slot, cfg).Keep?;
  }

  // ---------------------------------------------------------------------------
  // Following one code through a run
  // ---------------------------------------------------------------------------

  function HoldingOf(hs: seq<Holding>, code: string): (r: Option<Holding>)
    ensures r.Some? ==> r.value.code == code && r.value in hs
  {
    if hs == [] then None
    else if hs[|hs| - 1].code == code then Some(hs[|hs| - 1])
    else HoldingOf(hs[..|hs| - 1], code)
  }

  lemma {:induction false} HoldingOfHolds(hs: seq<Holding>, code: string)
    ensures HoldingOf(hs, code).Some? <==> Holds(hs, code)
  {
    if hs != [] {
      var front := hs[..|hs| - 1];
      HoldingOfHolds(front, code);
      if Holds(front, code) {
        var i :| 0 <= i < |front| && front[i].code == code;
        assert hs[i].code == code;
      }
      if Holds(hs, code) && hs[|hs| - 1].code != code {
        var i :| 0 <= i < |hs| && hs[i].code == code;
        assert front[i].code == code;
      }
    }
  }

  lemma {:induction false} HoldingOfAppend(a: seq<Holding>, b: seq<Holding>, code: string)
    ensures HoldingOf(a + b, code) == if HoldingOf(b, code).Some? then HoldingOf(b, code) else HoldingOf(a, code)
  {
    if b == [] {
      assert a + b == a;
    } else {
      HoldingOfAppend(a, b[..|b| - 1], code);
      assert (a + b)[..|a + b| - 1] == a + b[..|b| - 1];
    }
  }

  /** A slot treats each code on its own. */
  lemma {:induction false} SlotIsLocal(hs: seq<Holding>, slot: Slot, cfg: EngineConfig, code: string)
    requires AllSound(hs) && DistinctCodes(hs)
    ensures var before := HoldingOf(hs, code);
            HoldingOf(Survivors(hs, slot, cfg), code)
            == if before.None? then None
               else if StepHolding(before.value, slot, cfg).next == [] then None
               else Some(StepHolding(before.value, slot, cfg).next[0])
    ensures NetQuantity(Sales(hs, slot, cfg), code)
            == if HoldingOf(hs, code).None? then 0
               else NetQuantity(StepHolding(HoldingOf(hs, code).value, slot, cfg).sales, code)
  {
    hide StepHolding;
    if hs != [] {
      var front, h := hs[..|hs| - 1], hs[|hs| - 1];
      var o := StepHolding(h, slot, cfg);
      SlotIsLocal(front, slot, cfg, code);
      HoldingOfAppend(Survivors(front, slot, cfg), o.next, code);
      NetAppend(Sales(front, slot, cfg), o.sales, code);
      if o.next != [] {
        assert o.next == [o.next[0]];
        assert o.next[..0] == [];
      }
      SalesOfOthers(h, slot, cfg, code);
      if h.code == code {
        HoldingOfHolds(front, code);
        assert HoldingOf(front, code).None?;
      }
    }
  }

  lemma SalesOfOthers(h: Holding, slot: Slot, cfg: EngineConfig, code: string)
    requires Sound(h)
    ensures h.code != code ==> NetQuantity(StepHolding(h, slot, cfg).sales, code) == 0
  {
    var sales := StepHolding(h, slot, cfg).sales;
    if sales != [] {
      assert sales == [sales[0]];
      NetOne(sales[0], code);
    }
  }

  /** While a code is held, buy attempts do not touch it. */
  lemma BuyIsLocal(s: State, c: Candidate, slot: Slot, regime: Regime, sector: string, cfg: EngineConfig,
                   d: DriverConfig, code: string)
    requires c.price > 0.0 && Holds(s.held, code)
    ensures HoldingOf(AttemptBuy(s, c, slot, regime, sector, cfg, d).held, code) == HoldingOf(s.held, code)
  {
    hide CappedQuantity;
    var q := AdmittedQuantity(s, c, slot, regime, sector, cfg, d);
    if q.Some? && BuyAffordable(s, c, q.value) {
      var h := NewHolding(c, q.value, slot, EntryAtr(c, slot), sector, cfg);
      PutNew(s.held, h);
      HoldingOfAppend(s.held, [h], code);
      assert [h][..0] == [];
    }
  }

  /** What one event does to a held code. */
  function Follow(h: Holding, e: Event, cfg: EngineConfig): Option<Holding>
    requires Sound(h)
  {
    if e.BuyEvent? then Some(h)
    else
      var o := StepHolding(h, e.slot, cfg);
      if o.next == [] then None else Some(o.next[0])
  }

  lemma EventIsLocal(s: State, e: Event, cfg: EngineConfig, d: DriverConfig, code: string)
    requires AllSound(s.held) && DistinctCodes(s.held) && Feasible(e) && HoldingOf(s.held, code).Some?
    ensures HoldingOf(Apply(s, e, cfg, d).held, code) == Follow(HoldingOf(s.held, code).value, e, cfg)
  {
    hide AttemptBuy, StepHolding;
    match e {
      case SlotEvent(slot) => SlotIsLocal(s.held, slot, cfg, code);
      case BuyEvent(slot, c, regime, sector) =>
        HoldingOfHolds(s.held, code);
        BuyIsLocal(s, c, slot, regime, sector, cfg, d, code);
    }
  }

  /** The code stays open after every event of the run. */
  ghost predicate HeldThroughout(s: State, es: seq<Event>, code: string, cfg: EngineConfig, d: DriverConfig)
    requires AllSound(s.held) && AllFeasible(es)
    decreases |es|
  {
    Holds(Run(s, es, cfg, d).held, code)
    && (es == [] || HeldThroughout(s, es[..|es| - 1], code, cfg, d))
  }

  /** Slots of a run that find a price row of the code. */
  function SlotsSeeing(es: seq<Event>, code: string): nat {
    if es == [] then 0
    else
      var e := es[|es| - 1];
      SlotsSeeing(es[..|es| - 1], code) + if e.SlotEvent? && e.slot.RowOf(code).Some? then 1 else 0
  }

  /** The clock of every slot is past the holding's age limit. */
  predicate AllOverdue(h: Holding, es: seq<Event>, cfg: EngineConfig) {
    forall i :: 0 <= i < |es| && es[i].SlotEvent? ==> AgeInDays(h, es[i].slot.timestamp) >= cfg.maxHoldDays
  }

  ghost predicate AllTidy(hs: seq<Holding>) {
    forall i :: 0 <= i < |hs| ==> Tidy(hs[i])
  }

  /** Every position of every reachable state is tidy. */
  lemma {:induction false} TidyOverRun(initialCapital: real, es: seq<Event>, cfg: EngineConfig, d: DriverConfig)
    requires AllFeasible(es)
    ensures AllTidy(Run(Start(initialCapital), es, cfg, d).held)
  {
    if es != [] {
      hide Apply;
      var s := Run(Start(initialCapital), es[..|es| - 1], cfg, d);
      TidyOverRun(initialCapital, es[..|es| - 1], cfg, d);
      EventKeepsTidy(s, es[|es| - 1], cfg, d);
    }
  }

  lemma EventKeepsTidy(s: State, e: Event, cfg: EngineConfig, d: DriverConfig)
    requires AllSound(s.held) && AllTidy(s.held) && Feasible(e)
    ensures AllTidy(Apply(s, e, cfg, d).held)
  {
    hide StepHolding, CappedQuantity, Tidy;
    match e {
      case SlotEvent(slot) => SurvivorsTidy(s.held, slot, cfg);
      case BuyEvent(slot, c, regime, sector) =>
        var q := AdmittedQuantity(s, c, slot, regime, sector, cfg, d);
        if q.Some? && BuyAffordable(s, c, q.value) {
          var h := NewHolding(c, q.value, slot, EntryAtr(c, slot), sector, cfg);
          PutNew(s.held, h);
          NewIsTidy(h);
        }
    }
  }

  lemma NewIsTidy(h: Holding)
    requires h.quantity == h.originalQuantity >= 1 && h.soldRatio == 0.0 && h.avgPrice > 0.0
    ensures Tidy(h)
  {
  }

  lemma {:induction false} SurvivorsTidy(hs: seq<Holding>, slot: Slot, cfg: EngineConfig)
    requires AllSound(hs) && AllTidy(hs)
    ensures AllTidy(Survivors(hs, slot, cfg))
  {
    if hs != [] {
      hide StepHolding, Tidy;
      var front, h := hs[..|hs| - 1], hs[|hs| - 1];
      SurvivorsTidy(front, slot, cfg);
      StepKeepsTidy(h, slot, cfg);
    }
  }

  /** A reachable lot of five or more always keeps at least its unsold share, a tenth or more of the original. */
  lemma LotFloorOverRun(initialCapital: real, es: seq<Event>, cfg: EngineConfig, d: DriverConfig)
    requires AllFeasible(es)
    ensures forall h <- Run(Start(initialCapital), es, cfg, d).held :: h.originalQuantity >= 5 ==>
              h.quantity as real >= h.originalQuantity as real * (1.0 - h.soldRatio)
                                 >= h.originalQuantity as real / 10.0
  {
    TidyOverRun(initialCapital, es, cfg, d);
    forall h <- Run(Start(initialCapital), es, cfg, d).held | h.originalQuantity >= 5
      ensures h.quantity as real >= h.originalQuantity as real * (1.0 - h.soldRatio)
                                 >= h.originalQuantity as real / 10.0
    {
      TenthIsLeft(h);
    }
  }

  /** While a code stays open past its age limit, each slot that sees it uses up one of its partial sales. */
  lemma {:induction false} OverdueUsesUpPartials(s: State, es: seq<Event>, code: string, initialCapital: real,
                                                 cfg: EngineConfig, d: DriverConfig)
    requires Ledger(s, initialCapital, cfg) && AllTidy(s.held) && AllFeasible(es)
    requires HeldThroughout(s, es, code, cfg, d)
    requires HoldingOf(s.held, code).Some? && AllOverdue(HoldingOf(s.held, code).value, es, cfg)
    ensures var r := Run(s, es, cfg, d);
            && Ledger(r, initialCapital, cfg) && AllTidy(r.held) && HoldingOf(r.held, code).Some?
            && var h, h' := HoldingOf(s.held, code).value, HoldingOf(r.held, code).value;
               && h'.entryDate == h.entryDate
               && SlotsSeeing(es, code) + PartialsLeft(h'.soldRatio) <= PartialsLeft(h.soldRatio)
  {
    if es != [] {
      hide Apply, StepHolding, Tidy, AgeInDays;
      var front, e := es[..|es| - 1], es[|es| - 1];
      OverdueUsesUpPartials(s, front, code, initialCapital, cfg, d);
      var mid := Run(s, front, cfg, d);
      var m := HoldingOf(mid.held, code).value;
      EventIsLocal(mid, e, cfg, d, code);
      StepKeepsLedger(mid, e, initialCapital, cfg, d);
      EventKeepsTidy(mid, e, cfg, d);
      HoldingOfHolds(Run(s, es, cfg, d).held, code);
      FollowUsesUp(HoldingOf(s.held, code).value, m, e, cfg);
    }
  }

  lemma FollowUsesUp(h0: Holding, h: Holding, e: Event, cfg: EngineConfig)
    requires Tidy(h) && h.entryDate == h0.entryDate
    requires e.SlotEvent? ==> AgeInDays(h0, e.slot.timestamp) >= cfg.maxHoldDays
    ensures Follow(h, e, cfg).Some? ==>
              var h' := Follow(h, e, cfg).value;
              && h'.entryDate == h.entryDate
              && PartialsLeft(h'.soldRatio) + (if e.SlotEvent? && e.slot.RowOf(h.code).Some? then 1 else 0)
                 <= PartialsLeft(h.soldRatio)
  {
    if e.SlotEvent? {
      StepKeepsTidy(h, e.slot, cfg);
      if e.slot.RowOf(h.code).Some? {
        OverdueActs(h, e.slot, cfg);
      }
    }
  }

  /** A position past its age limit is gone after at most five slots that see it: at most four leave it open. */
  lemma BoundedLifetime(initialCapital: real, past: seq<Event>, es: seq<Event>, code: string,
                        cfg: EngineConfig, d: DriverConfig)
    requires initialCapital >= 0.0 && AllFeasible(past) && AllFeasible(es)
    requires var s := Run(Start(initialCapital), past, cfg, d);
             && HoldingOf(s.held, code).Some? && AllOverdue(HoldingOf(s.held, code).value, es, cfg)
             && SlotsSeeing(es, code) > PartialsLeft(HoldingOf(s.held, code).value.soldRatio)
    ensures !HeldThroughout(Run(Start(initialCapital), past, cfg, d), es, code, cfg, d)
  {
    var s := Run(Start(initialCapital), past, cfg, d);
    LedgerOverRun(initialCapital, past, cfg, d);
    TidyOverRun(initialCapital, past, cfg, d);
    if HeldThroughout(s, es, code, cfg, d) {
      OverdueUsesUpPartials(s, es, code, initialCapital, cfg, d);
    }
  }

  /** Slots come in the order of their clock. */
  predicate InClockOrder(es: seq<Event>) {
    forall i, j :: 0 <= i < j < |es| ==> es[i].slot.timestamp <= es[j].slot.timestamp
  }

  /** Age only grows: once the first event of an ordered run is past the limit, all are. */
  lemma OverduePersists(h: Holding, es: seq<Event>, cfg: EngineConfig)
    requires InClockOrder(es)
    requires es != [] ==> AgeInDays(h, es[0].slot.timestamp) >= cfg.maxHoldDays
    ensures AllOverdue(h, es, cfg)
  {
    forall i | 0 <= i < |es| && es[i].SlotEvent?
      ensures AgeInDays(h, es[i].slot.timestamp) >= cfg.maxHoldDays
    {
      assert es[0].slot.timestamp <= es[i].slot.timestamp;
    }
  }

  // ---------------------------------------------------------------------------
  // At most four partial sales per position
  // ---------------------------------------------------------------------------

  predicate IsRsiSale(t: Trade) {
    t.reason == "RSI_TAKE_PROFIT_80" || t.reason == "RSI_TAKE_PROFIT_75" || t.reason == "RSI_TAKE_PROFIT_70"
  }

  /** A sale of the code; with `rsiOnly`, one by an RSI tier. */
  predicate Counts(t: Trade, code: string, rsiOnly: bool) {
    t.side.Sell? && t.code == code && (rsiOnly ==> IsRsiSale(t))
  }

  function SellsOf(log: seq<Trade>, code: string, rsiOnly: bool): nat {
    if log == [] then 0
    else SellsOf(log[..|log| - 1], code, rsiOnly) + if Counts(log[|log| - 1], code, rsiOnly) then 1 else 0
  }

  lemma {:induction false} SellsAppend(a: seq<Trade>, b: seq<Trade>, code: string, rsiOnly: bool)
    ensures SellsOf(a + b, code, rsiOnly) == SellsOf(a, code, rsiOnly) + SellsOf(b, code, rsiOnly)
  {
    if b == [] {
      assert a + b == a;
    } else {
      SellsAppend(a, b[..|b| - 1], code, rsiOnly);
      assert (a + b)[..|a + b| - 1] == a + b[..|b| - 1];
    }
  }

  lemma OneSale(t: Trade, code: string, rsiOnly: bool)
    ensures SellsOf([t], code, rsiOnly) == if Counts(t, code, rsiOnly) then 1 else 0
  {
    assert [t][..0] == [];
  }

  /** One slot's sale of one holding counts for its own code only. */
  lemma StepSells(h: Holding, slot: Slot, cfg: EngineConfig, code: string, rsiOnly: bool)
    requires Sound(h)
    ensures SellsOf(StepHolding(h, slot, cfg).sales, code, rsiOnly) <= |StepHolding(h, slot, cfg).sales| <= 1
    ensures h.code != code ==> SellsOf(StepHolding(h, slot, cfg).sales, code, rsiOnly) == 0
  {
    var sales := StepHolding(h, slot, cfg).sales;
    if sales != [] {
      assert sales == [sales[0]];
      OneSale(sales[0], code, rsiOnly);
    }
  }

  lemma {:induction false} SalesAreLocal(hs: seq<Holding>, slot: Slot, cfg: EngineConfig, code: string, rsiOnly: bool)
    requires AllSound(hs) && DistinctCodes(hs)
    ensures SellsOf(Sales(hs, slot, cfg), code, rsiOnly)
            == if HoldingOf(hs, code).None? then 0
               else SellsOf(StepHolding(HoldingOf(hs, code).value, slot, cfg).sales, code, rsiOnly)
  {
    if hs != [] {
      hide StepHolding, Counts;
      var front, h := hs[..|hs| - 1], hs[|hs| - 1];
      SalesAreLocal(front, slot, cfg, code, rsiOnly);
      SellsAppend(Sales(front, slot, cfg), StepHolding(h, slot, cfg).sales, code, rsiOnly);
      StepSells(h, slot, cfg, code, rsiOnly);
      HoldingOfHolds(front, code);
    }
  }

  /** What one event adds to the sells of a held code. */
  lemma EventSells(s: State, e: Event, cfg: EngineConfig, d: DriverConfig, code: string, rsiOnly: bool)
    requires AllSound(s.held) && DistinctCodes(s.held) && Feasible(e) && HoldingOf(s.held, code).Some?
    ensures SellsOf(Apply(s, e, cfg, d).log, code, rsiOnly)
            == SellsOf(s.log, code, rsiOnly)
               + if e.SlotEvent?
                 then SellsOf(StepHolding(HoldingOf(s.held, code).value, e.slot, cfg).sales, code, rsiOnly) else 0
  {
    hide StepHolding, CappedQuantity;
    match e {
      case SlotEvent(slot) =>
        SalesAreLocal(s.held, slot, cfg, code, rsiOnly);
        SellsAppend(s.log, Sales(s.held, slot, cfg), code, rsiOnly);
      case BuyEvent(slot, c, regime, sector) =>
        var q := AdmittedQuantity(s, c, slot, regime, sector, cfg, d);
        if q.Some? && BuyAffordable(s, c, q.value) {
          SellsAppend(s.log, [BuyTrade(c, q.value, slot.timestamp)], code, rsiOnly);
          OneSale(BuyTrade(c, q.value, slot.timestamp), code, rsiOnly);
        }
    }
  }

  /** As long as a position stays open, its sells are partial sales, and there are at most four of them. */
  lemma {:induction false} AtMostFourPartials(s: State, es: seq<Event>, code: string, rsiOnly: bool,
                                              initialCapital: real, cfg: EngineConfig, d: DriverConfig)
    requires Ledger(s, initialCapital, cfg) && AllTidy(s.held) && AllFeasible(es)
    requires HeldThroughout(s, es, code, cfg, d) && HoldingOf(s.held, code).Some?
    ensures var r := Run(s, es, cfg, d);
            && Ledger(r, initialCapital, cfg) && AllTidy(r.held) && HoldingOf(r.held, code).Some?
            && SellsOf(r.log, code, rsiOnly) - SellsOf(s.log, code, rsiOnly)
               + PartialsLeft(HoldingOf(r.held, code).value.soldRatio)
               <= PartialsLeft(HoldingOf(s.held, code).value.soldRatio) <= 4
  {
    if es != [] {
      hide Apply, StepHolding, Tidy, Counts;
      var front, e := es[..|es| - 1], es[|es| - 1];
      AtMostFourPartials(s, front, code, rsiOnly, initialCapital, cfg, d);
      var mid := Run(s, front, cfg, d);
      var m := HoldingOf(mid.held, code).value;
      EventIsLocal(mid, e, cfg, d, code);
      EventSells(mid, e, cfg, d, code, rsiOnly);
      StepKeepsLedger(mid, e, initialCapital, cfg, d);
      EventKeepsTidy(mid, e, cfg, d);
      HoldingOfHolds(Run(s, es, cfg, d).held, code);
      StepKeepsTidy(m, e.slot, cfg);
      StepSells(m, e.slot, cfg, code, rsiOnly);
    }
  }

  /** An RSI tier sells only when a partial sale is left. */
  lemma RsiSaleNeedsRoom(h: Holding, slot: Slot, cfg: EngineConfig, code: string)
    requires Tidy(h)
    ensures SellsOf(StepHolding(h, slot, cfg).sales, code, true) <= PartialsLeft(h.soldRatio)
  {
    StepSells(h, slot, cfg, code, true);
    var sales := StepHolding(h, slot, cfg).sales;
    if sales != [] {
      assert sales == [sales[0]];
      OneSale(sales[0], code, true);
    }
  }

  /** Over the whole life of a position, from any state in which it is held to the event that closes it and including
   *  that event, the RSI tiers sell at most four times. */
  lemma AtMostFourOverLife(s: State, es: seq<Event>, last: Event, code: string, initialCapital: real,
                           cfg: EngineConfig, d: DriverConfig)
    requires Ledger(s, initialCapital, cfg) && AllTidy(s.held) && AllFeasible(es) && Feasible(last)
    requires HeldThroughout(s, es, code, cfg, d) && HoldingOf(s.held, code).Some?
    ensures var end := Apply(Run(s, es, cfg, d), last, cfg, d);
            SellsOf(end.log, code, true) - SellsOf(s.log, code, true)
            <= PartialsLeft(HoldingOf(s.held, code).value.soldRatio) <= 4
  {
    hide Apply, StepHolding, Tidy, Counts;
    AtMostFourPartials(s, es, code, true, initialCapital, cfg, d);
    var r := Run(s, es, cfg, d);
    EventSells(r, last, cfg, d, code, true);
    if last.SlotEvent? {
      RsiSaleNeedsRoom(HoldingOf(r.held, code).value, last.slot, cfg, code);
    }
  }

  // ---------------------------------------------------------------------------
  // The stop ratchet
  // ---------------------------------------------------------------------------

  predicate IsMaxOf(x: real, xs: seq<real>) {
    x in xs && forall i :: 0 <= i < |xs| ==> xs[i] <= x
  }

  /** Prices of a code at the slots that see it. */
  function PricesSeen(es: seq<Event>, code: string): seq<real> {
    if es == [] then []
    else
      var e := es[|es| - 1];
      PricesSeen(es[..|es| - 1], code)
      + if e.SlotEvent? && e.slot.RowOf(code).Some? then [e.slot.price(code)] else []
  }

  /** Trailing levels offered by those slots; a missing ATR falls back to the entry ATR. */
  function TrailsSeen(es: seq<Event>, code: string, entryAtr: real, cfg: EngineConfig): seq<real> {
    if es == [] then []
    else
      var e := es[|es| - 1];
      TrailsSeen(es[..|es| - 1], code, entryAtr, cfg)
      + if e.SlotEvent? && e.slot.RowOf(code).Some?
        then [TrailingStop(e.slot.price(code), e.slot.RowOf(code).value, entryAtr, cfg)] else []
  }

  lemma MaxGrows(x: real, xs: seq<real>, y: real)
    requires IsMaxOf(x, xs)
    ensures IsMaxOf(Max(x, y), xs + [y])
  {
    assert (xs + [y])[|xs|] == y;
    if x > y {
      var i :| 0 <= i < |xs| && xs[i] == x;
      assert (xs + [y])[i] == x;
    }
  }

  /** One slot moves the stop and the high to the maximum of what they were and what it offers. */
  lemma FollowRatchets(h: Holding, e: Event, cfg: EngineConfig)
    requires Sound(h) && e.SlotEvent? && Follow(h, e, cfg).Some?
    ensures var h' := Follow(h, e, cfg).value;
            && h'.atr == h.atr && h'.avgPrice == h.avgPrice
            && h'.stopLossPrice
               == (if e.slot.RowOf(h.code).None? then h.stopLossPrice
                   else Max(h.stopLossPrice,
                            TrailingStop(e.slot.price(h.code), e.slot.RowOf(h.code).value, h.atr, cfg)))
            && h'.highPrice
               == (if e.slot.RowOf(h.code).None? then h.highPrice else Max(h.highPrice, e.slot.price(h.code)))
  {
  }

  lemma RatchetStep(stop: real, high: real, m: Holding, es: seq<Event>, cfg: EngineConfig)
    requires Sound(m) && es != [] && Follow(m, es[|es| - 1], cfg).Some?
    requires IsMaxOf(m.stopLossPrice, [stop] + TrailsSeen(es[..|es| - 1], m.code, m.atr, cfg))
    requires IsMaxOf(m.highPrice, [high] + PricesSeen(es[..|es| - 1], m.code))
    ensures var h' := Follow(m, es[|es| - 1], cfg).value;
            && h'.atr == m.atr
            && IsMaxOf(h'.stopLossPrice, [stop] + TrailsSeen(es, m.code, m.atr, cfg))
            && IsMaxOf(h'.highPrice, [high] + PricesSeen(es, m.code))
  {
    hide IsMaxOf, StepHolding, TrailingStop;
    var e := es[|es| - 1];
    var trails, prices := TrailsSeen(es[..|es| - 1], m.code, m.atr, cfg), PricesSeen(es[..|es| - 1], m.code);
    if e.SlotEvent? {
      FollowRatchets(m, e, cfg);
    }
    if e.SlotEvent? && e.slot.RowOf(m.code).Some? {
      var price := e.slot.price(m.code);
      var trail := TrailingStop(price, e.slot.RowOf(m.code).value, m.atr, cfg);
      MaxGrows(m.stopLossPrice, [stop] + trails, trail);
      MaxGrows(m.highPrice, [high] + prices, price);
      assert [stop] + trails + [trail] == [stop] + (trails + [trail]);
      assert [high] + prices + [price] == [high] + (prices + [price]);
    } else {
      assert trails + [] == trails && prices + [] == prices;
    }
  }

  /** While a position is held, its stop is the highest of its first stop and every trailing level seen,
   *  and its high is the highest of its first high and every price seen. */
  lemma {:induction false} StopIsRunningMaximum(s: State, es: seq<Event>, code: string, initialCapital: real,
                                                cfg: EngineConfig, d: DriverConfig)
    requires Ledger(s, initialCapital, cfg) && AllFeasible(es)
    requires HeldThroughout(s, es, code, cfg, d) && HoldingOf(s.held, code).Some?
    ensures var r := Run(s, es, cfg, d);
            && Ledger(r, initialCapital, cfg) && HoldingOf(r.held, code).Some?
            && var h, h' := HoldingOf(s.held, code).value, HoldingOf(r.held, code).value;
               && h'.atr == h.atr
               && IsMaxOf(h'.stopLossPrice, [h.stopLossPrice] + TrailsSeen(es, code, h.atr, cfg))
               && IsMaxOf(h'.highPrice, [h.highPrice] + PricesSeen(es, code))
  {
    var h := HoldingOf(s.held, code).value;
    if es == [] {
      assert [h.stopLossPrice] + [] == [h.stopLossPrice] && [h.highPrice] + [] == [h.highPrice];
    } else {
      hide Apply, StepHolding, IsMaxOf, Follow, Ledger;
      var front, e := es[..|es| - 1], es[|es| - 1];
      StopIsRunningMaximum(s, front, code, initialCapital, cfg, d);
      var mid := Run(s, front, cfg, d);
      LedgerParts(mid, initialCapital, cfg);
      EventIsLocal(mid, e, cfg, d, code);
      StepKeepsLedger(mid, e, initialCapital, cfg, d);
      HoldingOfHolds(Run(s, es, cfg, d).held, code);
      RatchetStep(h.stopLossPrice, h.highPrice, HoldingOf(mid.held, code).value, es, cfg);
    }
  }

  lemma LedgerParts(s: State, initialCapital: real, cfg: EngineConfig)
    requires Ledger(s, initialCapital, cfg)
    ensures AllSound(s.held) && DistinctCodes(s.held)
  {
  }

  predicate StopBelowHigh(h: Holding) {
    h.stopLossPrice <= h.highPrice
  }

  /** A slot never lowers the stop, and what it leaves open keeps its stop at or below its high: a trailing level above
   *  the price, as a negative ATR would give, closes the position. */
  lemma StepKeepsStopBelowHigh(h: Holding, slot: Slot, cfg: EngineConfig)
    requires Sound(h) && StopBelowHigh(h)
    ensures var o := StepHolding(h, slot, cfg);
            o.next != [] ==> StopBelowHigh(o.next[0]) && h.stopLossPrice <= o.next[0].stopLossPrice
  {
    if slot.RowOf(h.code).Some? {
      var m := Mark(h, slot.price(h.code), slot.RowOf(h.code).value, cfg);
      assert m.highPrice >= slot.price(h.code) && m.stopLossPrice >= h.stopLossPrice;
      hide Mark;
    }
  }

  lemma EntryStopBelowHigh(c: Candidate, quantity: int, slot: Slot, atr: real, sector: string, cfg: EngineConfig)
    requires c.price > 0.0
    ensures StopBelowHigh(NewHolding(c, quantity, slot, atr, sector, cfg))
  {
    assert c.price * Abs(StopLossOf(slot.risk, cfg)) >= 0.0;
  }

  predicate AllStopsBelowHigh(hs: seq<Holding>) {
    forall i :: 0 <= i < |hs| ==> StopBelowHigh(hs[i])
  }

  lemma {:induction false} SurvivorsStops(hs: seq<Holding>, slot: Slot, cfg: EngineConfig)
    requires AllSound(hs) && AllStopsBelowHigh(hs)
    ensures AllStopsBelowHigh(Survivors(hs, slot, cfg))
  {
    if hs != [] {
      hide StepHolding, StopBelowHigh;
      var front, h := hs[..|hs| - 1], hs[|hs| - 1];
      SurvivorsStops(front, slot, cfg);
      StepKeepsStopBelowHigh(h, slot, cfg);
    }
  }

  lemma EventKeepsStops(s: State, e: Event, cfg: EngineConfig, d: DriverConfig)
    requires AllSound(s.held) && AllStopsBelowHigh(s.held) && Feasible(e)
    ensures AllStopsBelowHigh(Apply(s, e, cfg, d).held)
  {
    hide StepHolding, CappedQuantity, StopBelowHigh, NewHolding;
    match e {
      case SlotEvent(slot) => SurvivorsStops(s.held, slot, cfg);
      case BuyEvent(slot, c, regime, sector) =>
        var q := AdmittedQuantity(s, c, slot, regime, sector, cfg, d);
        if q.Some? && BuyAffordable(s, c, q.value) {
          var h := NewHolding(c, q.value, slot, EntryAtr(c, slot), sector, cfg);
          NewHoldingCode(c, q.value, slot, EntryAtr(c, slot), sector, cfg);
          PutNew(s.held, h);
          EntryStopBelowHigh(c, q.value, slot, EntryAtr(c, slot), sector, cfg);
        }
    }
  }

  lemma NewHoldingCode(c: Candidate, quantity: int, slot: Slot, atr: real, sector: string, cfg: EngineConfig)
    ensures NewHolding(c, quantity, slot, atr, sector, cfg).code == c.code
  {
  }

  /** In every reachable state no stop exceeds the running high of its position. */
  lemma {:induction false} StopBelowHighOverRun(initialCapital: real, es: seq<Event>, cfg: EngineConfig,
                                                d: DriverConfig)
    requires AllFeasible(es)
    ensures AllStopsBelowHigh(Run(Start(initialCapital), es, cfg, d).held)
  {
    if es != [] {
      hide Apply;
      var front, e := es[..|es| - 1], es[|es| - 1];
      StopBelowHighOverRun(initialCapital, front, cfg, d);
      EventKeepsStops(Run(Start(initialCapital), front, cfg, d), e, cfg, d);
    }
  }

  /** Profit does not depend on how much of the lot is left. */
  lemma ProfitPerShare(h: Holding, price: real)
    requires Sound(h)
    ensures Profit(h, price) == (price * (1.0 - FEE_SELL) - h.avgPrice) / h.avgPrice
  {
    var q, a, net := h.quantity as real, h.avgPrice, price * (1.0 - FEE_SELL);
    var x := (net - a) / a;
    assert x * a == net - a;
    assert price * q * (1.0 - FEE_SELL) == net * q;
    assert net * q - a * q == (net - a) * q == x * a * q == x * (a * q);
    assert Profit(h, price) == x * (a * q) / (a * q);
  }

  /** Whatever is left open by a slot that saw it is priced above its stop,
   *  and its profit lies strictly between the dynamic stop and the target. */
  lemma SurvivorIsBetweenStops(h: Holding, slot: Slot, cfg: EngineConfig)
    requires Tidy(h) && slot.RowOf(h.code).Some? && StepHolding(h, slot, cfg).next != []
    ensures var k, price := StepHolding(h, slot, cfg).next[0], slot.price(h.code);
            && price > k.stopLossPrice
            && StopLossOf(slot.risk, cfg) < Profit(k, price) < TargetOf(slot.risk, cfg)
  {
    var k, price := StepHolding(h, slot, cfg).next[0], slot.price(h.code);
    var m := Mark(h, price, slot.RowOf(h.code).value, cfg);
    ProfitPerShare(k, price);
    ProfitPerShare(m, price);
  }
}
