/** Share and cash conservation of the portfolio engine over every run. */
module EngineLedger {
  import opened Prelude
  import opened MarketData
  import opened EngineSpec

  /** Shares bought minus shares sold of one code, read off the trade log alone. */
  function NetQuantity(log: seq<Trade>, code: string): int {
    if log == [] then 0
    else
      var t := log[|log| - 1];
      NetQuantity(log[..|log| - 1], code)
      + if t.code != code then 0 else if t.side.Buy? then t.quantity else -t.quantity
  }

  /** Shares of one code in the dictionary. */
  function HeldQuantity(hs: seq<Holding>, code: string): int {
    if hs == [] then 0
    else
      HeldQuantity(hs[..|hs| - 1], code)
      + if hs[|hs| - 1].code == code then hs[|hs| - 1].quantity else 0
  }

  /** The book-keeping invariant of the engine. */
  ghost predicate Ledger(s: State, initialCapital: real, cfg: EngineConfig) {
    && AllSound(s.held) && DistinctCodes(s.held)
    && (forall code :: NetQuantity(s.log, code) == HeldQuantity(s.held, code))
    && s.cash == initialCapital + CashFlow(s.log)
    && s.cash >= 0.0
    && (|s.held| == 0 || |s.held| <= cfg.maxPositions)
  }

  lemma {:induction false} NetAppend(a: seq<Trade>, b: seq<Trade>, code: string)
    ensures NetQuantity(a + b, code) == NetQuantity(a, code) + NetQuantity(b, code)
  {
    if b == [] {
      assert a + b == a;
    } else {
      NetAppend(a, b[..|b| - 1], code);
      assert (a + b)[..|a + b| - 1] == a + b[..|b| - 1];
    }
  }

  lemma {:induction false} HeldAppend(a: seq<Holding>, b: seq<Holding>, code: string)
    ensures HeldQuantity(a + b, code) == HeldQuantity(a, code) + HeldQuantity(b, code)
  {
    if b == [] {
      assert a + b == a;
    } else {
      HeldAppend(a, b[..|b| - 1], code);
      assert (a + b)[..|a + b| - 1] == a + b[..|b| - 1];
    }
  }

  /** A code counts as held exactly when at least one share of it is. */
  lemma {:induction false} HeldMeansShares(hs: seq<Holding>, code: string)
    requires AllSound(hs)
    ensures HeldQuantity(hs, code) >= 0
    ensures Holds(hs, code) <==> HeldQuantity(hs, code) >= 1
  {
    if hs != [] {
      var front := hs[..|hs| - 1];
      HeldMeansShares(front, code);
      if Holds(hs, code) && hs[|hs| - 1].code != code {
        var i :| 0 <= i < |hs| && hs[i].code == code;
        assert front[i].code == code;
      }
      if Holds(front, code) {
        var i :| 0 <= i < |front| && front[i].code == code;
        assert hs[i].code == code;
      }
    }
  }

  lemma NetOne(t: Trade, code: string)
    ensures NetQuantity([t], code) == if t.code != code then 0 else if t.side.Buy? then t.quantity else -t.quantity
  {
    assert [t][..0] == [];
    assert NetQuantity([], code) == 0;
  }

  lemma HeldOne(h: Holding, code: string)
    ensures HeldQuantity([h], code) == if h.code == code then h.quantity else 0
  {
    assert [h][..0] == [];
    assert HeldQuantity([], code) == 0;
  }

  /** In one slot a holding gives up exactly the shares its sale records, for a non-negative amount of cash. */
  lemma StepConserves(h: Holding, slot: Slot, cfg: EngineConfig, code: string)
    requires Sound(h) && slot.price(h.code) >= 0.0
    ensures var o := StepHolding(h, slot, cfg);
            && HeldQuantity([h], code) == HeldQuantity(o.next, code) - NetQuantity(o.sales, code)
            && CashFlow(o.sales) >= 0.0
  {
    var o := StepHolding(h, slot, cfg);
    HeldOne(h, code);
    CashFlowOne();
    if o.sales != [] {
      assert |o.sales| == 1 && o.sales == [o.sales[0]];
      NetOne(o.sales[0], code);
      SaleBounds(h, slot, cfg);
    }
    if o.next != [] {
      assert o.next == [o.next[0]];
      HeldOne(o.next[0], code);
    }
    assert HeldQuantity([], code) == 0 && NetQuantity([], code) == 0;
  }

  /** The sale of one holding, if any. */
  lemma SaleBounds(h: Holding, slot: Slot, cfg: EngineConfig)
    requires Sound(h) && slot.price(h.code) >= 0.0
    requires StepHolding(h, slot, cfg).sales != []
    ensures var o := StepHolding(h, slot, cfg);
            var t := o.sales[0];
            && |o.sales| == 1 && t.side.Sell? && t.code == h.code && 1 <= t.quantity <= h.quantity
            && t.fee == Worth(t.quantity, t.price) * FEE_SELL && t.price == slot.price(h.code)
            && t.quantity == h.quantity - (if o.next == [] then 0 else o.next[0].quantity)
            && CashOf(t) >= 0.0
  {
    var t := StepHolding(h, slot, cfg).sales[0];
    WorthMonotone(0, t.quantity, t.price);
    assert Worth(t.quantity, t.price) >= 0.0;
    NetOfFee(Worth(t.quantity, t.price));
  }

  lemma NetOfFee(x: real)
    requires x >= 0.0
    ensures 0.0 <= x * FEE_SELL <= x && 0.0 <= x * FEE_BUY <= x
  {
  }

  lemma {:induction false} SlotConserves(hs: seq<Holding>, slot: Slot, cfg: EngineConfig, code: string)
    requires AllSound(hs) && forall c :: slot.price(c) >= 0.0
    ensures HeldQuantity(hs, code)
            == HeldQuantity(Survivors(hs, slot, cfg), code) - NetQuantity(Sales(hs, slot, cfg), code)
    ensures CashFlow(Sales(hs, slot, cfg)) >= 0.0
    ensures |Survivors(hs, slot, cfg)| <= |hs|
  {
    hide StepHolding;
    if hs != [] {
      var front, h := hs[..|hs| - 1], hs[|hs| - 1];
      var o := StepHolding(h, slot, cfg);
      SlotConserves(front, slot, cfg, code);
      StepConserves(h, slot, cfg, code);
      assert hs == front + [h];
      HeldAppend(front, [h], code);
      HeldAppend(Survivors(front, slot, cfg), o.next, code);
      NetAppend(Sales(front, slot, cfg), o.sales, code);
      CashFlowAppend(Sales(front, slot, cfg), o.sales);
    } else {
      CashFlowOne();
    }
  }

  /** Survivors keep their codes. */
  lemma {:induction false} SurvivorsDistinct(hs: seq<Holding>, slot: Slot, cfg: EngineConfig)
    requires AllSound(hs) && DistinctCodes(hs)
    ensures DistinctCodes(Survivors(hs, slot, cfg))
    ensures forall i :: 0 <= i < |Survivors(hs, slot, cfg)| ==> Holds(hs, Survivors(hs, slot, cfg)[i].code)
  {
    hide StepHolding;
    if hs != [] {
      var front, h := hs[..|hs| - 1], hs[|hs| - 1];
      SurvivorsDistinct(front, slot, cfg);
      var kept := Survivors(front, slot, cfg);
      forall i | 0 <= i < |kept|
        ensures Holds(hs, kept[i].code) && kept[i].code != h.code
      {
        assert Holds(front, kept[i].code);
        var j :| 0 <= j < |front| && front[j].code == kept[i].code;
        assert hs[j] == front[j];
      }
    }
  }

  /** Buying a code that is not held appends it. */
  lemma {:induction false} PutNew(hs: seq<Holding>, h: Holding)
    requires !Holds(hs, h.code)
    ensures Put(hs, h) == hs + [h]
  {
    if hs != [] {
      assert hs[0].code != h.code;
      assert forall i :: 0 <= i < |hs[1..]| ==> hs[1..][i].code == hs[i + 1].code;
      PutNew(hs[1..], h);
    }
  }

  lemma BuyKeepsLedger(s: State, c: Candidate, quantity: int, slot: Slot, atr: real, sector: string,
                       initialCapital: real, cfg: EngineConfig)
    requires Ledger(s, initialCapital, cfg) && c.price > 0.0
    requires !Holds(s.held, c.code) && |s.held| < cfg.maxPositions
    ensures Ledger(ExecuteBuy(s, c, quantity, slot, atr, sector, cfg), initialCapital, cfg)
  {
    var r := ExecuteBuy(s, c, quantity, slot, atr, sector, cfg);
    if BuyAffordable(s, c, quantity) {
      var t, h := BuyTrade(c, quantity, slot.timestamp), NewHolding(c, quantity, slot, atr, sector, cfg);
      PutNew(s.held, h);
      forall code ensures NetQuantity(r.log, code) == HeldQuantity(r.held, code) {
        NetAppend(s.log, [t], code);
        HeldAppend(s.held, [h], code);
        NetOne(t, code);
        HeldOne(h, code);
      }
      CashFlowAppend(s.log, [t]);
      CashFlowOne();
    }
  }

  lemma SlotKeepsLedger(s: State, slot: Slot, initialCapital: real, cfg: EngineConfig)
    requires Ledger(s, initialCapital, cfg) && forall c :: slot.price(c) >= 0.0
    ensures Ledger(ProcessSlot(s, slot, cfg), initialCapital, cfg)
  {
    var r, sales := ProcessSlot(s, slot, cfg), Sales(s.held, slot, cfg);
    forall code ensures NetQuantity(r.log, code) == HeldQuantity(r.held, code) {
      NetAppend(s.log, sales, code);
      SlotConserves(s.held, slot, cfg, code);
    }
    SlotConserves(s.held, slot, cfg, "");
    SurvivorsDistinct(s.held, slot, cfg);
    CashFlowAppend(s.log, sales);
  }

  lemma StepKeepsLedger(s: State, e: Event, initialCapital: real, cfg: EngineConfig, d: DriverConfig)
    requires Ledger(s, initialCapital, cfg) && Feasible(e)
    ensures Ledger(Apply(s, e, cfg, d), initialCapital, cfg)
  {
    hide Ledger, ExecuteBuy, ProcessSlot;
    match e {
      case SlotEvent(slot) => SlotKeepsLedger(s, slot, initialCapital, cfg);
      case BuyEvent(slot, c, regime, sector) =>
        var q := AdmittedQuantity(s, c, slot, regime, sector, cfg, d);
        if q.Some? {
          BuyKeepsLedger(s, c, q.value, slot, EntryAtr(c, slot), sector, initialCapital, cfg);
        }
    }
  }

  /** The ledger balances after every sequence of slots and buy attempts. */
  lemma {:induction false} LedgerOverRun(initialCapital: real, es: seq<Event>, cfg: EngineConfig, d: DriverConfig)
    requires initialCapital >= 0.0 && AllFeasible(es)
    ensures Ledger(Run(Start(initialCapital), es, cfg, d), initialCapital, cfg)
  {
    if es == [] {
      CashFlowOne();
    } else {
      hide Ledger, Apply;
      LedgerOverRun(initialCapital, es[..|es| - 1], cfg, d);
      StepKeepsLedger(Run(Start(initialCapital), es[..|es| - 1], cfg, d), es[|es| - 1], initialCapital, cfg, d);
    }
  }
}
