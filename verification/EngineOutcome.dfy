/** What a slot does to a holding, and why, in the figures of the holding, the row and the configuration. */
module EngineOutcome {
  import opened Prelude
  import opened MarketData
  import opened EngineSpec
  import opened EngineLedger
  import opened EngineLifetime

  /** Comparing the profit after the sales fee with a limit is comparing the net price with the marked-up cost. */
  lemma ProfitFigures(h: Holding, price: real, limit: real)
    requires Sound(h)
    ensures Profit(h, price) <= limit <==> price * (1.0 - 0.0005841) <= h.avgPrice * (1.0 + limit)
    ensures Profit(h, price) >= limit <==> price * (1.0 - 0.0005841) >= h.avgPrice * (1.0 + limit)
  {
    var net, a := price * (1.0 - 0.0005841), h.avgPrice;
    ProfitPerShare(h, price);
    var x := (net - a) / a;
    assert x * a == net - a;
    assert (limit - x) * a == a * (1.0 + limit) - net;
    assert x <= limit ==> (limit - x) * a >= 0.0;
    assert x > limit ==> (limit - x) * a < 0.0;
    assert x < limit ==> (limit - x) * a > 0.0;
  }

  /** The shares a tier sells are the largest whole number not above its part of the original lot, at least one and at
   *  most what is left. */
  lemma TierShare(h: Holding, increment: real)
    requires h.quantity >= 1 && h.soldRatio + increment <= 1.0
    ensures IsWholePart(TierQuantity(h, increment), h.originalQuantity as real * increment, h.quantity)
    ensures AfterPartial(h, increment)
            == h.(quantity := h.quantity - TierQuantity(h, increment), soldRatio := h.soldRatio + increment)
  {
    assert Min(1.0, h.soldRatio + increment) - h.soldRatio == increment;
    var whole := h.originalQuantity as real * increment;
    assert LotShare(h.originalQuantity, h.soldRatio, h.soldRatio + increment) == Trunc(whole) by {
      assert h.soldRatio + increment - h.soldRatio == increment;
    }
    WholePart(whole, h.quantity);
  }

  predicate SoldFor(o: Outcome, reason: string) {
    o.sales != [] && o.sales[0].reason == reason
  }

  /** The figures a slot decides on: the stop and the high brought up to date, the price net of the sales fee, and the
   *  net prices at which the loss limit and the target are reached. */
  datatype Figures = Figures(stop: real, high: real, net: real, floor: real, goal: real)

  function FiguresOf(h: Holding, row: Row, slot: Slot, cfg: EngineConfig): Figures {
    var price := slot.price(h.code);
    var atr := if row.atr.Some? then row.atr.value else h.atr;
    Figures(
      Max(h.stopLossPrice, price - atr * cfg.stopLossAtrMult),
      Max(h.highPrice, price),
      price * (1.0 - 0.0005841),
      h.avgPrice * (1.0 + if slot.risk.stopLossPct.Some? then slot.risk.stopLossPct.value else -cfg.baseStopLossPct),
      h.avgPrice * (1.0 + if slot.risk.targetProfitPct.Some? then slot.risk.targetProfitPct.value
                          else cfg.targetProfitPct))
  }

  lemma DecisionIff(m: Holding, price: real, row: Row, slot: Slot, cfg: EngineConfig, net: real, floor: real,
                    goal: real)
    requires Sound(m) && net == price * (1.0 - 0.0005841)
    requires floor == m.avgPrice * (1.0 + StopLossOf(slot.risk, cfg))
    requires goal == m.avgPrice * (1.0 + TargetOf(slot.risk, cfg))
    ensures var d := Decide(m, price, row, slot, cfg);
            var inside := price > m.stopLossPrice && floor < net < goal;
            var rsi80 := row.rsi.Some? && row.rsi.value >= slot.rsi3 && m.soldRatio < 0.8;
            var rsi75 := row.rsi.Some? && row.rsi.value >= slot.rsi2 && m.soldRatio < 0.5;
            var rsi70 := row.rsi.Some? && row.rsi.value >= slot.rsi1 && m.soldRatio < 0.3;
            var aged := slot.timestamp - m.entryDate >= 1440 * cfg.maxHoldDays;
            var cross := row.ma5.Some? && row.ma20.Some? && row.ma5.value < row.ma20.value
                         && m.highPrice > m.avgPrice * 1.02;
            d == if price <= m.stopLossPrice then Exit("ATR_STOP")
                 else if net <= floor then Exit("DYNAMIC_STOP")
                 else if net >= goal then Exit("TARGET_PROFIT")
                 else if rsi80 then Partial("RSI_TAKE_PROFIT_80", 0.2)
                 else if rsi75 then Partial("RSI_TAKE_PROFIT_75", 0.5)
                 else if rsi70 then Partial("RSI_TAKE_PROFIT_70", 0.3)
                 else if aged then Exit("TIME_EXIT")
                 else if cross then Exit("DEATH_CROSS")
                 else Keep
  {
    ProfitFigures(m, price, StopLossOf(slot.risk, cfg));
    ProfitFigures(m, price, TargetOf(slot.risk, cfg));
    AgeFigures(m, slot.timestamp, cfg.maxHoldDays);
    hide Profit, AgeInDays;
  }

  lemma AgeFigures(h: Holding, timestamp: int, days: int)
    ensures AgeInDays(h, timestamp) >= days <==> timestamp - h.entryDate >= 1440 * days
  {
  }

  /** A slot's outcome, through the decision on the marked holding. */
  lemma OutcomeOfDecision(h: Holding, row: Row, slot: Slot, cfg: EngineConfig, o: Outcome, f: Figures, d: Decision)
    requires Sound(h) && slot.RowOf(h.code) == Some(row) && o == StepHolding(h, slot, cfg)
    requires f == FiguresOf(h, row, slot, cfg)
    requires d == Decide(Mark(h, slot.price(h.code), row, cfg), slot.price(h.code), row, slot, cfg)
    ensures var m := h.(stopLossPrice := f.stop, highPrice := f.high);
            var price := slot.price(h.code);
            && m == Mark(h, price, row, cfg)
            && o == match d
                    case Keep => Outcome([m], [])
                    case Exit(reason) => Outcome([], [SellTrade(m, m.quantity, price, reason, slot.timestamp)])
                    case Partial(reason, increment) =>
                      var left := AfterPartial(m, increment);
                      Outcome(if left.quantity <= 0 then [] else [left],
                              [SellTrade(m, TierQuantity(m, increment), price, reason, slot.timestamp)])
  {
    hide Decide, TierQuantity, AfterPartial;
  }

  /** Exactly when a slot keeps a holding, and for which reason it sells: the stop before the loss limit before the
   *  target, then the RSI tiers from the highest, then age, then a death cross after a rise. */
  lemma SlotOutcomeIff(h: Holding, row: Row, slot: Slot, cfg: EngineConfig, o: Outcome, f: Figures)
    requires Sound(h) && slot.RowOf(h.code) == Some(row) && o == StepHolding(h, slot, cfg)
    requires f == FiguresOf(h, row, slot, cfg)
    ensures var price := slot.price(h.code);
            var inside := price > f.stop && f.floor < f.net < f.goal;
            var rsi80 := row.rsi.Some? && row.rsi.value >= slot.rsi3 && h.soldRatio < 0.8;
            var rsi75 := row.rsi.Some? && row.rsi.value >= slot.rsi2 && h.soldRatio < 0.5;
            var rsi70 := row.rsi.Some? && row.rsi.value >= slot.rsi1 && h.soldRatio < 0.3;
            var tier := rsi80 || rsi75 || rsi70;
            var aged := slot.timestamp - h.entryDate >= 1440 * cfg.maxHoldDays;
            var cross := row.ma5.Some? && row.ma20.Some? && row.ma5.value < row.ma20.value
                         && f.high > h.avgPrice * 1.02;
            && (SoldFor(o, "ATR_STOP") <==> price <= f.stop)
            && (SoldFor(o, "DYNAMIC_STOP") <==> price > f.stop && f.net <= f.floor)
            && (SoldFor(o, "TARGET_PROFIT") <==> price > f.stop && f.net > f.floor && f.net >= f.goal)
            && (SoldFor(o, "RSI_TAKE_PROFIT_80") <==> inside && rsi80)
            && (SoldFor(o, "RSI_TAKE_PROFIT_75") <==> inside && rsi75 && !rsi80)
            && (SoldFor(o, "RSI_TAKE_PROFIT_70") <==> inside && rsi70 && !rsi75 && !rsi80)
            && (SoldFor(o, "TIME_EXIT") <==> inside && !tier && aged)
            && (SoldFor(o, "DEATH_CROSS") <==> inside && !tier && !aged && cross)
            && (o.sales == [] <==> inside && !tier && !aged && !cross)
  {
    var price := slot.price(h.code);
    var m := Mark(h, price, row, cfg);
    var d := Decide(m, price, row, slot, cfg);
    OutcomeOfDecision(h, row, slot, cfg, o, f, d);
    assert f.floor == m.avgPrice * (1.0 + StopLossOf(slot.risk, cfg));
    assert f.goal == m.avgPrice * (1.0 + TargetOf(slot.risk, cfg));
    DecisionIff(m, price, row, slot, cfg, f.net, f.floor, f.goal);
    hide StepHolding, Decide, Mark, FiguresOf, TierQuantity, AfterPartial, Profit;
  }

  /** What a sale of a slot is: all of the holding, or a tier's part of the original lot, at the slot's price and with
   *  the sales fee; and what is left, with its stop and high brought up to date. */
  lemma SlotOutcomeFigures(h: Holding, row: Row, slot: Slot, cfg: EngineConfig, o: Outcome, f: Figures, part: real)
    requires Sound(h) && slot.RowOf(h.code) == Some(row) && o == StepHolding(h, slot, cfg)
    requires f == FiguresOf(h, row, slot, cfg)
    requires part == if SoldFor(o, "RSI_TAKE_PROFIT_80") then 0.2
                     else if SoldFor(o, "RSI_TAKE_PROFIT_75") then 0.5
                     else if SoldFor(o, "RSI_TAKE_PROFIT_70") then 0.3
                     else 1.0
    ensures var m := h.(stopLossPrice := f.stop, highPrice := f.high);
            && (o.sales == [] ==> o.next == [m])
            && (o.sales != [] ==>
                  var t := o.sales[0];
                  && o.sales == [t] && t.side.Sell? && t.code == h.code && t.date == slot.timestamp
                  && t.price == slot.price(h.code) && t.fee == t.quantity as real * t.price * 0.0005841
                  && (part == 1.0 ==> t.quantity == h.quantity)
                  && (part < 1.0 ==> IsWholePart(t.quantity, h.originalQuantity as real * part, h.quantity))
                  && o.next == if t.quantity == h.quantity then []
                               else [m.(quantity := h.quantity - t.quantity, soldRatio := h.soldRatio + part)])
  {
    hide StepHolding, Decide, Mark, FiguresOf, Profit, TierQuantity, AfterPartial, IsWholePart, Sound;
    var price := slot.price(h.code);
    var m := Mark(h, price, row, cfg);
    MarkIsSound(h, price, row, cfg);
    var d := Decide(m, price, row, slot, cfg);
    OutcomeOfDecision(h, row, slot, cfg, o, f, d);
    TierOfDecision(m, price, row, slot, cfg);
    if d.Partial? {
      var n := TierQuantity(m, d.increment);
      TierShare(m, d.increment);
      PartIsSome(n, m);
      SaleFee(n, price);
      SameShare(n, h.originalQuantity, d.increment, part, h.quantity);
    } else {
      SaleFee(h.quantity, price);
    }
  }

  lemma SaleFee(n: int, price: real)
    ensures Worth(n, price) * FEE_SELL == n as real * price * 0.0005841
  {
  }

  lemma SameShare(n: int, lot: int, a: real, b: real, most: int)
    requires IsWholePart(n, lot as real * a, most) && a == b
    ensures IsWholePart(n, lot as real * b, most)
  {
  }

  lemma MarkIsSound(h: Holding, price: real, row: Row, cfg: EngineConfig)
    requires Sound(h)
    ensures Sound(Mark(h, price, row, cfg)) && Mark(h, price, row, cfg).quantity >= 1
  {
  }

  /** The reasons of exits are not those of tiers, and each tier has its own part. */
  lemma TierOfDecision(m: Holding, price: real, row: Row, slot: Slot, cfg: EngineConfig)
    requires Sound(m)
    ensures match Decide(m, price, row, slot, cfg)
            case Keep => true
            case Exit(reason) =>
              reason != "RSI_TAKE_PROFIT_80" && reason != "RSI_TAKE_PROFIT_75" && reason != "RSI_TAKE_PROFIT_70"
            case Partial(reason, increment) =>
              && m.soldRatio + increment <= 1.0
              && (|| (reason == "RSI_TAKE_PROFIT_80" && increment == 0.2)
                  || (reason == "RSI_TAKE_PROFIT_75" && increment == 0.5)
                  || (reason == "RSI_TAKE_PROFIT_70" && increment == 0.3))
  {
    hide Profit;
  }

  /** The row a slot sees of a code is the code's last one dated up to the trade date. */
  lemma RowSeenIff(slot: Slot, code: string)
    ensures forall row :: slot.RowOf(code) == Some(row)
                          <==> code in slot.cache && IsLastUpTo(slot.cache[code], slot.tradeDate, row)
  {
    hide IsLastUpTo, RowAtOrBefore;
    if code in slot.cache {
      RowAtOrBeforeIsLast(slot.cache[code], slot.tradeDate);
    }
  }

  /** A slot without a row of the code leaves the holding as it is. */
  lemma NoRowNoChange(h: Holding, slot: Slot, cfg: EngineConfig)
    requires Sound(h) && slot.RowOf(h.code).None?
    ensures StepHolding(h, slot, cfg) == Outcome([h], [])
  {
  }

  // ---------------------------------------------------------------------------
  // The trade log
  // ---------------------------------------------------------------------------

  /** The reason of a sale is the condition that held for the holding at the slot. */
  ghost predicate Justified(t: Trade, h: Holding, row: Row, slot: Slot, cfg: EngineConfig, f: Figures) {
    var inside := t.price > f.stop && f.floor < f.net < f.goal;
    var rsi := row.rsi.GetOr(0.0);
    && t.side.Sell? && t.code == h.code && t.price == slot.price(h.code) && t.date == slot.timestamp
    && 1 <= t.quantity <= h.quantity && t.fee == t.quantity as real * t.price * 0.0005841
    && (|| (t.reason == "ATR_STOP" && t.price <= f.stop && t.quantity == h.quantity)
        || (t.reason == "DYNAMIC_STOP" && f.net <= f.floor && t.quantity == h.quantity)
        || (t.reason == "TARGET_PROFIT" && f.net >= f.goal && t.quantity == h.quantity)
        || (t.reason == "RSI_TAKE_PROFIT_80" && inside && row.rsi.Some? && rsi >= slot.rsi3 && h.soldRatio < 0.8
            && IsWholePart(t.quantity, h.originalQuantity as real * 0.2, h.quantity))
        || (t.reason == "RSI_TAKE_PROFIT_75" && inside && row.rsi.Some? && rsi >= slot.rsi2 && h.soldRatio < 0.5
            && IsWholePart(t.quantity, h.originalQuantity as real * 0.5, h.quantity))
        || (t.reason == "RSI_TAKE_PROFIT_70" && inside && row.rsi.Some? && rsi >= slot.rsi1 && h.soldRatio < 0.3
            && IsWholePart(t.quantity, h.originalQuantity as real * 0.3, h.quantity))
        || (t.reason == "TIME_EXIT" && inside && slot.timestamp - h.entryDate >= 1440 * cfg.maxHoldDays
            && t.quantity == h.quantity)
        || (t.reason == "DEATH_CROSS" && inside && row.ma5.Some? && row.ma20.Some? && row.ma5.value < row.ma20.value
            && f.high > h.avgPrice * 1.02 && t.quantity == h.quantity))
  }

  lemma StepIsJustified(h: Holding, slot: Slot, cfg: EngineConfig, t: Trade)
    requires Sound(h) && t in StepHolding(h, slot, cfg).sales
    ensures slot.RowOf(h.code).Some?
    ensures var row := slot.RowOf(h.code).value;
            Justified(t, h, row, slot, cfg, FiguresOf(h, row, slot, cfg))
  {
    var o := StepHolding(h, slot, cfg);
    if slot.RowOf(h.code).None? {
      NoRowNoChange(h, slot, cfg);
    } else {
      var row := slot.RowOf(h.code).value;
      var f := FiguresOf(h, row, slot, cfg);
      SlotOutcomeIff(h, row, slot, cfg, o, f);
      var part := if SoldFor(o, "RSI_TAKE_PROFIT_80") then 0.2
                  else if SoldFor(o, "RSI_TAKE_PROFIT_75") then 0.5
                  else if SoldFor(o, "RSI_TAKE_PROFIT_70") then 0.3
                  else 1.0;
      SlotOutcomeFigures(h, row, slot, cfg, o, f, part);
      PartIsSome(t.quantity, h);
      hide StepHolding, FiguresOf, IsWholePart;
      assert o.sales == [t];
      if t.price <= f.stop {
        assert SoldFor(o, "ATR_STOP");
      } else if f.net <= f.floor {
        assert SoldFor(o, "DYNAMIC_STOP");
      } else if f.net >= f.goal {
        assert SoldFor(o, "TARGET_PROFIT");
      } else if part < 1.0 {
        SameShare(t.quantity, h.originalQuantity, part, if SoldFor(o, "RSI_TAKE_PROFIT_80") then 0.2
                                                        else if SoldFor(o, "RSI_TAKE_PROFIT_75") then 0.5
                                                        else 0.3, h.quantity);
      } else {
        assert SoldFor(o, "TIME_EXIT") || SoldFor(o, "DEATH_CROSS");
      }
    }
  }

  lemma PartIsSome(n: int, h: Holding)
    ensures forall amount: real :: IsWholePart(n, amount, h.quantity) ==> 1 <= n <= h.quantity
  {
  }

  /** The holding at a place is what a sale of a slot comes from. */
  ghost predicate CausedBy(t: Trade, s: State, e: Event, i: nat, cfg: EngineConfig) {
    && e.SlotEvent? && i < |s.held| && e.slot.RowOf(s.held[i].code).Some?
    && var row := e.slot.RowOf(s.held[i].code).value;
       Justified(t, s.held[i], row, e.slot, cfg, FiguresOf(s.held[i], row, e.slot, cfg))
  }

  lemma {:induction false} SalesAreJustified(hs: seq<Holding>, slot: Slot, cfg: EngineConfig, t: Trade) returns (i: nat)
    requires AllSound(hs) && t in Sales(hs, slot, cfg)
    ensures i < |hs| && slot.RowOf(hs[i].code).Some?
    ensures var row := slot.RowOf(hs[i].code).value;
            Justified(t, hs[i], row, slot, cfg, FiguresOf(hs[i], row, slot, cfg))
  {
    hide StepHolding, Justified, FiguresOf;
    var front, last := hs[..|hs| - 1], hs[|hs| - 1];
    if t in StepHolding(last, slot, cfg).sales {
      i := |hs| - 1;
      StepIsJustified(last, slot, cfg, t);
    } else {
      i := SalesAreJustified(front, slot, cfg, t);
      assert front[i] == hs[i];
    }
  }

  /** What an event adds to the log beyond what was there: caused sales, or a buy. */
  lemma EventSalesAreJustified(s: State, e: Event, cfg: EngineConfig, d: DriverConfig, j: nat)
    requires AllSound(s.held) && Feasible(e)
    requires |s.log| <= j < |Apply(s, e, cfg, d).log| && Apply(s, e, cfg, d).log[j].side.Sell?
    ensures exists i :: CausedBy(Apply(s, e, cfg, d).log[j], s, e, i, cfg)
  {
    hide Justified, FiguresOf, CappedQuantity, StepHolding;
    var t := Apply(s, e, cfg, d).log[j];
    if e.SlotEvent? {
      assert t == Sales(s.held, e.slot, cfg)[j - |s.log|];
      var i := SalesAreJustified(s.held, e.slot, cfg, t);
      assert CausedBy(t, s, e, i, cfg);
    }
  }

  lemma EventKeepsLog(s: State, e: Event, cfg: EngineConfig, d: DriverConfig)
    requires AllSound(s.held) && Feasible(e)
    ensures s.log <= Apply(s, e, cfg, d).log
  {
    hide CappedQuantity, StepHolding, Sales;
  }

  /** Every sale in the log of a run was made by one of its slots, from a holding of that moment, for a reason that
   *  held. */
  lemma {:induction false} EverySaleIsJustified(initialCapital: real, es: seq<Event>, cfg: EngineConfig,
                                                d: DriverConfig,
                                                j: nat)
    returns (k: nat)
    requires AllFeasible(es)
    requires var log := Run(Start(initialCapital), es, cfg, d).log; j < |log| && log[j].side.Sell?
    ensures k < |es| && AllFeasible(es[..k])
    ensures exists i :: CausedBy(Run(Start(initialCapital), es, cfg, d).log[j],
                                 Run(Start(initialCapital), es[..k], cfg, d), es[k], i, cfg)
  {
    hide Apply, CausedBy;
    var front, e := es[..|es| - 1], es[|es| - 1];
    var before := Run(Start(initialCapital), front, cfg, d);
    EventKeepsLog(before, e, cfg, d);
    if j < |before.log| {
      k := EverySaleIsJustified(initialCapital, front, cfg, d, j);
      assert front[..k] == es[..k] && front[k] == es[k];
    } else {
      k := |front|;
      EventSalesAreJustified(before, e, cfg, d, j);
    }
  }
}
