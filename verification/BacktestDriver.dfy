/** The backtest driver: buy attempts with their caps, and the loops over days, slots and candidates. */
module BacktestDriver {
  import opened Prelude
  import opened MarketData
  import S = EngineSpec
  import D = DriverSpec
  import E = PortfolioEngine

  class BacktestGPT {
    const portfolio: E.Engine
    const args: S.DriverConfig
    const sectorOf: string -> string
    var tradeLog: seq<D.EndOfDay>

    constructor (initialCapital: real, cfg: S.EngineConfig, args: S.DriverConfig, sectorOf: string -> string)
      ensures fresh(portfolio) && portfolio.Valid() && portfolio.View() == S.Start(initialCapital)
      ensures portfolio.positions == [] && portfolio.config == cfg && this.args == args && this.sectorOf == sectorOf
      ensures tradeLog == []
    {
      portfolio := new E.Engine(initialCapital, cfg);
      this.args, this.sectorOf, tradeLog := args, sectorOf, [];
    }

    ghost function Setup(): D.Setup {
      D.Setup(portfolio.config, args, sectorOf)
    }

    function ApplyStockLimit(code: string, quantity: int, price: real, equity: real,
                             holdings: map<string, real>, maxPct: real): int
      requires price > 0.0
    {
      S.FittingQuantity(S.GetOrZero(holdings, code), quantity, price, equity, maxPct)
    }

    function ApplySectorLimit(sector: string, quantity: int, price: real, equity: real,
                              exposures: map<string, real>, maxPct: real): int
      requires price > 0.0
    {
      S.FittingQuantity(S.GetOrZero(exposures, sector), quantity, price, equity, maxPct)
    }

    /** Cut a sized quantity to the caps, step by step. */
    method Cap(c: S.Candidate, sized: int, regime: S.Regime, equity: real, available: real,
               holdings: map<string, real>, exposures: map<string, real>) returns (capped: Option<int>)
      requires c.price > 0.0
      ensures capped == S.CappedQuantity(sized, c.price, equity, available, S.GetOrZero(holdings, c.code),
                                         S.GetOrZero(exposures, sectorOf(c.code)), S.StockCap(args, regime),
                                         S.SectorCap(args, regime), args.cashKeepPct)
    {
      hide S.FittingQuantity, Worth;
      var quantity := sized;
      if quantity <= 0 {
        return None;
      }
      quantity := ApplyStockLimit(c.code, quantity, c.price, equity, holdings, S.StockCap(args, regime));
      if quantity <= 0 {
        return None;
      }
      quantity := ApplySectorLimit(sectorOf(c.code), quantity, c.price, equity, exposures, S.SectorCap(args, regime));
      if quantity <= 0 {
        return None;
      }
      var cost := Worth(quantity, c.price);
      var cashFloor := equity * (args.cashKeepPct / 100.0);
      if cost > available || available - cost < cashFloor {
        return None;
      }
      return Some(quantity);
    }

    /** The checks before sizing, with the snapshot they need. */
    method Gate(c: S.Candidate, slot: S.Slot, regime: S.Regime)
      returns (eligible: bool, equity: real, exposures: map<string, real>, holdings: map<string, real>)
      ensures eligible == S.Eligible(portfolio.View(), c, slot, regime, portfolio.config, args)
      ensures eligible ==>
                && equity == S.TotalValue(portfolio.View(), slot)
                && exposures == S.Exposures(portfolio.View().held, slot)
                && holdings == S.HoldingValues(portfolio.View().held, slot)
    {
      eligible, equity, exposures, holdings := false, 0.0, map[], map[];
      if c.llmScore < args.llmThreshold {
        return;
      }
      var room := portfolio.CanAddPosition();
      if !room {
        return;
      }
      var k := portfolio.PlaceOf(c.code);
      if k < |portfolio.positions| {
        return;
      }
      if regime.Bear? {
        return;
      }
      equity, exposures, holdings := portfolio.Snapshot(slot);
      eligible := equity > 0.0 && portfolio.cash > 0.0 && slot.RowOf(c.code).Some?;
    }

    /** The checks of a buy attempt: the quantity to order, or None when the attempt is skipped. */
    method Admit(c: S.Candidate, slot: S.Slot, regime: S.Regime) returns (admitted: Option<int>)
      requires c.price > 0.0
      ensures admitted == S.AdmittedQuantity(portfolio.View(), c, slot, regime, sectorOf(c.code), portfolio.config,
                                             args)
    {
      var eligible, equity, exposures, holdings := Gate(c, slot, regime);
      if !eligible {
        return None;
      }
      var allocation := S.Allocation(portfolio.cash, equity, portfolio.config.maxPositionPct, slot.risk);
      var sized := S.WholeShares(allocation, c.price);
      admitted := Cap(c, sized, regime, equity, portfolio.cash, holdings, exposures);
    }

    method AttemptBuy(c: S.Candidate, slot: S.Slot, regime: S.Regime) returns (executed: bool)
      requires portfolio.Valid() && c.price > 0.0
      modifies portfolio`cash, portfolio`positions, portfolio`tradeLog
      ensures portfolio.Valid() && fresh(portfolio.Objects() - old(portfolio.Objects()))
      ensures executed == S.Fills(old(portfolio.View()), c, slot, regime, sectorOf(c.code), portfolio.config, args)
      ensures portfolio.View() == S.AttemptBuy(old(portfolio.View()), c, slot, regime, sectorOf(c.code),
                                               portfolio.config, args)
    {
      var admitted := Admit(c, slot, regime);
      if admitted.None? {
        return false;
      }
      var row := slot.RowOf(c.code);
      var atr := if row.Some? && row.value.atr.Some? then row.value.atr.value else c.price * 0.02;
      assert atr == S.EntryAtr(c, slot);
      executed := portfolio.ExecuteBuy(c, admitted.value, slot, atr, sectorOf(c.code));
    }

    /** The candidate loop of one slot. */
    method TryCandidates(o: D.Offer, regime: S.Regime, buysBefore: nat) returns (buys: nat)
      requires portfolio.Valid() && D.FeasibleOffer(o)
      modifies portfolio`cash, portfolio`positions, portfolio`tradeLog
      ensures portfolio.Valid() && fresh(portfolio.Objects() - old(portfolio.Objects()))
      ensures var t := D.BuyTrace(old(portfolio.View()), o.slot, o.candidates, regime, buysBefore, Setup());
              portfolio.View() == S.Run(old(portfolio.View()), t.0, portfolio.config, args) && buys == t.1
    {
      hide D.BuyTrace, D.OnPlan, S.AttemptBuy, S.Fills, S.Run;
      buys := buysBefore;
      ghost var s0, now, setup := portfolio.View(), portfolio.View(), Setup();
      ghost var plan := D.BuyTrace(s0, o.slot, o.candidates, regime, buysBefore, setup);
      ghost var done, cs, rest := [], o.candidates, plan;
      D.PlanStart(plan, s0, setup);
      var i := 0;
      while i < |o.candidates|
        invariant 0 <= i <= |o.candidates| && cs == o.candidates[i..]
        invariant portfolio.Valid() && fresh(portfolio.Objects() - old(portfolio.Objects()))
        invariant D.FeasibleOffer(D.Offer(o.slot, cs))
        invariant now == portfolio.View() && rest == D.BuyTrace(now, o.slot, cs, regime, buys, setup)
        invariant D.OnPlan(plan, s0, done, now, rest, setup)
      {
        if buys >= args.maxBuysPerDay {
          break;
        }
        ghost var before, restBefore, buysSoFar := now, rest, buys;
        ghost var e := D.Attempt(o.slot, o.candidates[i], regime, setup);
        var executed := AttemptBuy(o.candidates[i], o.slot, regime);
        if executed {
          buys := buys + 1;
        }
        D.BuyStep(before, o.slot, cs, regime, buysSoFar, setup, e, buys);
        S.RunOne(before, e, portfolio.config, args);
        now, cs := portfolio.View(), cs[1..];
        rest := D.BuyTrace(now, o.slot, cs, regime, buys, setup);
        D.PlanStep(plan, s0, done, before, restBefore, [e], rest, setup);
        done, i := done + [e], i + 1;
      }
      D.BuyDone(now, o.slot, cs, regime, buys, setup);
      D.PlanEnd(plan, s0, done, now, buys, setup);
    }

    /** The slots of a day: each sells first and then buys while the daily limit leaves room. */
    method RunSlots(day: D.Day)
      requires portfolio.Valid() && D.FeasibleDay(day)
      modifies portfolio`cash, portfolio`positions, portfolio`tradeLog, portfolio.Objects()
      ensures portfolio.Valid() && fresh(portfolio.Objects() - old(portfolio.Objects()))
      ensures portfolio.View() == D.RunDay(old(portfolio.View()), day, Setup())
    {
      hide D.OnPlan, D.BuyTrace, D.OffersTrace, S.Run, S.ProcessSlot, D.FeasibleOffer;
      var buys := 0;
      ghost var s0, now, setup := portfolio.View(), portfolio.View(), Setup();
      ghost var plan := D.OffersTrace(s0, day.offers, day.regime, 0, setup);
      ghost var done, offers, rest := [], day.offers, plan;
      D.PlanStart(plan, s0, setup);
      var i := 0;
      while i < |day.offers|
        invariant 0 <= i <= |day.offers| && offers == day.offers[i..] && 0 <= buys
        invariant portfolio.Valid() && fresh(portfolio.Objects() - old(portfolio.Objects()))
        invariant now == portfolio.View() && rest == D.OffersTrace(now, offers, day.regime, buys, setup)
        invariant D.OnPlan(plan, s0, done, now, rest, setup)
      {
        ghost var part, buysBefore, before, restBefore := [], buys, now, rest;
        buys, part := RunSlot(day.offers[i], day.regime, buys);
        now := portfolio.View();
        D.OffersStep(before, offers, day.regime, buysBefore, setup, part, buys);
        offers := offers[1..];
        rest := D.OffersTrace(now, offers, day.regime, buys, setup);
        D.PlanStep(plan, s0, done, before, restBefore, part, rest, setup);
        done, i := done + part, i + 1;
      }
      D.OffersDone(now, day.regime, buys, setup);
      D.PlanEnd(plan, s0, done, now, buys, setup);
    }

    /** One simulated day, closed by recording its equity. */
    method RunDay(day: D.Day, ghost after: S.State, ghost entry: D.EndOfDay)
      requires portfolio.Valid() && D.IsDay(portfolio.View(), day, after, entry, Setup())
      modifies this`tradeLog, portfolio`cash, portfolio`positions, portfolio`tradeLog, portfolio.Objects()
      ensures portfolio.Valid() && fresh(portfolio.Objects() - old(portfolio.Objects()))
      ensures portfolio.View() == after && tradeLog == old(tradeLog) + [entry]
    {
      hide D.RunDay, D.FeasibleDay, S.TotalValue;
      RunSlots(day);
      var equity := portfolio.TotalValue(day.closing);
      tradeLog := tradeLog + [D.EndOfDay(day.date, equity)];
    }

    /** One slot of a day; the equity it computes in between is not used. */
    method RunSlot(o: D.Offer, regime: S.Regime, buysBefore: nat) returns (buys: nat, ghost part: seq<S.Event>)
      requires portfolio.Valid() && D.FeasibleOffer(o)
      modifies portfolio`cash, portfolio`positions, portfolio`tradeLog, portfolio.Objects()
      ensures portfolio.Valid() && fresh(portfolio.Objects() - old(portfolio.Objects()))
      ensures var sold := S.ProcessSlot(old(portfolio.View()), o.slot, portfolio.config);
              var bought := D.BuyTrace(sold, o.slot, o.candidates, regime, buysBefore, Setup());
              part == [S.SlotEvent(o.slot)] + bought.0 && buys == bought.1
      ensures S.AllFeasible(part) && portfolio.View() == S.Run(old(portfolio.View()), part, portfolio.config, args)
    {
      ghost var s0 := portfolio.View();
      ghost var first := S.SlotEvent(o.slot);
      S.RunOne(s0, first, portfolio.config, args);
      portfolio.ProcessSlot(o.slot);
      ghost var bought := D.BuyTrace(portfolio.View(), o.slot, o.candidates, regime, buysBefore, Setup());
      part := [first] + bought.0;
      S.RunAppend(s0, [first], bought.0, portfolio.config, args);
      if buysBefore >= args.maxBuysPerDay {
        buys := buysBefore;
        assert portfolio.View() == S.Run(portfolio.View(), [], portfolio.config, args);
      } else {
        buys := TryCandidates(o, regime, buysBefore);
      }
    }

    /** The whole backtest over a calendar of tradable days. */
    method Run(days: seq<D.Day>)
      requires portfolio.Valid() && forall i :: 0 <= i < |days| ==> D.FeasibleDay(days[i])
      modifies this`tradeLog, portfolio`cash, portfolio`positions, portfolio`tradeLog, portfolio.Objects()
      ensures portfolio.Valid()
      ensures portfolio.View() == D.RunCalendar(old(portfolio.View()), days, Setup())
      ensures tradeLog == old(tradeLog) + D.EquityCurve(old(portfolio.View()), days, Setup())
    {
      hide D.IsDay, D.RunCalendar, D.EquityCurve;
      ghost var stages := D.CalendarStages(portfolio.View(), days, Setup());
      ghost var curve := D.EquityCurve(portfolio.View(), days, Setup());
      for i := 0 to |days|
        invariant portfolio.Valid() && fresh(portfolio.Objects() - old(portfolio.Objects()))
        invariant portfolio.View() == stages[i]
        invariant tradeLog == old(tradeLog) + curve[..i]
      {
        assert D.IsDay(stages[i], days[i], stages[i + 1], curve[i], Setup());
        RunDay(days[i], stages[i + 1], curve[i]);
        assert curve[..i + 1] == curve[..i] + [curve[i]];
      }
      assert curve[..|days|] == curve;
    }
  }
}
