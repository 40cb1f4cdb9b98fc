/** The mutable portfolio engine: cash, a dictionary of positions and a trade log, all updated in place. */
module PortfolioEngine {
  import opened Prelude
  import opened MarketData
  import S = EngineSpec

  class Position {
    const code: string
    var quantity: int
    const avgPrice: real
    const entryDate: int
    var stopLossPrice: real
    const targetPrice: real
    const atr: real
    const sector: string
    const originalQuantity: int
    var soldRatio: real
    var highPrice: real

    constructor (h: S.Holding)
      ensures View() == h
    {
      code, quantity, avgPrice, entryDate := h.code, h.quantity, h.avgPrice, h.entryDate;
      stopLossPrice, targetPrice, atr, sector := h.stopLossPrice, h.targetPrice, h.atr, h.sector;
      originalQuantity, soldRatio, highPrice := h.originalQuantity, h.soldRatio, h.highPrice;
    }

    function View(): S.Holding
      reads this
    {
      S.Holding(code, quantity, avgPrice, entryDate, stopLossPrice, targetPrice, atr, sector,
                originalQuantity, soldRatio, highPrice)
    }
  }

  ghost function Views(ps: seq<Position>): (hs: seq<S.Holding>)
    reads ps
    ensures |hs| == |ps|
    ensures forall i :: 0 <= i < |ps| ==> hs[i] == ps[i].View()
  {
    seq(|ps|, i requires 0 <= i < |ps| reads ps => ps[i].View())
  }

  /** No two places of the dictionary share an object. */
  ghost predicate Unshared(ps: seq<Position>) {
    ps == [] || (ps[|ps| - 1] !in ps[..|ps| - 1] && Unshared(ps[..|ps| - 1]))
  }

  lemma {:induction false} UnsharedFrom(ps: seq<Position>, k: nat)
    requires Unshared(ps) && k < |ps|
    ensures forall j :: 0 <= j < |ps| && j != k ==> ps[j] != ps[k]
  {
    var front := ps[..|ps| - 1];
    if k == |front| {
      assert forall j :: 0 <= j < k ==> ps[j] in front;
    } else {
      UnsharedFrom(front, k);
      assert front[k] == ps[k] && ps[k] in front;
      assert forall j :: 0 <= j < |front| ==> ps[j] == front[j];
    }
  }

  lemma {:induction false} UnsharedWithout(ps: seq<Position>, k: nat)
    requires Unshared(ps) && k < |ps|
    ensures Unshared(ps[..k] + ps[k + 1..])
  {
    var front, last := ps[..|ps| - 1], ps[|ps| - 1];
    if k == |ps| - 1 {
      assert ps[..k] + ps[k + 1..] == front;
    } else {
      UnsharedWithout(front, k);
      var rest := front[..k] + front[k + 1..];
      assert ps[..k] + ps[k + 1..] == rest + [last];
      assert (rest + [last])[..|rest|] == rest;
    }
  }

  /** Every place of the dictionary holds one of these objects. */
  ghost predicate Owned(ps: seq<Position>, owner: set<Position>) {
    forall i :: 0 <= i < |ps| ==> ps[i] in owner
  }

  class Engine {
    const config: S.EngineConfig
    const initialCapital: real
    var cash: real
    /** The values of the dictionary of positions, in insertion order; each is keyed by its code. */
    var positions: seq<Position>
    var tradeLog: seq<S.Trade>

    /** The objects in the dictionary. */
    ghost function Objects(): set<Position>
      reads this
    {
      set p <- positions
    }

    ghost predicate Valid()
      reads this, positions
    {
      Unshared(positions) && S.AllSound(Views(positions))
    }

    ghost function View(): S.State
      reads this, positions
    {
      S.State(cash, Views(positions), tradeLog)
    }

    constructor (initialCapital: real, config: S.EngineConfig)
      ensures Valid() && View() == S.Start(initialCapital) && positions == []
      ensures this.config == config && this.initialCapital == initialCapital
    {
      this.config, this.initialCapital := config, initialCapital;
      cash, positions, tradeLog := initialCapital, [], [];
    }

    /** The branches of the slot loop, on a position whose stop and high are already marked. */
    method Classify(pos: Position, price: real, row: Row, slot: S.Slot) returns (d: S.Decision)
      requires S.Sound(pos.View())
      ensures d == S.Decide(pos.View(), price, row, slot, config)
    {
      var estimatedProceeds := price * pos.quantity as real * (1.0 - S.FEE_SELL);
      var costBasis := pos.avgPrice * pos.quantity as real;
      var profit := (estimatedProceeds - costBasis) / costBasis;
      d := S.Keep;
      if price <= pos.stopLossPrice {
        d := S.Exit("ATR_STOP");
      } else if profit <= slot.risk.stopLossPct.GetOr(-config.baseStopLossPct) {
        d := S.Exit("DYNAMIC_STOP");
      } else if profit >= slot.risk.targetProfitPct.GetOr(config.targetProfitPct) {
        d := S.Exit("TARGET_PROFIT");
      } else {
        if row.rsi.Some? && pos.soldRatio < 0.99 {
          var rsi := row.rsi.value;
          if rsi >= slot.rsi3 && pos.soldRatio < 0.8 {
            return S.Partial("RSI_TAKE_PROFIT_80", 0.2);
          } else if rsi >= slot.rsi2 && pos.soldRatio < 0.5 {
            return S.Partial("RSI_TAKE_PROFIT_75", 0.5);
          } else if rsi >= slot.rsi1 && pos.soldRatio < 0.3 {
            return S.Partial("RSI_TAKE_PROFIT_70", 0.3);
          }
        }
        if row.ma5.Some? && row.ma20.Some? && row.ma5.value < row.ma20.value
           && pos.highPrice > pos.avgPrice * 1.02 {
          d := S.Exit("DEATH_CROSS");
        }
        var holdingDays := (slot.timestamp - pos.entryDate) / S.MINUTES_PER_DAY;
        if holdingDays >= config.maxHoldDays {
          d := S.Exit("TIME_EXIT");
        }
      }
    }

    /** Sell all of the position at place `k` and drop its key. */
    method SellAll(k: nat, price: real, reason: string, timestamp: int)
      requires Unshared(positions) && k < |positions|
      modifies this`cash, this`positions, this`tradeLog
      ensures Unshared(positions) && positions == old(positions)[..k] + old(positions)[k + 1..]
      ensures var h := old(positions[k].View());
              var t := S.SellTrade(h, h.quantity, price, reason, timestamp);
              cash == old(cash) + S.CashOf(t) && tradeLog == old(tradeLog) + [t]
    {
      var pos := positions[k];
      var proceeds := Worth(pos.quantity, price);
      var fee := proceeds * S.FEE_SELL;
      cash := cash + (proceeds - fee);
      tradeLog := tradeLog + [S.Trade(S.Sell, pos.code, price, pos.quantity, reason, timestamp, fee)];
      UnsharedWithout(positions, k);
      positions := positions[..k] + positions[k + 1..];
    }

    /** The partial-sale branch: sell a tier's shares, and drop the key when nothing is left. */
    method SellPart(k: nat, increment: real, price: real, reason: string, timestamp: int)
      requires Unshared(positions) && k < |positions|
      modifies this`cash, this`positions, this`tradeLog, positions[k]
      ensures Unshared(positions)
      ensures var h := old(positions[k].View());
              var q := S.TierQuantity(h, increment);
              var t := S.SellTrade(h, q, price, reason, timestamp);
              && cash == old(cash) + S.CashOf(t) && tradeLog == old(tradeLog) + [t]
              && old(positions[k]).View() == S.AfterPartial(h, increment)
              && positions == if h.quantity - q <= 0 then old(positions)[..k] + old(positions)[k + 1..]
                              else old(positions)
    {
      var pos := positions[k];
      ghost var h := pos.View();
      var targetRatio := Min(1.0, pos.soldRatio + increment);
      var wanted := S.LotShare(pos.originalQuantity, pos.soldRatio, targetRatio);
      var sellQty := if wanted >= 1 then wanted else 1;
      sellQty := if sellQty <= pos.quantity then sellQty else pos.quantity;
      assert sellQty == S.TierQuantity(h, increment);
      var proceeds := Worth(sellQty, price);
      var fee := proceeds * S.FEE_SELL;
      cash := cash + (proceeds - fee);
      pos.quantity := pos.quantity - sellQty;
      pos.soldRatio := targetRatio;
      tradeLog := tradeLog + [S.Trade(S.Sell, pos.code, price, sellQty, reason, timestamp, fee)];
      if pos.quantity <= 0 {
        UnsharedWithout(positions, k);
        positions := positions[..k] + positions[k + 1..];
      }
    }

    /** One turn of the slot loop. */
    method ProcessPosition(k: nat, slot: S.Slot) returns (survives: bool)
      requires Unshared(positions) && k < |positions|
      requires S.Sound(positions[k].View())
      modifies this`cash, this`positions, this`tradeLog, positions[k]
      ensures Unshared(positions)
      ensures positions == if survives then old(positions) else old(positions)[..k] + old(positions)[k + 1..]
      ensures var out := S.StepHolding(old(positions[k].View()), slot, config);
              && out.next == (if survives then [old(positions[k]).View()] else [])
              && cash == old(cash) + S.CashFlow(out.sales)
              && tradeLog == old(tradeLog) + out.sales
    {
      var pos := positions[k];
      ghost var h := pos.View();
      S.CashFlowOne();
      var found := slot.RowOf(pos.code);
      if found.None? {
        return true;
      }
      var row := found.value;
      var price := slot.price(pos.code);
      var atr := if row.atr.Some? then row.atr.value else pos.atr;
      var trailing := price - atr * config.stopLossAtrMult;
      if trailing > pos.stopLossPrice {
        pos.stopLossPrice := trailing;
      }
      pos.highPrice := Max(pos.highPrice, price);
      assert trailing == S.TrailingStop(price, row, h.atr, config);
      assert pos.View() == S.Mark(h, price, row, config);
      var d := Classify(pos, price, row, slot);
      match d {
        case Keep => survives := true;
        case Exit(reason) =>
          SellAll(k, price, reason, slot.timestamp);
          survives := false;
        case Partial(reason, increment) =>
          SellPart(k, increment, price, reason, slot.timestamp);
          survives := pos.quantity > 0;
      }
    }

    /** One turn of the slot loop, seen on the whole dictionary. */
    method Turn(k: nat, slot: S.Slot, ghost after: S.State, ghost k': nat, ghost owner: set<Position>)
      returns (survives: bool)
      requires Unshared(positions) && Owned(positions, owner) && k < |positions|
      requires S.IsTurn(View(), k, after, k', slot, config)
      modifies this`cash, this`positions, this`tradeLog, positions[k]
      ensures Unshared(positions) && Owned(positions, owner)
      ensures View() == after && k' == if survives then k + 1 else k
    {
      hide S.StepHolding, S.CashFlow;
      UnsharedFrom(positions, k);
      survives := ProcessPosition(k, slot);
      assert Views(positions) == after.held;
    }

    method ProcessSlot(slot: S.Slot)
      requires Valid()
      modifies this`cash, this`positions, this`tradeLog, Objects()
      ensures Valid() && Objects() <= old(Objects())
      ensures View() == S.ProcessSlot(old(View()), slot, config)
    {
      ghost var owner := Objects();
      ghost var stages, counts := S.Stages(View(), slot, config);
      var k, n := 0, |positions|;
      for i := 0 to n
        invariant Unshared(positions) && Owned(positions, owner)
        invariant View() == stages[i] && k == counts[i]
      {
        assert S.IsTurn(stages[i], counts[i], stages[i + 1], counts[i + 1], slot, config);
        var survives := Turn(k, slot, stages[i + 1], counts[i + 1], owner);
        if survives {
          k := k + 1;
        }
      }
    }

    method TotalValue(slot: S.Slot) returns (equity: real)
      ensures equity == S.TotalValue(View(), slot)
    {
      ghost var H := Views(positions);
      equity := cash;
      for i := 0 to |positions|
        invariant equity == cash + S.HeldValue(H[..i], slot)
      {
        assert H[..i + 1][..i] == H[..i];
        var pos := positions[i];
        if slot.RowOf(pos.code).Some? {
          equity := equity + Worth(pos.quantity, slot.price(pos.code));
        }
      }
      assert H[..|positions|] == H;
    }

    method Snapshot(slot: S.Slot) returns (equity: real, exposures: map<string, real>, holdings: map<string, real>)
      ensures equity == S.TotalValue(View(), slot)
      ensures exposures == S.Exposures(View().held, slot)
      ensures holdings == S.HoldingValues(View().held, slot)
    {
      ghost var H := Views(positions);
      equity, exposures, holdings := cash, map[], map[];
      for i := 0 to |positions|
        invariant equity == cash + S.HeldValue(H[..i], slot)
        invariant exposures == S.Exposures(H[..i], slot)
        invariant holdings == S.HoldingValues(H[..i], slot)
      {
        assert H[..i + 1][..i] == H[..i];
        var pos := positions[i];
        if slot.RowOf(pos.code).Some? {
          var value := Worth(pos.quantity, slot.price(pos.code));
          exposures := exposures[pos.sector := S.GetOrZero(exposures, pos.sector) + value];
          holdings := holdings[pos.code := value];
          equity := equity + value;
        }
      }
      assert H[..|positions|] == H;
    }

    method CanAddPosition() returns (b: bool)
      ensures b == (|View().held| < config.maxPositions)
    {
      b := |positions| < config.maxPositions;
    }

    /** The place of a code in the dictionary, or its size when absent. */
    method PlaceOf(code: string) returns (k: nat)
      ensures k <= |positions|
      ensures forall i :: 0 <= i < k ==> View().held[i].code != code
      ensures k < |positions| ==> positions[k].code == code
      ensures k < |positions| <==> S.Holds(View().held, code)
    {
      k := 0;
      while k < |positions| && positions[k].code != code
        invariant k <= |positions|
        invariant forall i :: 0 <= i < k ==> View().held[i].code != code
      {
        k := k + 1;
      }
      assert k < |positions| ==> View().held[k].code == code;
    }

    /** `self.positions[pos.code] = pos` */
    method PutPosition(pos: Position)
      requires Unshared(positions) && pos !in positions
      modifies this`positions
      ensures Unshared(positions) && Objects() <= old(Objects()) + {pos}
      ensures Views(positions) == S.Put(old(Views(positions)), pos.View())
    {
      hide S.Put, Unshared;
      ghost var before := Views(positions);
      var k := PlaceOf(pos.code);
      UnsharedPut(positions, k, pos);
      S.PutAtPlace(before, pos.View(), k);
      if k < |positions| {
        positions := positions[k := pos];
        assert Views(positions) == before[k := pos.View()];
      } else {
        positions := positions + [pos];
        assert Views(positions) == before + [pos.View()];
      }
    }

    method ExecuteBuy(c: S.Candidate, quantity: int, slot: S.Slot, atr: real, sector: string) returns (executed: bool)
      requires Valid() && c.price > 0.0
      modifies this`cash, this`positions, this`tradeLog
      ensures Valid() && fresh(Objects() - old(Objects()))
      ensures executed == S.BuyAffordable(old(View()), c, quantity)
      ensures View() == S.ExecuteBuy(old(View()), c, quantity, slot, atr, sector, config)
    {
      var cost := Worth(quantity, c.price);
      var fee := cost * S.FEE_BUY;
      var totalCost := cost + fee;
      if quantity <= 0 || totalCost > cash {
        return false;
      }
      var stopLossPct := Abs(slot.risk.stopLossPct.GetOr(-config.baseStopLossPct));
      var targetProfitPct := slot.risk.targetProfitPct.GetOr(config.targetProfitPct);
      var h := S.Holding(c.code, quantity, c.price, slot.timestamp,
                         c.price * (1.0 - stopLossPct), c.price * (1.0 + targetProfitPct),
                         atr, sector, quantity, 0.0, c.price);
      assert h == S.NewHolding(c, quantity, slot, atr, sector, config);
      Commit(h, totalCost, S.Trade(S.Buy, c.code, c.price, quantity, c.signal, slot.timestamp, fee));
      return true;
    }

    /** Store the new position, pay for it and log the trade. */
    method Commit(h: S.Holding, totalCost: real, t: S.Trade)
      requires Valid() && S.Sound(h)
      modifies this`cash, this`positions, this`tradeLog
      ensures Valid() && fresh(Objects() - old(Objects()))
      ensures View() == S.State(old(cash) - totalCost, S.Put(old(View()).held, h), old(tradeLog) + [t])
    {
      hide S.Put, S.AllSound, S.Sound, Unshared;
      ghost var held := Views(positions);
      var pos := new Position(h);
      assert Views(positions) == held;
      PutPosition(pos);
      assert S.AllSound(Views(positions));
      cash := cash - totalCost;
      tradeLog := tradeLog + [t];
    }
  }

  lemma {:induction false} UnsharedPut(ps: seq<Position>, k: nat, pos: Position)
    requires Unshared(ps) && k <= |ps| && pos !in ps
    ensures Unshared(if k < |ps| then ps[k := pos] else ps + [pos])
  {
    if k == |ps| {
      assert (ps + [pos])[..|ps|] == ps;
    } else {
      var front := ps[..|ps| - 1];
      if k == |front| {
        assert ps[k := pos][..k] == front;
      } else {
        UnsharedPut(front, k, pos);
        assert ps[k := pos][..|front|] == front[k := pos];
      }
    }
  }
}
