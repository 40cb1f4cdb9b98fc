/** The portfolio engine as a transition system on values.
 *
 * The dictionary of positions is a sequence of holdings with distinct codes, in insertion order.
 * The classes in `PortfolioEngine` and `BacktestDriver` are proved against these functions.
 */
module EngineSpec {
  import opened Prelude
  import opened MarketData

  const FEE_BUY: real := 0.0000841
  const FEE_SELL: real := 0.0005841
  const MINUTES_PER_DAY := 1440

  datatype EngineConfig = EngineConfig(
    maxPositionPct: real,
    maxPositions: int,
    targetProfitPct: real,
    baseStopLossPct: real,
    stopLossAtrMult: real,
    maxHoldDays: int)

  datatype RiskSetting = RiskSetting(
    stopLossPct: Option<real>,
    targetProfitPct: Option<real>,
    positionSizeRatio: Option<real>)

  datatype Side = Buy | Sell

  datatype Trade = Trade(
    side: Side,
    code: string,
    price: real,
    quantity: int,
    reason: string,
    date: int,
    fee: real)

  datatype Holding = Holding(
    code: string,
    quantity: int,
    avgPrice: real,
    entryDate: int,
    stopLossPrice: real,
    targetPrice: real,
    atr: real,
    sector: string,
    originalQuantity: int,
    soldRatio: real,
    highPrice: real)

  datatype State = State(cash: real, held: seq<Holding>, log: seq<Trade>)

  datatype Candidate = Candidate(code: string, price: real, signal: string, llmScore: real)

  /** What one intraday slot offers: the clock, live prices, daily rows, and the regime's settings. */
  datatype Slot = Slot(
    timestamp: int,
    tradeDate: int,
    price: string -> real,
    cache: PriceCache,
    risk: RiskSetting,
    rsi1: real,
    rsi2: real,
    rsi3: real)
  {
    function RowOf(code: string): Option<Row> {
      RowFor(cache, code, tradeDate)
    }
  }

  /** A holding whose profit is defined: the source divides by its cost basis. */
  predicate Sound(h: Holding) {
    h.quantity >= 1 && h.avgPrice > 0.0
  }

  predicate AllSound(hs: seq<Holding>) {
    forall i :: 0 <= i < |hs| ==> Sound(hs[i])
  }

  // ---------------------------------------------------------------------------
  // Looking up codes
  // ---------------------------------------------------------------------------

  predicate Holds(hs: seq<Holding>, code: string) {
    exists i :: 0 <= i < |hs| && hs[i].code == code
  }

  predicate DistinctCodes(hs: seq<Holding>) {
    forall i, j :: 0 <= i < j < |hs| ==> hs[i].code != hs[j].code
  }

  // ---------------------------------------------------------------------------
  // One holding in one slot
  // ---------------------------------------------------------------------------

  /** The stop a price offers; a missing ATR falls back to the one at entry. */
  function TrailingStop(price: real, row: Row, entryAtr: real, cfg: EngineConfig): real {
    price - row.atr.GetOr(entryAtr) * cfg.stopLossAtrMult
  }

  /** Ratchet the stop and the running high. */
  function Mark(h: Holding, price: real, row: Row, cfg: EngineConfig): Holding {
    var trailing := TrailingStop(price, row, h.atr, cfg);
    h.(stopLossPrice := if trailing > h.stopLossPrice then trailing else h.stopLossPrice,
       highPrice := Max(h.highPrice, price))
  }

  function Profit(h: Holding, price: real): real
    requires Sound(h)
  {
    var costBasis := h.avgPrice * h.quantity as real;
    (price * h.quantity as real * (1.0 - FEE_SELL) - costBasis) / costBasis
  }

  function StopLossOf(risk: RiskSetting, cfg: EngineConfig): real {
    risk.stopLossPct.GetOr(-cfg.baseStopLossPct)
  }

  function TargetOf(risk: RiskSetting, cfg: EngineConfig): real {
    risk.targetProfitPct.GetOr(cfg.targetProfitPct)
  }

  datatype Decision = Keep | Exit(reason: string) | Partial(reason: string, increment: real)

  /** The three RSI tiers, highest first; a tier needs its own room left in the sold ratio. */
  function RsiTier(soldRatio: real, rsi: Option<real>, slot: Slot): Decision {
    if rsi.None? || soldRatio >= 0.99 then Keep
    else if rsi.value >= slot.rsi3 && soldRatio < 0.8 then Partial("RSI_TAKE_PROFIT_80", 0.2)
    else if rsi.value >= slot.rsi2 && soldRatio < 0.5 then Partial("RSI_TAKE_PROFIT_75", 0.5)
    else if rsi.value >= slot.rsi1 && soldRatio < 0.3 then Partial("RSI_TAKE_PROFIT_70", 0.3)
    else Keep
  }

  predicate DeathCross(h: Holding, row: Row) {
    row.ma5.Some? && row.ma20.Some? && row.ma5.value < row.ma20.value && h.highPrice > h.avgPrice * 1.02
  }

  function AgeInDays(h: Holding, timestamp: int): int {
    (timestamp - h.entryDate) / MINUTES_PER_DAY
  }

  /** What happens to a marked holding: stops first, then an RSI tier, which preempts the late exits. */
  function Decide(h: Holding, price: real, row: Row, slot: Slot, cfg: EngineConfig): Decision
    requires Sound(h)
  {
    if price <= h.stopLossPrice then Exit("ATR_STOP")
    else if Profit(h, price) <= StopLossOf(slot.risk, cfg) then Exit("DYNAMIC_STOP")
    else if Profit(h, price) >= TargetOf(slot.risk, cfg) then Exit("TARGET_PROFIT")
    else
      var tier := RsiTier(h.soldRatio, row.rsi, slot);
      if tier.Partial? then tier
      else if AgeInDays(h, slot.timestamp) >= cfg.maxHoldDays then Exit("TIME_EXIT")
      else if DeathCross(h, row) then Exit("DEATH_CROSS")
      else Keep
  }

  /** `int(original_quantity * sell_ratio)` for a sold ratio going from one value to another. */
  function LotShare(original: int, soldRatio: real, targetRatio: real): int {
    Trunc(original as real * (targetRatio - soldRatio))
  }

  /** Shares sold by a tier: its part of the original lot, at least one, at most what is left. */
  function TierQuantity(h: Holding, increment: real): int {
    var targetRatio := Min(1.0, h.soldRatio + increment);
    var wanted := LotShare(h.originalQuantity, h.soldRatio, targetRatio);
    var atLeastOne := if wanted >= 1 then wanted else 1;
    if atLeastOne <= h.quantity then atLeastOne else h.quantity
  }

  function SellTrade(h: Holding, quantity: int, price: real, reason: string, timestamp: int): Trade {
    Trade(Sell, h.code, price, quantity, reason, timestamp, Worth(quantity, price) * FEE_SELL)
  }

  function AfterPartial(h: Holding, increment: real): Holding {
    h.(quantity := h.quantity - TierQuantity(h, increment), soldRatio := Min(1.0, h.soldRatio + increment))
  }

  datatype Outcome = Outcome(next: seq<Holding>, sales: seq<Trade>)

  /** One holding through one slot: what is left of it (nothing or one holding) and what was sold. */
  function StepHolding(h: Holding, slot: Slot, cfg: EngineConfig): (o: Outcome)
    requires Sound(h)
    ensures |o.next| <= 1 && (o.next == [] ==> |o.sales| == 1)
    ensures o.next != [] ==> Sound(o.next[0]) && o.next[0].code == h.code
  {
    var found := slot.RowOf(h.code);
    if found.None? then Outcome([h], [])
    else
      var price := slot.price(h.code);
      var m := Mark(h, price, found.value, cfg);
      match Decide(m, price, found.value, slot, cfg)
      case Keep => Outcome([m], [])
      case Exit(reason) => Outcome([], [SellTrade(m, m.quantity, price, reason, slot.timestamp)])
      case Partial(reason, increment) =>
        var left := AfterPartial(m, increment);
        Outcome(if left.quantity <= 0 then [] else [left],
                [SellTrade(m, TierQuantity(m, increment), price, reason, slot.timestamp)])
  }

  // ---------------------------------------------------------------------------
  // All holdings in one slot
  // ---------------------------------------------------------------------------

  function Survivors(hs: seq<Holding>, slot: Slot, cfg: EngineConfig): (kept: seq<Holding>)
    requires AllSound(hs)
    ensures AllSound(kept)
  {
    if hs == [] then []
    else Survivors(hs[..|hs| - 1], slot, cfg) + StepHolding(hs[|hs| - 1], slot, cfg).next
  }

  function Sales(hs: seq<Holding>, slot: Slot, cfg: EngineConfig): seq<Trade>
    requires AllSound(hs)
  {
    if hs == [] then []
    else Sales(hs[..|hs| - 1], slot, cfg) + StepHolding(hs[|hs| - 1], slot, cfg).sales
  }

  /** What a trade adds to the cash balance. */
  function CashOf(t: Trade): real {
    if t.side.Buy? then -(Worth(t.quantity, t.price) + t.fee) else Worth(t.quantity, t.price) - t.fee
  }

  function CashFlow(log: seq<Trade>): real {
    if log == [] then 0.0 else CashFlow(log[..|log| - 1]) + CashOf(log[|log| - 1])
  }

  lemma CashFlowOne()
    ensures CashFlow([]) == 0.0
    ensures forall t :: CashFlow([t]) == CashOf(t)
  {
    forall t ensures CashFlow([t]) == CashOf(t) {
      assert [t][..0] == [];
    }
  }

  lemma {:induction false} CashFlowAppend(a: seq<Trade>, b: seq<Trade>)
    ensures CashFlow(a + b) == CashFlow(a) + CashFlow(b)
  {
    if b == [] {
      assert a + b == a;
    } else {
      CashFlowAppend(a, b[..|b| - 1]);
      assert (a + b)[..|a + b| - 1] == a + b[..|b| - 1];
    }
  }

  function ProcessSlot(s: State, slot: Slot, cfg: EngineConfig): (r: State)
    requires AllSound(s.held)
    ensures AllSound(r.held)
  {
    var sales := Sales(s.held, slot, cfg);
    State(s.cash + CashFlow(sales), Survivors(s.held, slot, cfg), s.log + sales)
  }

  /** The state after the slot loop has handled the first `i` holdings. */
  function Midway(s: State, i: nat, slot: Slot, cfg: EngineConfig): State
    requires AllSound(s.held) && i <= |s.held|
  {
    var sales := Sales(s.held[..i], slot, cfg);
    State(s.cash + CashFlow(sales), Survivors(s.held[..i], slot, cfg) + s.held[i..], s.log + sales)
  }

  /** One turn of the slot loop, on the holding at place `k`: replaced where it stands, or dropped. */
  function TurnAt(s: State, k: nat, slot: Slot, cfg: EngineConfig): State
    requires k < |s.held| && Sound(s.held[k])
  {
    var out := StepHolding(s.held[k], slot, cfg);
    State(s.cash + CashFlow(out.sales),
          Replace(s.held, k, out.next),
          s.log + out.sales)
  }

  /** The element at place `k` replaced by the one given, or dropped when none is. */
  function Replace<T>(all: seq<T>, k: nat, next: seq<T>): seq<T>
    requires k < |all|
  {
    if next != [] then all[k := next[0]] else all[..k] + all[k + 1..]
  }

  lemma MidwayEnds(s: State, slot: Slot, cfg: EngineConfig)
    requires AllSound(s.held)
    ensures Midway(s, 0, slot, cfg) == s
    ensures Midway(s, |s.held|, slot, cfg) == ProcessSlot(s, slot, cfg)
  {
    assert s.held[..0] == [] && s.held[..|s.held|] == s.held;
  }

  lemma MidwayTurn(s: State, i: nat, k: nat, slot: Slot, cfg: EngineConfig)
    requires AllSound(s.held) && i < |s.held|
    requires k == |Survivors(s.held[..i], slot, cfg)|
    ensures k < |Midway(s, i, slot, cfg).held| && Midway(s, i, slot, cfg).held[k] == s.held[i]
    ensures TurnAt(Midway(s, i, slot, cfg), k, slot, cfg) == Midway(s, i + 1, slot, cfg)
    ensures |Survivors(s.held[..i + 1], slot, cfg)|
            == if StepHolding(s.held[i], slot, cfg).next != [] then k + 1 else k
  {
    var out := StepHolding(s.held[i], slot, cfg);
    var kept, sales := Survivors(s.held[..i], slot, cfg), Sales(s.held[..i], slot, cfg);
    PrefixGrows(s.held, i, slot, cfg);
    CashFlowAppend(sales, out.sales);
    ReplacePlace(kept, s.held, i, out.next);
    Associative(s.log, sales, out.sales);
  }

  /** One turn of the slot loop leads from one state to the next, with the survivors counted so far. */
  predicate IsTurn(before: State, k: nat, after: State, k': nat, slot: Slot, cfg: EngineConfig) {
    && k < |before.held| && Sound(before.held[k])
    && after == TurnAt(before, k, slot, cfg)
    && k' == if StepHolding(before.held[k], slot, cfg).next != [] then k + 1 else k
  }

  /** The states the slot loop passes through, one more than there are holdings. */
  lemma Stages(s: State, slot: Slot, cfg: EngineConfig) returns (stages: seq<State>, counts: seq<nat>)
    requires AllSound(s.held)
    ensures |stages| == |counts| == |s.held| + 1
    ensures stages[0] == s && counts[0] == 0
    ensures stages[|s.held|] == ProcessSlot(s, slot, cfg)
    ensures forall i :: 0 <= i < |s.held| ==> IsTurn(stages[i], counts[i], stages[i + 1], counts[i + 1], slot, cfg)
  {
    stages := seq(|s.held| + 1, i requires 0 <= i <= |s.held| => Midway(s, i, slot, cfg));
    counts := seq(|s.held| + 1, i requires 0 <= i <= |s.held| => |Survivors(s.held[..i], slot, cfg)|);
    MidwayEnds(s, slot, cfg);
    forall i | 0 <= i < |s.held|
      ensures IsTurn(stages[i], counts[i], stages[i + 1], counts[i + 1], slot, cfg)
    {
      MidwayTurn(s, i, counts[i], slot, cfg);
    }
  }

  lemma PrefixGrows(hs: seq<Holding>, i: nat, slot: Slot, cfg: EngineConfig)
    requires AllSound(hs) && i < |hs|
    ensures Survivors(hs[..i + 1], slot, cfg) == Survivors(hs[..i], slot, cfg) + StepHolding(hs[i], slot, cfg).next
    ensures Sales(hs[..i + 1], slot, cfg) == Sales(hs[..i], slot, cfg) + StepHolding(hs[i], slot, cfg).sales
  {
    assert hs[..i + 1][..i] == hs[..i];
  }

  lemma ReplacePlace<T>(kept: seq<T>, all: seq<T>, i: nat, next: seq<T>)
    requires i < |all| && |next| <= 1
    ensures (kept + all[i..])[|kept|] == all[i]
    ensures Replace(kept + all[i..], |kept|, next) == kept + next + all[i + 1..]
  {
    var now := kept + all[i..];
    assert now[..|kept|] == kept && now[|kept| + 1..] == all[i + 1..];
    if next != [] {
      assert next == [next[0]];
      assert now[|kept| := next[0]] == kept + next + all[i + 1..];
    }
  }

  lemma Associative<T>(a: seq<T>, b: seq<T>, c: seq<T>)
    ensures a + b + c == a + (b + c)
  {
  }

  // ---------------------------------------------------------------------------
  // Valuation
  // ---------------------------------------------------------------------------

  /** Worth of one holding; a holding without a row is skipped. */
  function HoldingValue(h: Holding, slot: Slot): real {
    if slot.RowOf(h.code).None? then 0.0 else Worth(h.quantity, slot.price(h.code))
  }

  function HeldValue(hs: seq<Holding>, slot: Slot): real {
    if hs == [] then 0.0 else HeldValue(hs[..|hs| - 1], slot) + HoldingValue(hs[|hs| - 1], slot)
  }

  function TotalValue(s: State, slot: Slot): real {
    s.cash + HeldValue(s.held, slot)
  }

  function SectorValue(hs: seq<Holding>, sector: string, slot: Slot): real {
    if hs == [] then 0.0
    else SectorValue(hs[..|hs| - 1], sector, slot)
         + if hs[|hs| - 1].sector == sector then HoldingValue(hs[|hs| - 1], slot) else 0.0
  }

  /** Exposure per sector, as `snapshot` accumulates it. */
  function Exposures(hs: seq<Holding>, slot: Slot): map<string, real> {
    if hs == [] then map[]
    else
      var before, h := Exposures(hs[..|hs| - 1], slot), hs[|hs| - 1];
      if slot.RowOf(h.code).None? then before
      else before[h.sector := (if h.sector in before then before[h.sector] else 0.0) + HoldingValue(h, slot)]
  }

  /** Value per held code, as `snapshot` collects it. */
  function HoldingValues(hs: seq<Holding>, slot: Slot): map<string, real> {
    if hs == [] then map[]
    else
      var before, h := HoldingValues(hs[..|hs| - 1], slot), hs[|hs| - 1];
      if slot.RowOf(h.code).None? then before else before[h.code := HoldingValue(h, slot)]
  }

  /** `d.get(key, 0.0)` */
  function GetOrZero(m: map<string, real>, key: string): real {
    if key in m then m[key] else 0.0
  }

  // ---------------------------------------------------------------------------
  // Buying
  // ---------------------------------------------------------------------------

  function BuyTrade(c: Candidate, quantity: int, timestamp: int): Trade {
    Trade(Buy, c.code, c.price, quantity, c.signal, timestamp, Worth(quantity, c.price) * FEE_BUY)
  }

  function NewHolding(c: Candidate, quantity: int, slot: Slot, atr: real, sector: string, cfg: EngineConfig): Holding {
    Holding(c.code, quantity, c.price, slot.timestamp,
            c.price * (1.0 - Abs(StopLossOf(slot.risk, cfg))),
            c.price * (1.0 + TargetOf(slot.risk, cfg)),
            atr, sector, quantity, 0.0, c.price)
  }

  /** Dictionary assignment: an existing key keeps its place, a new key goes last. */
  function Put(hs: seq<Holding>, h: Holding): (r: seq<Holding>)
    ensures AllSound(hs) && Sound(h) ==> AllSound(r)
  {
    if hs == [] then [h]
    else if hs[0].code == h.code then [h] + hs[1..]
    else [hs[0]] + Put(hs[1..], h)
  }

  lemma {:induction false} PutAtPlace(hs: seq<Holding>, h: Holding, k: nat)
    requires k <= |hs| && (forall i :: 0 <= i < k ==> hs[i].code != h.code)
    requires k < |hs| ==> hs[k].code == h.code
    ensures Put(hs, h) == if k < |hs| then hs[k := h] else hs + [h]
  {
    if hs != [] && k > 0 {
      PutAtPlace(hs[1..], h, k - 1);
    }
  }

  predicate BuyAffordable(s: State, c: Candidate, quantity: int) {
    quantity > 0 && Worth(quantity, c.price) + Worth(quantity, c.price) * FEE_BUY <= s.cash
  }

  function ExecuteBuy(s: State, c: Candidate, quantity: int, slot: Slot, atr: real, sector: string,
                      cfg: EngineConfig): State
  {
    if !BuyAffordable(s, c, quantity) then s
    else
      var t := BuyTrade(c, quantity, slot.timestamp);
      State(s.cash + CashOf(t), Put(s.held, NewHolding(c, quantity, slot, atr, sector, cfg)), s.log + [t])
  }

  datatype Regime = StrongBull | Bull | Sideways | Bear | OtherRegime

  datatype DriverConfig = DriverConfig(
    llmThreshold: real,
    maxStockPct: real,
    maxSectorPct: real,
    cashKeepPct: real,
    maxBuysPerDay: int)

  function StockCap(d: DriverConfig, regime: Regime): real {
    if regime.StrongBull? then Min(20.0, d.maxStockPct * 1.5) else d.maxStockPct
  }

  function SectorCap(d: DriverConfig, regime: Regime): real {
    if regime.StrongBull? then Min(50.0, d.maxSectorPct + 10.0) else d.maxSectorPct
  }

  /** The part of a wanted quantity that fits under a percentage cap next to an existing exposure;
   *  nothing when less than half would fit. */
  function FittingQuantity(existing: real, quantity: int, price: real, equity: real, maxPct: real): int
    requires price > 0.0
  {
    var allowedValue := maxPct / 100.0 * equity - existing;
    if allowedValue <= 0.0 then 0
    else
      var allowed := WholeShares(allowedValue, price);
      if allowed <= 0 then 0
      else if allowed < quantity && allowed as real < quantity as real * 0.5 then 0
      else if quantity <= allowed then quantity else allowed
  }

  /** The regime-scaled slice of equity, never more than the cash at hand. */
  function Allocation(cash: real, equity: real, maxPositionPct: real, risk: RiskSetting): real {
    Min(cash, equity * maxPositionPct * risk.positionSizeRatio.GetOr(1.0))
  }

  /** `int(amount // price)` */
  function WholeShares(amount: real, price: real): int
    requires price > 0.0
  {
    (amount / price).Floor
  }

  function SizedQuantity(s: State, c: Candidate, slot: Slot, cfg: EngineConfig): int
    requires c.price > 0.0
  {
    WholeShares(Allocation(s.cash, TotalValue(s, slot), cfg.maxPositionPct, slot.risk), c.price)
  }

  /** The checks made before any sizing. */
  predicate Eligible(s: State, c: Candidate, slot: Slot, regime: Regime, cfg: EngineConfig, d: DriverConfig) {
    && c.llmScore >= d.llmThreshold
    && |s.held| < cfg.maxPositions
    && !Holds(s.held, c.code)
    && !regime.Bear?
    && TotalValue(s, slot) > 0.0 && s.cash > 0.0
    && slot.RowOf(c.code).Some?
  }

  /** A sized quantity cut to the stock cap, then to the sector cap, then held against the cash floor. */
  function CappedQuantity(sized: int, price: real, equity: real, cash: real, inStock: real, inSector: real,
                          stockCap: real, sectorCap: real, cashKeepPct: real): Option<int>
    requires price > 0.0
  {
    if sized <= 0 then None
    else
      var q1 := FittingQuantity(inStock, sized, price, equity, stockCap);
      if q1 <= 0 then None
      else
        var q2 := FittingQuantity(inSector, q1, price, equity, sectorCap);
        if q2 <= 0 then None
        else
          var cost := Worth(q2, price);
          if cost > cash || cash - cost < equity * (cashKeepPct / 100.0) then None else Some(q2)
  }

  /** Quantity of an admitted buy, or None when the attempt is skipped before the order. */
  function AdmittedQuantity(s: State, c: Candidate, slot: Slot, regime: Regime, sector: string,
                            cfg: EngineConfig, d: DriverConfig): Option<int>
    requires c.price > 0.0
  {
    if !Eligible(s, c, slot, regime, cfg, d) then None
    else CappedQuantity(SizedQuantity(s, c, slot, cfg), c.price, TotalValue(s, slot), s.cash,
                        GetOrZero(HoldingValues(s.held, slot), c.code), GetOrZero(Exposures(s.held, slot), sector),
                        StockCap(d, regime), SectorCap(d, regime), d.cashKeepPct)
  }

  function EntryAtr(c: Candidate, slot: Slot): real {
    match slot.RowOf(c.code)
    case None => c.price * 0.02
    case Some(row) => row.atr.GetOr(c.price * 0.02)
  }

  function AttemptBuy(s: State, c: Candidate, slot: Slot, regime: Regime, sector: string,
                      cfg: EngineConfig, d: DriverConfig): State
    requires c.price > 0.0
  {
    match AdmittedQuantity(s, c, slot, regime, sector, cfg, d)
    case None => s
    case Some(q) => ExecuteBuy(s, c, q, slot, EntryAtr(c, slot), sector, cfg)
  }

  predicate Fills(s: State, c: Candidate, slot: Slot, regime: Regime, sector: string,
                  cfg: EngineConfig, d: DriverConfig)
    requires c.price > 0.0
  {
    var q := AdmittedQuantity(s, c, slot, regime, sector, cfg, d);
    q.Some? && BuyAffordable(s, c, q.value)
  }

  // ---------------------------------------------------------------------------
  // Runs
  // ---------------------------------------------------------------------------

  datatype Event =
    | SlotEvent(slot: Slot)
    | BuyEvent(slot: Slot, candidate: Candidate, regime: Regime, sector: string)

  /** What the market and the scanner guarantee: no negative price; candidates carry their live price. */
  ghost predicate Feasible(e: Event) {
    && (forall code :: e.slot.price(code) >= 0.0)
    && (e.BuyEvent? ==>
          && e.candidate.price > 0.0
          && e.candidate.price == e.slot.price(e.candidate.code))
  }

  ghost predicate AllFeasible(es: seq<Event>) {
    forall i :: 0 <= i < |es| ==> Feasible(es[i])
  }

  ghost function Apply(s: State, e: Event, cfg: EngineConfig, d: DriverConfig): (r: State)
    requires AllSound(s.held) && Feasible(e)
    ensures AllSound(r.held)
  {
    match e
    case SlotEvent(slot) => ProcessSlot(s, slot, cfg)
    case BuyEvent(slot, c, regime, sector) => AttemptBuy(s, c, slot, regime, sector, cfg, d)
  }

  /** The state after every event of a run, in order. */
  ghost function Run(s: State, es: seq<Event>, cfg: EngineConfig, d: DriverConfig): (r: State)
    requires AllSound(s.held) && AllFeasible(es)
    ensures AllSound(r.held)
  {
    if es == [] then s else Apply(Run(s, es[..|es| - 1], cfg, d), es[|es| - 1], cfg, d)
  }

  function Start(initialCapital: real): State {
    State(initialCapital, [], [])
  }

  lemma {:induction false} RunAppend(s: State, a: seq<Event>, b: seq<Event>, cfg: EngineConfig, d: DriverConfig)
    requires AllSound(s.held) && AllFeasible(a) && AllFeasible(b)
    ensures AllFeasible(a + b)
    ensures Run(s, a + b, cfg, d) == Run(Run(s, a, cfg, d), b, cfg, d)
  {
    if b == [] {
      assert a + b == a;
    } else {
      RunAppend(s, a, b[..|b| - 1], cfg, d);
      assert (a + b)[..|a + b| - 1] == a + b[..|b| - 1];
    }
  }

  lemma RunOne(s: State, e: Event, cfg: EngineConfig, d: DriverConfig)
    requires AllSound(s.held) && Feasible(e)
    ensures Run(s, [e], cfg, d) == Apply(s, e, cfg, d)
  {
    assert [e][..0] == [];
    assert Run(s, [], cfg, d) == s;
  }
}
