/** ATR-based position sizing: the clamps applied one after another, and what they add up to. */
module PositionSizing {
  import opened Prelude

  datatype SizerConfig = SizerConfig(
    riskPerTradePct: real,
    atrMultiplier: real,
    minQuantity: int,
    maxQuantity: int,
    maxPositionValuePct: real)

  /** What the configuration currently says; a key that is not configured is missing. */
  datatype ConfigValues = ConfigValues(
    riskPerTradePct: Option<real>,
    atrMultiplier: Option<real>,
    minQuantity: Option<int>,
    maxQuantity: Option<int>,
    maxPositionValuePct: Option<real>)

  datatype Reason = NoAssets | CalculationError | SmartSkip | BelowMinimum | Sized

  datatype SizingResult = SizingResult(
    quantity: int,
    riskAmount: real,
    positionValue: real,
    riskPct: real,
    positionPct: real,
    reason: Reason)

  function CreateResult(quantity: int, reason: Reason): SizingResult {
    SizingResult(quantity, 0.0, 0.0, 0.0, 0.0, reason)
  }

  /** One sizing question: the stock, the account, and the share of assets kept in cash. */
  datatype Order = Order(price: real, atr: Option<real>, balance: real, portfolioValue: real, cashKeepPct: real) {
    function TotalAssets(): real {
      balance + portfolioValue
    }
  }

  // ---------------------------------------------------------------------------
  // Closed form
  // ---------------------------------------------------------------------------

  /** A missing or non-positive ATR is replaced by two percent of the price. */
  function EffectiveAtr(o: Order): real {
    if o.atr.None? || o.atr.value <= 0.0 then o.price * 0.02 else o.atr.value
  }

  function RiskBudget(o: Order, cfg: SizerConfig): real {
    PercentOf(o.TotalAssets(), cfg.riskPerTradePct)
  }

  function RiskPerShare(o: Order, cfg: SizerConfig): real {
    Times(EffectiveAtr(o), cfg.atrMultiplier)
  }

  function AssetCap(o: Order, cfg: SizerConfig): real {
    PercentOf(o.TotalAssets(), cfg.maxPositionValuePct)
  }

  function CashToKeep(o: Order): real {
    PercentOf(o.TotalAssets(), o.cashKeepPct)
  }

  function CashCap(o: Order): real {
    Max(0.0, o.balance - CashToKeep(o))
  }

  function ValueCap(o: Order, cfg: SizerConfig): real {
    Min(AssetCap(o, cfg), CashCap(o))
  }

  /** Shares that the risk budget pays for. */
  function RiskQuantity(o: Order, cfg: SizerConfig): int
    requires RiskPerShare(o, cfg) != 0.0
  {
    Trunc(Quotient(RiskBudget(o, cfg), RiskPerShare(o, cfg)))
  }

  function Clamp(n: int, low: int, high: int): int {
    if n < low then low else if n > high then high else n
  }

  /** Shares that the tighter of the two value caps pays for. */
  function CapQuantity(o: Order, cfg: SizerConfig): int
    requires o.price != 0.0
  {
    Trunc(Quotient(ValueCap(o, cfg), o.price))
  }

  /** A usable configuration and a priced stock. */
  predicate Sane(o: Order, cfg: SizerConfig) {
    && o.price > 0.0 && cfg.atrMultiplier > 0.0 && cfg.riskPerTradePct >= 0.0
    && 1 <= cfg.minQuantity <= cfg.maxQuantity
    && cfg.maxPositionValuePct >= 0.0
    && o.TotalAssets() > 0.0
  }

  /** The cut made by the value caps is due to cash and takes away more than half of the risk quantity. */
  predicate SkipsForCash(o: Order, cfg: SizerConfig)
    requires o.price > 0.0 && RiskPerShare(o, cfg) != 0.0
  {
    && CapQuantity(o, cfg) < Clamp(RiskQuantity(o, cfg), cfg.minQuantity, cfg.maxQuantity)
    && CashCap(o) <= AssetCap(o, cfg)
    && 2 * CapQuantity(o, cfg) < RiskQuantity(o, cfg)
  }

  /** The quantity in closed form. */
  function ClosedForm(o: Order, cfg: SizerConfig): int
    requires o.price > 0.0 && RiskPerShare(o, cfg) != 0.0
  {
    var clamped := Clamp(RiskQuantity(o, cfg), cfg.minQuantity, cfg.maxQuantity);
    var q := if CapQuantity(o, cfg) < clamped then CapQuantity(o, cfg) else clamped;
    if SkipsForCash(o, cfg) || q < cfg.minQuantity then 0 else q
  }

  lemma RiskPerSharePositive(o: Order, cfg: SizerConfig)
    requires o.price > 0.0 && cfg.atrMultiplier > 0.0
    ensures RiskPerShare(o, cfg) > 0.0
  {
    assert EffectiveAtr(o) > 0.0;
  }

  /** Truncating a non-negative quotient gives the largest count that fits. */
  lemma TruncFits(amount: real, unit: real, n: int)
    requires amount >= 0.0 && unit > 0.0
    ensures Trunc(Quotient(amount, unit)) >= 0
    ensures n <= Trunc(Quotient(amount, unit)) <==> Worth(n, unit) <= amount
  {
    QuotientTimes(amount, unit);
    FloorQuotientFits(amount, unit, n);
    FloorQuotientFits(amount, unit, 0);
  }

  /** Truncation toward zero, for amounts of either sign: a count that fits is at most the truncated quotient, one that
   *  does not fit is at least that, and more than that when the amount is not negative. */
  lemma TruncCuts(amount: real, unit: real, n: int)
    requires unit > 0.0
    ensures Worth(n, unit) <= amount ==> n <= Trunc(Quotient(amount, unit))
    ensures Worth(n, unit) > amount ==> Trunc(Quotient(amount, unit)) <= n
    ensures Worth(n, unit) > amount >= 0.0 ==> Trunc(Quotient(amount, unit)) < n
  {
    var q := Quotient(amount, unit);
    QuotientTimes(amount, unit);
    FitsIffBelow(n, unit, q);
    assert amount >= 0.0 ==> q >= 0.0;
    hide Worth, Quotient, Times;
  }

  lemma FitsIffBelow(n: int, unit: real, q: real)
    requires unit > 0.0
    ensures Worth(n, unit) <= Times(q, unit) <==> n as real <= q
  {
    if n as real <= q {
      assert (q - n as real) * unit >= 0.0;
    } else {
      assert (n as real - q) * unit > 0.0;
    }
  }

  lemma CapsNonNegative(o: Order, cfg: SizerConfig)
    requires Sane(o, cfg)
    ensures AssetCap(o, cfg) >= 0.0 && ValueCap(o, cfg) >= 0.0 && RiskBudget(o, cfg) >= 0.0
  {
    PercentSign(o.TotalAssets(), cfg.maxPositionValuePct);
    PercentSign(o.TotalAssets(), cfg.riskPerTradePct);
  }

  // ---------------------------------------------------------------------------
  // The steps of the source
  // ---------------------------------------------------------------------------

  /** The last step: too small a quantity is given up. */
  function Finish(o: Order, cfg: SizerConfig, quantity: int, riskPerShare: real): SizingResult
    requires o.TotalAssets() > 0.0
  {
    if quantity < cfg.minQuantity then CreateResult(0, BelowMinimum)
    else
      var risk := Worth(quantity, riskPerShare);
      var value := Worth(quantity, o.price);
      SizingResult(quantity, risk, value, Quotient(risk, o.TotalAssets()) * 100.0,
                   Quotient(value, o.TotalAssets()) * 100.0, Sized)
  }

  /** The value caps; a cut below half of the target for lack of cash gives up. */
  function Limit(o: Order, cfg: SizerConfig, clamped: int, target: int, riskPerShare: real): SizingResult
    requires o.TotalAssets() > 0.0
  {
    if Worth(clamped, o.price) <= ValueCap(o, cfg) then Finish(o, cfg, clamped, riskPerShare)
    else if o.price == 0.0 then CreateResult(0, CalculationError)
    else if ValueCap(o, cfg) == CashCap(o) && target > 0 && CapQuantity(o, cfg) as real < target as real * 0.5
    then CreateResult(0, SmartSkip)
    else Finish(o, cfg, CapQuantity(o, cfg), riskPerShare)
  }

  /** The whole calculation. A division by zero is caught in the source and reported as a quantity of 0. */
  function Steps(o: Order, cfg: SizerConfig): SizingResult {
    if o.TotalAssets() <= 0.0 then CreateResult(0, NoAssets)
    else if RiskPerShare(o, cfg) == 0.0 then CreateResult(0, CalculationError)
    else
      var target := RiskQuantity(o, cfg);
      Limit(o, cfg, Clamp(target, cfg.minQuantity, cfg.maxQuantity), target, RiskPerShare(o, cfg))
  }

  // ---------------------------------------------------------------------------
  // Refreshing the limits
  // ---------------------------------------------------------------------------

  function Refreshed(cfg: SizerConfig, latest: ConfigValues): SizerConfig {
    SizerConfig(
      latest.riskPerTradePct.GetOr(cfg.riskPerTradePct),
      latest.atrMultiplier.GetOr(cfg.atrMultiplier),
      latest.minQuantity.GetOr(cfg.minQuantity),
      latest.maxQuantity.GetOr(cfg.maxQuantity),
      latest.maxPositionValuePct.GetOr(cfg.maxPositionValuePct))
  }

  function RefreshedAll(cfg: SizerConfig, updates: seq<ConfigValues>): SizerConfig {
    if updates == [] then cfg else Refreshed(RefreshedAll(cfg, updates[..|updates| - 1]), updates[|updates| - 1])
  }

  /** The value most recently configured under a key, or the initial one when the key never was. */
  ghost predicate IsLatest<T>(x: T, initial: T, updates: seq<ConfigValues>, key: ConfigValues -> Option<T>) {
    || (x == initial && forall i :: 0 <= i < |updates| ==> key(updates[i]).None?)
    || exists i :: 0 <= i < |updates| && key(updates[i]) == Some(x)
                   && forall j :: i < j < |updates| ==> key(updates[j]).None?
  }

  lemma InitialIsLatest<T>(initial: T, key: ConfigValues -> Option<T>)
    ensures IsLatest(initial, initial, [], key)
  {
  }

  lemma LatestGrows<T>(x: T, initial: T, updates: seq<ConfigValues>, last: ConfigValues, key: ConfigValues -> Option<T>)
    requires IsLatest(x, initial, updates, key)
    ensures IsLatest(key(last).GetOr(x), initial, updates + [last], key)
  {
    var now, n := updates + [last], |updates|;
    if key(last).Some? {
      assert key(now[n]) == Some(key(last).GetOr(x));
    } else if !(x == initial && forall i :: 0 <= i < n ==> key(updates[i]).None?) {
      var i :| 0 <= i < n && key(updates[i]) == Some(x) && forall j :: i < j < n ==> key(updates[j]).None?;
      assert key(now[i]) == Some(x);
    }
  }

  lemma {:induction false} FieldIsLatest<T>(cfg: SizerConfig, updates: seq<ConfigValues>, field: SizerConfig -> T,
                                            key: ConfigValues -> Option<T>)
    requires forall c, u :: field(Refreshed(c, u)) == key(u).GetOr(field(c))
    ensures IsLatest(field(RefreshedAll(cfg, updates)), field(cfg), updates, key)
  {
    hide Refreshed, IsLatest;
    if updates == [] {
      InitialIsLatest(field(cfg), key);
    } else {
      var front, last := updates[..|updates| - 1], updates[|updates| - 1];
      FieldIsLatest(cfg, front, field, key);
      LatestGrows(field(RefreshedAll(cfg, front)), field(cfg), front, last, key);
      assert updates == front + [last];
    }
  }

  /** However often the limits are refreshed, each is the one most recently configured: a key that disappears from the
   *  configuration does not fall back to its first value. */
  lemma RefreshesKeepLatest(cfg: SizerConfig, updates: seq<ConfigValues>)
    ensures var now := RefreshedAll(cfg, updates);
            && IsLatest(now.riskPerTradePct, cfg.riskPerTradePct, updates, (u: ConfigValues) => u.riskPerTradePct)
            && IsLatest(now.atrMultiplier, cfg.atrMultiplier, updates, (u: ConfigValues) => u.atrMultiplier)
            && IsLatest(now.minQuantity, cfg.minQuantity, updates, (u: ConfigValues) => u.minQuantity)
            && IsLatest(now.maxQuantity, cfg.maxQuantity, updates, (u: ConfigValues) => u.maxQuantity)
            && IsLatest(now.maxPositionValuePct, cfg.maxPositionValuePct, updates,
                        (u: ConfigValues) => u.maxPositionValuePct)
  {
    FieldIsLatest(cfg, updates, (c: SizerConfig) => c.riskPerTradePct, (u: ConfigValues) => u.riskPerTradePct);
    FieldIsLatest(cfg, updates, (c: SizerConfig) => c.atrMultiplier, (u: ConfigValues) => u.atrMultiplier);
    FieldIsLatest(cfg, updates, (c: SizerConfig) => c.minQuantity, (u: ConfigValues) => u.minQuantity);
    FieldIsLatest(cfg, updates, (c: SizerConfig) => c.maxQuantity, (u: ConfigValues) => u.maxQuantity);
    FieldIsLatest(cfg, updates, (c: SizerConfig) => c.maxPositionValuePct, (u: ConfigValues) => u.maxPositionValuePct);
  }

  class PositionSizer {
    var cfg: SizerConfig

    constructor (cfg: SizerConfig)
      ensures this.cfg == cfg
    {
      this.cfg := cfg;
    }

    /** Every limit that is configured replaces the old one; the others stay. */
    method RefreshFromConfig(latest: ConfigValues)
      modifies this
      ensures cfg == Refreshed(old(cfg), latest)
    {
      var risk := latest.riskPerTradePct.GetOr(cfg.riskPerTradePct);
      var multiplier := latest.atrMultiplier.GetOr(cfg.atrMultiplier);
      var least := latest.minQuantity.GetOr(cfg.minQuantity);
      var most := latest.maxQuantity.GetOr(cfg.maxQuantity);
      var value := latest.maxPositionValuePct.GetOr(cfg.maxPositionValuePct);
      cfg := SizerConfig(risk, multiplier, least, most, value);
    }

    method CalculateQuantity(o: Order) returns (r: SizingResult)
      ensures r == Steps(o, cfg)
    {
      var totalAssets := o.balance + o.portfolioValue;
      if totalAssets <= 0.0 {
        return CreateResult(0, NoAssets);
      }
      var riskAmount := PercentOf(totalAssets, cfg.riskPerTradePct);
      var atr := if o.atr.None? || o.atr.value <= 0.0 then o.price * 0.02 else o.atr.value;
      var riskPerShare := Times(atr, cfg.atrMultiplier);
      if riskPerShare == 0.0 {
        return CreateResult(0, CalculationError);
      }
      var quantityRaw := Quotient(riskAmount, riskPerShare);
      var quantity := Trunc(quantityRaw);
      if quantity < cfg.minQuantity {
        quantity := cfg.minQuantity;
      } else if quantity > cfg.maxQuantity {
        quantity := cfg.maxQuantity;
      }
      r := LimitByValue(o, totalAssets, quantity, Trunc(quantityRaw), riskPerShare);
    }

    method LimitByValue(o: Order, totalAssets: real, clamped: int, target: int, riskPerShare: real)
      returns (r: SizingResult)
      requires totalAssets == o.TotalAssets() && totalAssets > 0.0
      ensures r == Limit(o, cfg, clamped, target, riskPerShare)
    {
      var quantity := clamped;
      var positionValue := Worth(quantity, o.price);
      var maxByAssets := PercentOf(totalAssets, cfg.maxPositionValuePct);
      var cashToKeep := PercentOf(totalAssets, o.cashKeepPct);
      var maxByCash := Max(0.0, o.balance - cashToKeep);
      var maxValue := Min(maxByAssets, maxByCash);
      hide Worth, Quotient, Trunc, PercentOf;
      if positionValue > maxValue {
        if o.price == 0.0 {
          return CreateResult(0, CalculationError);
        }
        quantity := Trunc(Quotient(maxValue, o.price));
        positionValue := Worth(quantity, o.price);
        if maxValue == maxByCash {
          if target > 0 && quantity as real < target as real * 0.5 {
            return CreateResult(0, SmartSkip);
          }
        }
      }
      if quantity < cfg.minQuantity {
        return CreateResult(0, BelowMinimum);
      }
      var risk := Worth(quantity, riskPerShare);
      r := SizingResult(quantity, risk, positionValue, Quotient(risk, totalAssets) * 100.0,
                        Quotient(positionValue, totalAssets) * 100.0, Sized);
    }
  }

  /** For a priced stock and any configuration the steps give the closed form, and say which rule gave an order up;
   *  without assets, or without a risk per share to divide by, nothing is ordered. */
  lemma StepsAreClosedForm(o: Order, cfg: SizerConfig)
    requires o.price > 0.0
    ensures var r := Steps(o, cfg);
            && (o.TotalAssets() <= 0.0 || RiskPerShare(o, cfg) == 0.0 ==> r.quantity == 0)
            && (o.TotalAssets() > 0.0 && RiskPerShare(o, cfg) != 0.0 ==>
                  && r.quantity == ClosedForm(o, cfg)
                  && (r.reason == SmartSkip <==> SkipsForCash(o, cfg))
                  && (cfg.minQuantity >= 1 ==> (r.quantity != 0 <==> r.reason == Sized)))
  {
    if o.TotalAssets() > 0.0 && RiskPerShare(o, cfg) != 0.0 {
      var target := RiskQuantity(o, cfg);
      var clamped := Clamp(target, cfg.minQuantity, cfg.maxQuantity);
      TruncCuts(ValueCap(o, cfg), o.price, clamped);
      CutByCash(o, cfg);
      hide Worth, Quotient, Trunc, PercentOf, RiskPerShare, RiskQuantity, CapQuantity, AssetCap, CashCap;
    }
  }

  /** A cut due to cash leaves a quantity that is not negative. */
  lemma CutByCash(o: Order, cfg: SizerConfig)
    requires o.price > 0.0
    ensures CashCap(o) >= 0.0
    ensures CashCap(o) <= AssetCap(o, cfg) ==> CapQuantity(o, cfg) >= 0
  {
    if CashCap(o) <= AssetCap(o, cfg) {
      TruncFits(ValueCap(o, cfg), o.price, 0);
    }
  }

  lemma SaneIsUsable(o: Order, cfg: SizerConfig)
    requires Sane(o, cfg)
    ensures o.price > 0.0 && RiskPerShare(o, cfg) > 0.0
  {
    RiskPerSharePositive(o, cfg);
  }

  // ---------------------------------------------------------------------------
  // The result, in figures
  // ---------------------------------------------------------------------------

  lemma TruncIsLargest(amount: real, unit: real, n: int)
    requires amount >= 0.0 && unit > 0.0 && IsLargest(n, unit, amount)
    ensures Trunc(Quotient(amount, unit)) == n
  {
    TruncFits(amount, unit, n);
    TruncFits(amount, unit, n + 1);
  }

  /** The two quantities that decide, for a usable configuration: what the risk budget pays for at the ATR times its
   *  multiplier, where two percent of the price replace a missing ATR, and what the tighter of the position cap and
   *  the free cash pays for at the price. */
  ghost predicate AreBounds(o: Order, cfg: SizerConfig, byRisk: int, byValue: int) {
    var assets := o.balance + o.portfolioValue;
    var atr := if o.atr.Some? && o.atr.value > 0.0 then o.atr.value else o.price * 0.02;
    && IsLargest(byRisk, Times(atr, cfg.atrMultiplier), PercentOf(assets, cfg.riskPerTradePct))
    && IsLargest(byValue, o.price, Min(PercentOf(assets, cfg.maxPositionValuePct),
                                       Max(0.0, o.balance - PercentOf(assets, o.cashKeepPct))))
  }

  lemma BoundsAreQuantities(o: Order, cfg: SizerConfig, byRisk: int, byValue: int)
    requires Sane(o, cfg) && AreBounds(o, cfg, byRisk, byValue)
    ensures RiskPerShare(o, cfg) > 0.0 && RiskQuantity(o, cfg) == byRisk && CapQuantity(o, cfg) == byValue
  {
    SaneIsUsable(o, cfg);
    CapsNonNegative(o, cfg);
    BoundsInFigures(o, cfg, byRisk, byValue);
    hide AreBounds, IsLargest, Sane, RiskBudget, RiskPerShare, ValueCap;
    TruncIsLargest(RiskBudget(o, cfg), RiskPerShare(o, cfg), byRisk);
    TruncIsLargest(ValueCap(o, cfg), o.price, byValue);
  }

  lemma BoundsInFigures(o: Order, cfg: SizerConfig, byRisk: int, byValue: int)
    requires AreBounds(o, cfg, byRisk, byValue)
    ensures IsLargest(byRisk, RiskPerShare(o, cfg), RiskBudget(o, cfg))
    ensures IsLargest(byValue, o.price, ValueCap(o, cfg))
  {
    hide IsLargest, Times, PercentOf;
  }

  /** The whole result: the risk quantity kept in its range and cut to the value caps; nothing when cash alone cuts it
   *  below half of the risk quantity, or when less than the minimum is left; with it the risk taken, the worth, and
   *  both as percentages of assets. */
  lemma ResultInFigures(o: Order, cfg: SizerConfig, byRisk: int, byValue: int, assets: real, perShare: real,
                        inRange: int, q: int)
    requires Sane(o, cfg) && AreBounds(o, cfg, byRisk, byValue) && assets == o.balance + o.portfolioValue
    requires perShare == (if o.atr.Some? && o.atr.value > 0.0 then o.atr.value else o.price * 0.02) * cfg.atrMultiplier
    requires inRange == if byRisk < cfg.minQuantity then cfg.minQuantity
                        else if byRisk > cfg.maxQuantity then cfg.maxQuantity else byRisk
    requires q == if byValue < inRange then byValue else inRange
    ensures var cashIsTighter := o.balance - PercentOf(assets, o.cashKeepPct)
                                 <= PercentOf(assets, cfg.maxPositionValuePct);
            var risk, worth := q as real * perShare, q as real * o.price;
            Steps(o, cfg)
            == if byValue < inRange && cashIsTighter && 2 * byValue < byRisk
               then SizingResult(0, 0.0, 0.0, 0.0, 0.0, SmartSkip)
               else if q < cfg.minQuantity then SizingResult(0, 0.0, 0.0, 0.0, 0.0, BelowMinimum)
               else SizingResult(q, risk, worth, risk / assets * 100.0, worth / assets * 100.0, Sized)
  {
    hide AreBounds, IsLargest, Steps, Finish, RiskPerShare, PercentOf;
    StepsFinish(o, cfg, byRisk, byValue);
    FinishInFigures(o, cfg, q, assets, perShare);
  }

  /** Which quantity reaches the last step. */
  lemma StepsFinish(o: Order, cfg: SizerConfig, byRisk: int, byValue: int)
    requires Sane(o, cfg) && AreBounds(o, cfg, byRisk, byValue)
    ensures var clamped := Clamp(byRisk, cfg.minQuantity, cfg.maxQuantity);
            var cashIsTighter := o.balance - PercentOf(o.TotalAssets(), o.cashKeepPct)
                                 <= PercentOf(o.TotalAssets(), cfg.maxPositionValuePct);
            Steps(o, cfg)
            == if byValue < clamped && cashIsTighter && 2 * byValue < byRisk then CreateResult(0, SmartSkip)
               else Finish(o, cfg, if byValue < clamped then byValue else clamped, RiskPerShare(o, cfg))
  {
    BoundsAreQuantities(o, cfg, byRisk, byValue);
    CapsNonNegative(o, cfg);
    var clamped := Clamp(byRisk, cfg.minQuantity, cfg.maxQuantity);
    TruncFits(ValueCap(o, cfg), o.price, clamped);
    CashIsTighter(o, cfg);
    assert byValue as real < byRisk as real * 0.5 <==> 2 * byValue < byRisk;
    hide RiskQuantity, CapQuantity, ValueCap, CashCap, AssetCap, AreBounds, RiskPerShare, Worth, Finish, Quotient,
         Trunc, PercentOf;
  }

  lemma CashIsTighter(o: Order, cfg: SizerConfig)
    requires Sane(o, cfg)
    ensures ValueCap(o, cfg) == CashCap(o)
            <==> o.balance - PercentOf(o.TotalAssets(), o.cashKeepPct)
                 <= PercentOf(o.TotalAssets(), cfg.maxPositionValuePct)
  {
    CapsNonNegative(o, cfg);
    hide PercentOf;
  }

  lemma FinishInFigures(o: Order, cfg: SizerConfig, q: int, assets: real, perShare: real)
    requires o.TotalAssets() > 0.0 && assets == o.balance + o.portfolioValue
    requires perShare == (if o.atr.Some? && o.atr.value > 0.0 then o.atr.value else o.price * 0.02) * cfg.atrMultiplier
    ensures var risk, worth := q as real * perShare, q as real * o.price;
            Finish(o, cfg, q, RiskPerShare(o, cfg))
            == if q < cfg.minQuantity then SizingResult(0, 0.0, 0.0, 0.0, 0.0, BelowMinimum)
               else SizingResult(q, risk, worth, risk / assets * 100.0, worth / assets * 100.0, Sized)
  {
    assert RiskPerShare(o, cfg) == perShare;
    hide RiskPerShare;
  }

  /** Without assets nothing is sized. */
  lemma NoAssetsNoShares(o: Order, cfg: SizerConfig)
    requires o.balance + o.portfolioValue <= 0.0
    ensures Steps(o, cfg) == SizingResult(0, 0.0, 0.0, 0.0, 0.0, NoAssets)
  {
  }

  // ---------------------------------------------------------------------------
  // What a sized quantity respects
  // ---------------------------------------------------------------------------

  /** A non-zero quantity stays in its range, under both value caps, and within the risk budget
   *  unless it is the configured minimum. */
  lemma SizedRespectsLimits(o: Order, cfg: SizerConfig)
    requires Sane(o, cfg) && RiskPerShare(o, cfg) > 0.0 && ClosedForm(o, cfg) != 0
    ensures var q := ClosedForm(o, cfg);
            && cfg.minQuantity <= q <= cfg.maxQuantity
            && Worth(q, o.price) <= AssetCap(o, cfg)
            && o.balance - Worth(q, o.price) >= CashToKeep(o)
            && (Worth(q, RiskPerShare(o, cfg)) <= RiskBudget(o, cfg) || q == cfg.minQuantity)
  {
    var q := ClosedForm(o, cfg);
    CapsNonNegative(o, cfg);
    TruncFits(ValueCap(o, cfg), o.price, q);
    TruncFits(RiskBudget(o, cfg), RiskPerShare(o, cfg), q);
    hide Quotient, Trunc, RiskPerShare, RiskBudget, AssetCap, CashToKeep, EffectiveAtr;
    assert Worth(q, o.price) > 0.0;
  }

  // ---------------------------------------------------------------------------
  // Volatility
  // ---------------------------------------------------------------------------

  lemma LargerUnitFitsLess(amount: real, unit: real, larger: real)
    requires amount >= 0.0 && 0.0 < unit <= larger
    ensures Trunc(Quotient(amount, larger)) <= Trunc(Quotient(amount, unit))
  {
    var n := Trunc(Quotient(amount, larger));
    TruncFits(amount, larger, n);
    TruncFits(amount, unit, n);
    assert Worth(n, larger) - Worth(n, unit) == n as real * (larger - unit) >= 0.0;
  }

  /** The same order with another, valid ATR. */
  function WithAtr(o: Order, atr: real): Order {
    o.(atr := Some(atr))
  }

  lemma LargerFactor(low: real, high: real, m: real)
    requires low <= high && m >= 0.0
    ensures Times(low, m) <= Times(high, m)
  {
    assert Times(high, m) - Times(low, m) == (high - low) * m;
    assert (high - low) * m >= 0.0;
  }

  lemma LargerAtrFitsLess(o: Order, cfg: SizerConfig, low: real, high: real)
    requires Sane(o, cfg) && 0.0 < low <= high
    ensures 0.0 < RiskPerShare(WithAtr(o, low), cfg) <= RiskPerShare(WithAtr(o, high), cfg)
    ensures 0 <= RiskQuantity(WithAtr(o, high), cfg) <= RiskQuantity(WithAtr(o, low), cfg)
  {
    var a, b := WithAtr(o, low), WithAtr(o, high);
    assert RiskPerShare(a, cfg) == Times(low, cfg.atrMultiplier);
    assert RiskPerShare(b, cfg) == Times(high, cfg.atrMultiplier);
    LargerFactor(low, high, cfg.atrMultiplier);
    RiskPerSharePositive(a, cfg);
    CapsNonNegative(o, cfg);
    assert RiskBudget(a, cfg) == RiskBudget(b, cfg) == RiskBudget(o, cfg);
    LargerUnitFitsLess(RiskBudget(o, cfg), RiskPerShare(a, cfg), RiskPerShare(b, cfg));
    TruncFits(RiskBudget(o, cfg), RiskPerShare(b, cfg), 0);
  }

  /** Unless the calmer order is skipped for cash, a larger ATR never gives more shares. */
  lemma LargerAtrNeverMore(o: Order, cfg: SizerConfig, low: real, high: real)
    requires Sane(o, cfg) && 0.0 < low <= high
    requires RiskPerShare(WithAtr(o, low), cfg) != 0.0 && RiskPerShare(WithAtr(o, high), cfg) != 0.0
    requires !SkipsForCash(WithAtr(o, low), cfg)
    ensures ClosedForm(WithAtr(o, high), cfg) <= ClosedForm(WithAtr(o, low), cfg)
  {
    LargerAtrFitsLess(o, cfg, low, high);
    assert CapQuantity(WithAtr(o, low), cfg) == CapQuantity(o, cfg) == CapQuantity(WithAtr(o, high), cfg);
    CapsNonNegative(o, cfg);
    TruncFits(ValueCap(o, cfg), o.price, 0);
    hide RiskQuantity, RiskPerShare, CapQuantity, CashCap, AssetCap;
    assert 0 <= CapQuantity(o, cfg);
  }

  /** "More volatile never means more shares" holds from an ATR upward exactly when the order is not skipped
   *  for cash there, or the cash would not pay for the minimum quantity anyway. */
  lemma VolatilityRuleIff(o: Order, cfg: SizerConfig, low: real)
    requires Sane(o, cfg) && low > 0.0 && RiskPerShare(WithAtr(o, low), cfg) != 0.0
    ensures (forall high :: high >= low ==>
               RiskPerShare(WithAtr(o, high), cfg) != 0.0
               && ClosedForm(WithAtr(o, high), cfg) <= ClosedForm(WithAtr(o, low), cfg))
            <==> (!SkipsForCash(WithAtr(o, low), cfg) || CapQuantity(o, cfg) < cfg.minQuantity)
  {
    forall high | high >= low ensures RiskPerShare(WithAtr(o, high), cfg) != 0.0 {
      LargerAtrFitsLess(o, cfg, low, high);
    }
    assert CapQuantity(WithAtr(o, low), cfg) == CapQuantity(o, cfg);
    if !SkipsForCash(WithAtr(o, low), cfg) {
      forall high | high >= low ensures ClosedForm(WithAtr(o, high), cfg) <= ClosedForm(WithAtr(o, low), cfg) {
        LargerAtrNeverMore(o, cfg, low, high);
      }
    } else if CapQuantity(o, cfg) < cfg.minQuantity {
      forall high | high >= low ensures ClosedForm(WithAtr(o, high), cfg) <= ClosedForm(WithAtr(o, low), cfg) {
        assert CapQuantity(WithAtr(o, high), cfg) == CapQuantity(o, cfg);
      }
    } else {
      var high := Max(low, RiskBudget(o, cfg) / cfg.atrMultiplier);
      VolatileEnough(o, cfg, low, high);
      assert ClosedForm(WithAtr(o, high), cfg) > ClosedForm(WithAtr(o, low), cfg);
    }
  }

  /** At a large enough ATR the risk budget pays for at most one share, and the minimum is ordered. */
  lemma VolatileEnough(o: Order, cfg: SizerConfig, low: real, high: real)
    requires Sane(o, cfg) && low > 0.0 && high == Max(low, RiskBudget(o, cfg) / cfg.atrMultiplier)
    requires CapQuantity(o, cfg) >= cfg.minQuantity
    ensures RiskPerShare(WithAtr(o, high), cfg) != 0.0
    ensures ClosedForm(WithAtr(o, high), cfg) == cfg.minQuantity
  {
    var b := WithAtr(o, high);
    var budget, m := RiskBudget(o, cfg), cfg.atrMultiplier;
    LargerAtrFitsLess(o, cfg, low, high);
    CapsNonNegative(o, cfg);
    CoversBudget(budget, m, high);
    assert RiskPerShare(b, cfg) == Times(high, m) && RiskBudget(b, cfg) == budget;
    assert Worth(2, RiskPerShare(b, cfg)) > budget;
    TruncFits(budget, RiskPerShare(b, cfg), 2);
    assert CapQuantity(b, cfg) == CapQuantity(o, cfg);
    hide CapQuantity, RiskBudget, RiskPerShare, Quotient, Trunc, Worth;
  }

  lemma CoversBudget(budget: real, m: real, high: real)
    requires m > 0.0 && budget >= 0.0 && high >= budget / m
    ensures Times(high, m) >= budget
  {
    assert budget / m * m == budget;
    assert (high - budget / m) * m >= 0.0;
  }

  lemma ExactShares(amount: real, unit: real, n: nat)
    requires unit > 0.0 && amount == n as real * unit
    ensures Trunc(Quotient(amount, unit)) == n
  {
    TruncFits(amount, unit, n);
    TruncFits(amount, unit, n + 1);
  }

  /** A cash-poor account: its risk budget pays for `n` shares, its cash for nine. */
  predicate Example(o: Order, cfg: SizerConfig, n: nat) {
    && cfg == SizerConfig(2.0, 2.0, 1, 1000, 100.0)
    && o.price == 100.0 && o.balance == 1000.0 && o.portfolioValue == 0.0 && o.cashKeepPct == 10.0
    && o.atr.Some? && o.atr.value > 0.0 && n as real * (o.atr.value * 2.0) == 20.0 && 9 < n <= 1000
  }

  lemma ExampleQuantity(o: Order, cfg: SizerConfig, n: nat)
    requires Example(o, cfg, n)
    ensures Sane(o, cfg) && RiskPerShare(o, cfg) > 0.0 && ClosedForm(o, cfg) == if n > 18 then 0 else 9
  {
    assert RiskBudget(o, cfg) == 20.0 && RiskPerShare(o, cfg) == o.atr.value * 2.0;
    assert CashCap(o) == 900.0 && AssetCap(o, cfg) == 1000.0 && ValueCap(o, cfg) == 900.0;
    ExactShares(20.0, RiskPerShare(o, cfg), n);
    ExactShares(900.0, 100.0, 9);
    hide RiskBudget, RiskPerShare, CashCap, AssetCap, ValueCap, Quotient, Trunc;
  }

  /** A concrete account where doubling the ATR turns no order into an order of nine shares. */
  lemma SmartSkipBreaksVolatilityRule(o: Order, cfg: SizerConfig)
    requires cfg == SizerConfig(2.0, 2.0, 1, 1000, 100.0) && o == Order(100.0, Some(0.5), 1000.0, 0.0, 10.0)
    ensures Sane(o, cfg) && RiskPerShare(o, cfg) > 0.0 && RiskPerShare(WithAtr(o, 1.0), cfg) > 0.0
    ensures ClosedForm(o, cfg) == 0 && ClosedForm(WithAtr(o, 1.0), cfg) == 9
  {
    assert Example(o, cfg, 20) && Example(WithAtr(o, 1.0), cfg, 10);
    hide Sane, RiskPerShare, ClosedForm;
    ExampleQuantity(o, cfg, 20);
    ExampleQuantity(WithAtr(o, 1.0), cfg, 10);
  }
}
