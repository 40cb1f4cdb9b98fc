/** The diversification check: one sector cap and one stock cap, as shares of total assets. */
module Diversification {
  import opened Prelude
  import opened MapSums

  /** A held stock. Without a current price it is valued at its average price. */
  datatype Item = Item(code: string, name: string, quantity: int, avgPrice: real, currentPrice: Option<real>) {
    function Mark(): real {
      currentPrice.GetOr(avgPrice)
    }

    function Value(): real {
      Worth(quantity, Mark())
    }
  }

  datatype Candidate = Candidate(code: string, name: string, price: real, quantity: int) {
    function Value(): real {
      Worth(quantity, price)
    }
  }

  datatype Limits = Limits(maxSectorPct: real, maxStockPct: real)

  type Sectors = (string, string) -> string

  function PortfolioValue(items: seq<Item>): real {
    if items == [] then 0.0 else PortfolioValue(items[..|items| - 1]) + items[|items| - 1].Value()
  }

  function SectorSum(items: seq<Item>, sector: string, sectorOf: Sectors): real {
    if items == [] then 0.0
    else
      var it := items[|items| - 1];
      SectorSum(items[..|items| - 1], sector, sectorOf)
      + if sectorOf(it.code, it.name) == sector then it.Value() else 0.0
  }

  /** `(value / total) * 100` */
  function Share(value: real, total: real): real
    requires total != 0.0
  {
    Quotient(value, total) * 100.0
  }

  datatype Outcome = NoAssets | SectorExceeded | StockExceeded | Passed

  /** The verdict on a candidate; `sectorExposure` is the sector's share before the purchase. */
  datatype Verdict = Verdict(outcome: Outcome, sectorExposure: real) {
    predicate Approved() {
      outcome.NoAssets? || outcome.Passed?
    }
  }

  function SectorAfter(c: Candidate, items: seq<Item>, sectorOf: Sectors): real {
    SectorSum(items, sectorOf(c.code, c.name), sectorOf) + c.Value()
  }

  function Check(c: Candidate, items: seq<Item>, balance: real, limits: Limits, sectorOf: Sectors): Verdict {
    var total := balance + PortfolioValue(items);
    if total <= 0.0 then Verdict(NoAssets, 0.0)
    else
      var before := Share(SectorSum(items, sectorOf(c.code, c.name), sectorOf), total);
      if Share(SectorAfter(c, items, sectorOf), total) > limits.maxSectorPct then Verdict(SectorExceeded, before)
      else if Share(c.Value(), total) > limits.maxStockPct then Verdict(StockExceeded, before)
      else Verdict(Passed, before)
  }

  /** `sector_exposure` of the source, per sector. */
  function Exposures(items: seq<Item>, sectorOf: Sectors): map<string, real> {
    if items == [] then map[]
    else AddTo(Exposures(items[..|items| - 1], sectorOf), items[|items| - 1], sectorOf)
  }

  function AddTo(m: map<string, real>, it: Item, sectorOf: Sectors): map<string, real> {
    Increase(m, sectorOf(it.code, it.name), it.Value())
  }

  /** `d[key] += amount` on a dictionary with default zero. */
  function Increase(m: map<string, real>, key: string, amount: real): map<string, real> {
    m[key := (if key in m then m[key] else 0.0) + amount]
  }

  method CheckDiversification(c: Candidate, items: seq<Item>, balance: real, limits: Limits, sectorOf: Sectors)
    returns (v: Verdict)
    ensures v == Check(c, items, balance, limits, sectorOf)
  {
    var portfolioValue := 0.0;
    for i := 0 to |items|
      invariant portfolioValue == PortfolioValue(items[..i])
    {
      assert items[..i + 1][..i] == items[..i];
      portfolioValue := portfolioValue + items[i].Value();
    }
    assert items[..|items|] == items;
    var totalAssets := balance + portfolioValue;
    if totalAssets <= 0.0 {
      return Verdict(NoAssets, 0.0);
    }
    var exposure := AccumulateExposures(items, sectorOf);
    var sector := sectorOf(c.code, c.name);
    exposure := Increase(exposure, sector, c.Value());
    SectorsPartition(items, sectorOf);
    assert exposure[sector] == SectorAfter(c, items, sectorOf);
    v := Judge(exposure[sector], c.Value(), totalAssets, limits);
  }

  /** The two rules, on the accumulated figures. */
  method Judge(sectorValue: real, candidateValue: real, totalAssets: real, limits: Limits) returns (v: Verdict)
    requires totalAssets > 0.0
    ensures var before := Share(sectorValue - candidateValue, totalAssets);
            v == if Share(sectorValue, totalAssets) > limits.maxSectorPct then Verdict(SectorExceeded, before)
                 else if Share(candidateValue, totalAssets) > limits.maxStockPct then Verdict(StockExceeded, before)
                 else Verdict(Passed, before)
  {
    var before := Share(sectorValue - candidateValue, totalAssets);
    if Share(sectorValue, totalAssets) > limits.maxSectorPct {
      return Verdict(SectorExceeded, before);
    }
    if Share(candidateValue, totalAssets) > limits.maxStockPct {
      return Verdict(StockExceeded, before);
    }
    return Verdict(Passed, before);
  }

  /** Fill the exposure dictionary item by item. */
  method AccumulateExposures(items: seq<Item>, sectorOf: Sectors) returns (exposure: map<string, real>)
    ensures exposure == Exposures(items, sectorOf)
  {
    exposure := map[];
    for i := 0 to |items|
      invariant exposure == Exposures(items[..i], sectorOf)
    {
      assert items[..i + 1][..i] == items[..i];
      exposure := Increase(exposure, sectorOf(items[i].code, items[i].name), items[i].Value());
    }
    assert items[..|items|] == items;
  }

  /** The exposure dictionary holds the per-sector sums, which together are the portfolio value. */
  lemma {:induction false} SectorsPartition(items: seq<Item>, sectorOf: Sectors)
    ensures forall s :: (if s in Exposures(items, sectorOf) then Exposures(items, sectorOf)[s] else 0.0)
                        == SectorSum(items, s, sectorOf)
    ensures SumValues(Exposures(items, sectorOf)) == PortfolioValue(items)
  {
    if items != [] {
      var front, it := items[..|items| - 1], items[|items| - 1];
      SectorsPartition(front, sectorOf);
      var m, s := Exposures(front, sectorOf), sectorOf(it.code, it.name);
      UpdateSum(m, s, (if s in m then m[s] else 0.0) + it.Value());
    }
  }

  // ---------------------------------------------------------------------------
  // The check as a bound on values
  // ---------------------------------------------------------------------------

  lemma ShareBound(value: real, total: real, pct: real)
    requires total > 0.0
    ensures Share(value, total) <= pct <==> value <= PercentOf(total, pct)
  {
    var q := Quotient(value, total);
    QuotientTimes(value, total);
    assert q * total == value;
    assert PercentOf(total, pct) == pct / 100.0 * total;
    if q <= pct / 100.0 {
      assert (pct / 100.0 - q) * total >= 0.0;
    } else {
      assert (q - pct / 100.0) * total > 0.0;
    }
  }

  /** A purchase passes exactly when its sector and its own value stay within their shares of total assets. */
  lemma PassedIff(c: Candidate, items: seq<Item>, balance: real, limits: Limits, sectorOf: Sectors)
    requires balance + PortfolioValue(items) > 0.0
    ensures var total := balance + PortfolioValue(items);
            var outcome := Check(c, items, balance, limits, sectorOf).outcome;
            && (outcome.Passed? <==> SectorAfter(c, items, sectorOf) <= PercentOf(total, limits.maxSectorPct)
                                     && c.Value() <= PercentOf(total, limits.maxStockPct))
            && (outcome.SectorExceeded? <==> SectorAfter(c, items, sectorOf) > PercentOf(total, limits.maxSectorPct))
            && !outcome.NoAssets?
  {
    var total := balance + PortfolioValue(items);
    ShareBound(SectorAfter(c, items, sectorOf), total, limits.maxSectorPct);
    ShareBound(c.Value(), total, limits.maxStockPct);
  }

  /** Ordering less never turns an approval into a rejection. */
  lemma CheckAntitone(c: Candidate, fewer: int, items: seq<Item>, balance: real, limits: Limits, sectorOf: Sectors)
    requires c.price >= 0.0 && fewer <= c.quantity
    requires Check(c, items, balance, limits, sectorOf).Approved()
    ensures Check(c.(quantity := fewer), items, balance, limits, sectorOf).Approved()
  {
    var less := c.(quantity := fewer);
    if balance + PortfolioValue(items) > 0.0 {
      WorthMonotone(fewer, c.quantity, c.price);
      PassedIff(c, items, balance, limits, sectorOf);
      PassedIff(less, items, balance, limits, sectorOf);
    }
  }
}
