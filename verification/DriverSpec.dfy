/** The day and slot loops of the backtest, as the sequence of engine events they issue. */
module DriverSpec {
  import opened Prelude
  import opened MarketData
  import opened EngineSpec

  /** One intraday slot with the scanner's candidates for it. */
  datatype Offer = Offer(slot: Slot, candidates: seq<Candidate>)

  /** One simulated day; `closing` is the price lookup of the day's last slot. */
  datatype Day = Day(date: int, regime: Regime, offers: seq<Offer>, closing: Slot)

  datatype EndOfDay = EndOfDay(date: int, equity: real)

  /** What never changes during a run. */
  datatype Setup = Setup(cfg: EngineConfig, args: DriverConfig, sectorOf: string -> string)

  /** The scanner offers candidates at their live, positive price; no price is negative. */
  ghost predicate FeasibleOffer(o: Offer) {
    && (forall code :: o.slot.price(code) >= 0.0)
    && (forall i :: 0 <= i < |o.candidates| ==>
          && o.candidates[i].price > 0.0
          && o.candidates[i].price == o.slot.price(o.candidates[i].code))
  }

  ghost predicate FeasibleDay(day: Day) {
    forall i :: 0 <= i < |day.offers| ==> FeasibleOffer(day.offers[i])
  }

  function Attempt(o: Slot, c: Candidate, regime: Regime, setup: Setup): Event {
    BuyEvent(o, c, regime, setup.sectorOf(c.code))
  }

  predicate EventFills(s: State, e: Event, setup: Setup)
    requires e.BuyEvent? ==> e.candidate.price > 0.0
  {
    e.BuyEvent? && Fills(s, e.candidate, e.slot, e.regime, e.sector, setup.cfg, setup.args)
  }

  /** Attempts on the candidates of one slot, in order, until the daily limit is reached. */
  ghost function BuyTrace(s: State, slot: Slot, cs: seq<Candidate>, regime: Regime, buys: nat,
                          setup: Setup): (t: (seq<Event>, nat))
    requires AllSound(s.held) && FeasibleOffer(Offer(slot, cs))
    ensures AllFeasible(t.0)
    decreases |cs|
  {
    if cs == [] || buys >= setup.args.maxBuysPerDay then ([], buys)
    else
      var e := Attempt(slot, cs[0], regime, setup);
      var rest := BuyTrace(Apply(s, e, setup.cfg, setup.args), slot, cs[1..], regime,
                           if EventFills(s, e, setup) then buys + 1 else buys, setup);
      ([e] + rest.0, rest.1)
  }

  /** The slots of a day: sales first, then purchases while the daily limit leaves room. */
  ghost function OffersTrace(s: State, offers: seq<Offer>, regime: Regime, buys: nat,
                             setup: Setup): (t: (seq<Event>, nat))
    requires AllSound(s.held) && forall i :: 0 <= i < |offers| ==> FeasibleOffer(offers[i])
    ensures AllFeasible(t.0)
    decreases |offers|
  {
    if offers == [] then ([], buys)
    else
      var o := offers[0];
      var sold := ProcessSlot(s, o.slot, setup.cfg);
      var bought := BuyTrace(sold, o.slot, o.candidates, regime, buys, setup);
      var rest := OffersTrace(Run(sold, bought.0, setup.cfg, setup.args), offers[1..], regime, bought.1, setup);
      ([SlotEvent(o.slot)] + bought.0 + rest.0, rest.1)
  }

  /** What a driver that has issued `done` and reached `now` still has to do, against the whole plan. */
  ghost predicate OnPlan(plan: (seq<Event>, nat), s0: State, done: seq<Event>, now: State, rest: (seq<Event>, nat),
                         setup: Setup)
    requires AllSound(s0.held)
  {
    && AllFeasible(done)
    && now == Run(s0, done, setup.cfg, setup.args)
    && plan == (done + rest.0, rest.1)
  }

  lemma PlanStart(plan: (seq<Event>, nat), s: State, setup: Setup)
    requires AllSound(s.held)
    ensures OnPlan(plan, s, [], s, plan, setup)
  {
    assert [] + plan.0 == plan.0;
  }

  /** A plan with nothing left has been carried out. */
  lemma PlanEnd(plan: (seq<Event>, nat), s0: State, done: seq<Event>, now: State, buys: nat, setup: Setup)
    requires AllSound(s0.held) && OnPlan(plan, s0, done, now, ([], buys), setup)
    ensures AllFeasible(plan.0) && now == Run(s0, plan.0, setup.cfg, setup.args) && buys == plan.1
  {
    assert done + [] == done;
  }

  /** Issuing the next part of the plan stays on the plan. */
  lemma PlanStep(plan: (seq<Event>, nat), s0: State, done: seq<Event>, now: State, rest: (seq<Event>, nat),
                 part: seq<Event>, rest': (seq<Event>, nat), setup: Setup)
    requires AllSound(s0.held) && OnPlan(plan, s0, done, now, rest, setup)
    requires AllFeasible(part) && rest == (part + rest'.0, rest'.1)
    ensures OnPlan(plan, s0, done + part, Run(now, part, setup.cfg, setup.args), rest', setup)
  {
    RunAppend(s0, done, part, setup.cfg, setup.args);
    Associative(done, part, rest'.0);
    assert plan.0 == done + part + rest'.0;
  }

  lemma BuyDone(s: State, slot: Slot, cs: seq<Candidate>, regime: Regime, buys: nat, setup: Setup)
    requires AllSound(s.held) && FeasibleOffer(Offer(slot, cs)) && (cs == [] || buys >= setup.args.maxBuysPerDay)
    ensures BuyTrace(s, slot, cs, regime, buys, setup) == ([], buys)
  {
  }

  /** The first attempt of a plan of purchases is a part of it. */
  lemma BuyStep(s: State, slot: Slot, cs: seq<Candidate>, regime: Regime, buys: nat, setup: Setup, e: Event, buys': nat)
    requires AllSound(s.held) && FeasibleOffer(Offer(slot, cs)) && cs != [] && buys < setup.args.maxBuysPerDay
    requires e == Attempt(slot, cs[0], regime, setup)
    requires buys' == if EventFills(s, e, setup) then buys + 1 else buys
    ensures Feasible(e) && FeasibleOffer(Offer(slot, cs[1..]))
    ensures var rest := BuyTrace(Run(s, [e], setup.cfg, setup.args), slot, cs[1..], regime, buys', setup);
            BuyTrace(s, slot, cs, regime, buys, setup) == ([e] + rest.0, rest.1)
  {
    RunOne(s, e, setup.cfg, setup.args);
  }

  lemma OffersDone(s: State, regime: Regime, buys: nat, setup: Setup)
    requires AllSound(s.held)
    ensures OffersTrace(s, [], regime, buys, setup) == ([], buys)
  {
  }

  /** The first slot of the plan is a part of it; the rest is the plan of the remaining slots. */
  lemma OffersStep(s: State, offers: seq<Offer>, regime: Regime, buys: nat, setup: Setup, part: seq<Event>, buys': nat)
    requires AllSound(s.held) && offers != [] && forall i :: 0 <= i < |offers| ==> FeasibleOffer(offers[i])
    requires var bought := BuyTrace(ProcessSlot(s, offers[0].slot, setup.cfg), offers[0].slot, offers[0].candidates,
                                    regime, buys, setup);
             part == [SlotEvent(offers[0].slot)] + bought.0 && buys' == bought.1
    ensures AllFeasible(part)
    ensures var rest := OffersTrace(Run(s, part, setup.cfg, setup.args), offers[1..], regime, buys', setup);
            OffersTrace(s, offers, regime, buys, setup) == (part + rest.0, rest.1)
  {
    var o := offers[0];
    var sold := ProcessSlot(s, o.slot, setup.cfg);
    var bought := BuyTrace(sold, o.slot, o.candidates, regime, buys, setup);
    RunOne(s, SlotEvent(o.slot), setup.cfg, setup.args);
    RunAppend(s, [SlotEvent(o.slot)], bought.0, setup.cfg, setup.args);
  }

  ghost function DayTrace(s: State, day: Day, setup: Setup): (t: seq<Event>)
    requires AllSound(s.held) && FeasibleDay(day)
    ensures AllFeasible(t)
  {
    OffersTrace(s, day.offers, day.regime, 0, setup).0
  }

  ghost function RunDay(s: State, day: Day, setup: Setup): (r: State)
    requires AllSound(s.held) && FeasibleDay(day)
    ensures AllSound(r.held)
  {
    Run(s, DayTrace(s, day, setup), setup.cfg, setup.args)
  }

  /** The events of all days of the calendar, each day starting where the previous one ended. */
  ghost function CalendarTrace(s: State, days: seq<Day>, setup: Setup): (t: seq<Event>)
    requires AllSound(s.held) && forall i :: 0 <= i < |days| ==> FeasibleDay(days[i])
    ensures AllFeasible(t)
    decreases |days|
  {
    if days == [] then []
    else
      var before := CalendarTrace(s, days[..|days| - 1], setup);
      before + DayTrace(Run(s, before, setup.cfg, setup.args), days[|days| - 1], setup)
  }

  /** The state at the end of the calendar. */
  ghost function RunCalendar(s: State, days: seq<Day>, setup: Setup): (r: State)
    requires AllSound(s.held) && forall i :: 0 <= i < |days| ==> FeasibleDay(days[i])
    ensures AllSound(r.held)
  {
    Run(s, CalendarTrace(s, days, setup), setup.cfg, setup.args)
  }

  /** The equity recorded at the end of each day. */
  ghost function EquityCurve(s: State, days: seq<Day>, setup: Setup): (c: seq<EndOfDay>)
    requires AllSound(s.held) && forall i :: 0 <= i < |days| ==> FeasibleDay(days[i])
    ensures |c| == |days|
    decreases |days|
  {
    if days == [] then []
    else
      var day := days[|days| - 1];
      EquityCurve(s, days[..|days| - 1], setup)
      + [EndOfDay(day.date, TotalValue(RunCalendar(s, days, setup), day.closing))]
  }

  /** One day leads from a state to the next and records its closing equity. */
  ghost predicate IsDay(before: State, day: Day, after: State, entry: EndOfDay, setup: Setup) {
    && AllSound(before.held) && FeasibleDay(day)
    && after == RunDay(before, day, setup)
    && entry == EndOfDay(day.date, TotalValue(after, day.closing))
  }

  lemma LastDay(s: State, days: seq<Day>, setup: Setup)
    requires AllSound(s.held) && days != [] && forall j :: 0 <= j < |days| ==> FeasibleDay(days[j])
    ensures IsDay(RunCalendar(s, days[..|days| - 1], setup), days[|days| - 1], RunCalendar(s, days, setup),
                  EquityCurve(s, days, setup)[|days| - 1], setup)
    ensures EquityCurve(s, days, setup)[..|days| - 1] == EquityCurve(s, days[..|days| - 1], setup)
  {
    var before := CalendarTrace(s, days[..|days| - 1], setup);
    var last := Run(s, before, setup.cfg, setup.args);
    RunAppend(s, before, DayTrace(last, days[|days| - 1], setup), setup.cfg, setup.args);
  }

  lemma {:induction false} DayOfCalendar(s: State, days: seq<Day>, i: nat, setup: Setup)
    requires AllSound(s.held) && i < |days| && forall j :: 0 <= j < |days| ==> FeasibleDay(days[j])
    ensures IsDay(RunCalendar(s, days[..i], setup), days[i], RunCalendar(s, days[..i + 1], setup),
                  EquityCurve(s, days, setup)[i], setup)
  {
    hide IsDay, RunCalendar, EquityCurve, FeasibleDay;
    LastDay(s, days, setup);
    if i == |days| - 1 {
      assert days[..i + 1] == days;
    } else {
      var front := days[..|days| - 1];
      DayOfCalendar(s, front, i, setup);
      assert front[..i] == days[..i] && front[..i + 1] == days[..i + 1];
      assert EquityCurve(s, days, setup)[i] == EquityCurve(s, days, setup)[..|front|][i];
    }
  }

  /** The states between the days of a calendar. */
  lemma CalendarStages(s: State, days: seq<Day>, setup: Setup) returns (stages: seq<State>)
    requires AllSound(s.held) && forall j :: 0 <= j < |days| ==> FeasibleDay(days[j])
    ensures |stages| == |days| + 1 && stages[0] == s && stages[|days|] == RunCalendar(s, days, setup)
    ensures forall i :: 0 <= i < |days| ==>
              IsDay(stages[i], days[i], stages[i + 1], EquityCurve(s, days, setup)[i], setup)
  {
    hide IsDay, EquityCurve, FeasibleDay;
    stages := seq(|days| + 1, i requires 0 <= i <= |days| => RunCalendar(s, days[..i], setup));
    assert days[..0] == [] && days[..|days|] == days;
    forall i | 0 <= i < |days|
      ensures IsDay(stages[i], days[i], stages[i + 1], EquityCurve(s, days, setup)[i], setup)
    {
      DayOfCalendar(s, days, i, setup);
    }
  }

  /** Buys filled along a list of events. */
  ghost function FilledBuys(s: State, es: seq<Event>, setup: Setup): nat
    requires AllSound(s.held) && AllFeasible(es)
    decreases |es|
  {
    if es == [] then 0
    else
      (if EventFills(s, es[0], setup) then 1 else 0)
      + FilledBuys(Apply(s, es[0], setup.cfg, setup.args), es[1..], setup)
  }

  lemma {:induction false} FilledAppend(s: State, a: seq<Event>, b: seq<Event>, setup: Setup)
    requires AllSound(s.held) && AllFeasible(a) && AllFeasible(b)
    ensures FilledBuys(s, a + b, setup) == FilledBuys(s, a, setup)
                                           + FilledBuys(Run(s, a, setup.cfg, setup.args), b, setup)
    decreases |a|
  {
    if a == [] {
      assert a + b == b;
    } else {
      var s' := Apply(s, a[0], setup.cfg, setup.args);
      assert (a + b)[1..] == a[1..] + b;
      FilledAppend(s', a[1..], b, setup);
      RunOne(s, a[0], setup.cfg, setup.args);
      RunAppend(s, [a[0]], a[1..], setup.cfg, setup.args);
      assert [a[0]] + a[1..] == a;
    }
  }

  lemma {:induction false} BuyTraceCounts(s: State, slot: Slot, cs: seq<Candidate>, regime: Regime, buys: nat,
                                          setup: Setup)
    requires AllSound(s.held) && FeasibleOffer(Offer(slot, cs))
    ensures var t := BuyTrace(s, slot, cs, regime, buys, setup);
            && t.1 == buys + FilledBuys(s, t.0, setup)
            && (buys <= setup.args.maxBuysPerDay ==> t.1 <= setup.args.maxBuysPerDay)
    decreases |cs|
  {
    if cs != [] && buys < setup.args.maxBuysPerDay {
      var e := Attempt(slot, cs[0], regime, setup);
      var buys' := if EventFills(s, e, setup) then buys + 1 else buys;
      var s' := Apply(s, e, setup.cfg, setup.args);
      var rest := BuyTrace(s', slot, cs[1..], regime, buys', setup);
      BuyTraceCounts(s', slot, cs[1..], regime, buys', setup);
      assert ([e] + rest.0)[1..] == rest.0;
    }
  }

  lemma {:induction false} OffersTraceCounts(s: State, offers: seq<Offer>, regime: Regime, buys: nat, setup: Setup)
    requires AllSound(s.held) && forall i :: 0 <= i < |offers| ==> FeasibleOffer(offers[i])
    ensures var t := OffersTrace(s, offers, regime, buys, setup);
            && t.1 == buys + FilledBuys(s, t.0, setup)
            && (buys <= setup.args.maxBuysPerDay ==> t.1 <= setup.args.maxBuysPerDay)
    decreases |offers|
  {
    if offers != [] {
      var o, cfg, args := offers[0], setup.cfg, setup.args;
      var sold := ProcessSlot(s, o.slot, cfg);
      var bought := BuyTrace(sold, o.slot, o.candidates, regime, buys, setup);
      var s' := Run(sold, bought.0, cfg, args);
      var rest := OffersTrace(s', offers[1..], regime, bought.1, setup);
      BuyTraceCounts(sold, o.slot, o.candidates, regime, buys, setup);
      OffersTraceCounts(s', offers[1..], regime, bought.1, setup);
      var first := [SlotEvent(o.slot)];
      RunOne(s, first[0], cfg, args);
      FilledAppend(s, first, bought.0, setup);
      RunAppend(s, first, bought.0, cfg, args);
      FilledAppend(s, first + bought.0, rest.0, setup);
      assert FilledBuys(s, first, setup) == 0;
    }
  }

  /** No day fills more buys than the daily limit. */
  lemma DailyBuyLimit(s: State, day: Day, setup: Setup)
    requires AllSound(s.held) && FeasibleDay(day)
    ensures setup.args.maxBuysPerDay >= 0 ==>
              FilledBuys(s, DayTrace(s, day, setup), setup) <= setup.args.maxBuysPerDay
  {
    OffersTraceCounts(s, day.offers, day.regime, 0, setup);
  }

  // ---------------------------------------------------------------------------
  // The order of a day
  // ---------------------------------------------------------------------------

  /** Attempts on the first candidates of an offer, in the scanner's order. */
  function Attempts(o: Offer, n: nat, regime: Regime, setup: Setup): (es: seq<Event>)
    requires n <= |o.candidates|
    ensures |es| == n
  {
    seq(n, i requires 0 <= i < n => BuyEvent(o.slot, o.candidates[i], regime, setup.sectorOf(o.candidates[i].code)))
  }

  /** Each offer's slot, followed by attempts on a number of its first candidates. */
  function Blocks(offers: seq<Offer>, counts: seq<nat>, regime: Regime, setup: Setup): seq<Event>
    requires |counts| == |offers| && forall k :: 0 <= k < |offers| ==> counts[k] <= |offers[k].candidates|
  {
    if offers == [] then []
    else [SlotEvent(offers[0].slot)] + Attempts(offers[0], counts[0], regime, setup)
         + Blocks(offers[1..], counts[1..], regime, setup)
  }

  /** Every attempt of a list of events comes while the buys filled before it leave room. */
  ghost predicate BuysHaveRoom(s: State, es: seq<Event>, buys: nat, setup: Setup)
    requires AllSound(s.held) && AllFeasible(es)
  {
    forall j :: 0 <= j < |es| && es[j].BuyEvent? ==> buys + FilledBuys(s, es[..j], setup) < setup.args.maxBuysPerDay
  }

  lemma RoomAppend(s: State, a: seq<Event>, b: seq<Event>, buys: nat, setup: Setup)
    requires AllSound(s.held) && AllFeasible(a) && AllFeasible(b)
    requires BuysHaveRoom(s, a, buys, setup)
    requires BuysHaveRoom(Run(s, a, setup.cfg, setup.args), b, buys + FilledBuys(s, a, setup), setup)
    ensures BuysHaveRoom(s, a + b, buys, setup)
  {
    var es := a + b;
    forall j | 0 <= j < |es| && es[j].BuyEvent?
      ensures buys + FilledBuys(s, es[..j], setup) < setup.args.maxBuysPerDay
    {
      if j < |a| {
        assert es[..j] == a[..j];
      } else {
        assert es[..j] == a + b[..j - |a|];
        FilledAppend(s, a, b[..j - |a|], setup);
        assert b[j - |a|].BuyEvent?;
      }
    }
  }

  /** The attempts of a slot are on its first candidates: all of them, or as many as it takes to reach the limit. */
  lemma {:induction false} BuyTraceIsPrefix(s: State, slot: Slot, cs: seq<Candidate>, regime: Regime, buys: nat,
                                            setup: Setup)
    returns (n: nat)
    requires AllSound(s.held) && FeasibleOffer(Offer(slot, cs))
    ensures n <= |cs|
    ensures var t := BuyTrace(s, slot, cs, regime, buys, setup);
            && t.0 == Attempts(Offer(slot, cs), n, regime, setup) && BuysHaveRoom(s, t.0, buys, setup)
            && (n < |cs| ==> t.1 >= setup.args.maxBuysPerDay)
    decreases |cs|
  {
    if cs == [] || buys >= setup.args.maxBuysPerDay {
      n := 0;
    } else {
      var e := Attempt(slot, cs[0], regime, setup);
      var buys' := if EventFills(s, e, setup) then buys + 1 else buys;
      var s' := Apply(s, e, setup.cfg, setup.args);
      var m := BuyTraceIsPrefix(s', slot, cs[1..], regime, buys', setup);
      n := m + 1;
      var rest := BuyTrace(s', slot, cs[1..], regime, buys', setup).0;
      assert [e] + rest == Attempts(Offer(slot, cs), n, regime, setup);
      RunOne(s, e, setup.cfg, setup.args);
      OneRoom(s, e, buys, setup);
      hide BuysHaveRoom, EventFills;
      RoomAppend(s, [e], rest, buys, setup);
    }
  }

  lemma OneRoom(s: State, e: Event, buys: nat, setup: Setup)
    requires AllSound(s.held) && Feasible(e) && buys < setup.args.maxBuysPerDay
    ensures BuysHaveRoom(s, [e], buys, setup)
    ensures FilledBuys(s, [e], setup) == if EventFills(s, e, setup) then 1 else 0
  {
    assert [e][..0] == [] && [e][1..] == [];
  }

  lemma SlotRoom(s: State, e: Event, buys: nat, setup: Setup)
    requires AllSound(s.held) && Feasible(e) && e.SlotEvent?
    ensures BuysHaveRoom(s, [e], buys, setup) && FilledBuys(s, [e], setup) == 0
  {
    assert [e][1..] == [];
  }

  /** The first slot of a day with its attempts. */
  lemma BlockInOrder(s: State, o: Offer, regime: Regime, buys: nat, setup: Setup, bought: (seq<Event>, nat))
    returns (n: nat)
    requires AllSound(s.held) && FeasibleOffer(o)
    requires bought == BuyTrace(ProcessSlot(s, o.slot, setup.cfg), o.slot, o.candidates, regime, buys, setup)
    ensures n <= |o.candidates| && bought.0 == Attempts(o, n, regime, setup)
    ensures Feasible(SlotEvent(o.slot)) && AllFeasible(bought.0)
    ensures var part := [SlotEvent(o.slot)] + bought.0;
            BuysHaveRoom(s, part, buys, setup) && bought.1 == buys + FilledBuys(s, part, setup)
    ensures n < |o.candidates| ==> bought.1 >= setup.args.maxBuysPerDay
  {
    var first, sold := SlotEvent(o.slot), ProcessSlot(s, o.slot, setup.cfg);
    SlotFeasible(o);
    assert Offer(o.slot, o.candidates) == o;
    n := BuyTraceIsPrefix(sold, o.slot, o.candidates, regime, buys, setup);
    BuyTraceCounts(sold, o.slot, o.candidates, regime, buys, setup);
    hide BuyTrace, BuysHaveRoom, FeasibleOffer, Attempts, ProcessSlot;
    RunOne(s, first, setup.cfg, setup.args);
    SlotRoom(s, first, buys, setup);
    RoomAppend(s, [first], bought.0, buys, setup);
    FilledAppend(s, [first], bought.0, setup);
  }

  lemma {:induction false} OffersTraceIsBlocks(s: State, offers: seq<Offer>, regime: Regime, buys: nat, setup: Setup)
    returns (counts: seq<nat>)
    requires AllSound(s.held) && forall i :: 0 <= i < |offers| ==> FeasibleOffer(offers[i])
    ensures |counts| == |offers| && forall k :: 0 <= k < |offers| ==> counts[k] <= |offers[k].candidates|
    ensures var t := OffersTrace(s, offers, regime, buys, setup);
            && t.0 == Blocks(offers, counts, regime, setup) && BuysHaveRoom(s, t.0, buys, setup)
            && (t.1 < setup.args.maxBuysPerDay ==>
                  forall k :: 0 <= k < |offers| ==> counts[k] == |offers[k].candidates|)
    decreases |offers|
  {
    hide BuyTrace, BuysHaveRoom, FeasibleOffer, Attempts, FilledBuys, Run, ProcessSlot, OffersTrace, Blocks;
    if offers == [] {
      counts := [];
      NothingNeedsRoom(s, buys, setup);
      NoBlocks(s, regime, buys, setup);
    } else {
      var o := offers[0];
      var bought := BuyTrace(ProcessSlot(s, o.slot, setup.cfg), o.slot, o.candidates, regime, buys, setup);
      var part := [SlotEvent(o.slot)] + bought.0;
      var n := BlockInOrder(s, o, regime, buys, setup, bought);
      OffersStep(s, offers, regime, buys, setup, part, bought.1);
      var s' := Run(s, part, setup.cfg, setup.args);
      var rest := OffersTrace(s', offers[1..], regime, bought.1, setup);
      var more := OffersTraceIsBlocks(s', offers[1..], regime, bought.1, setup);
      counts := [n] + more;
      OffersTraceCounts(s', offers[1..], regime, bought.1, setup);
      RoomAppend(s, part, rest.0, buys, setup);
      FirstBlock(offers, n, more, regime, setup);
    }
  }

  lemma NoBlocks(s: State, regime: Regime, buys: nat, setup: Setup)
    requires AllSound(s.held)
    ensures OffersTrace(s, [], regime, buys, setup).0 == [] == Blocks([], [], regime, setup)
  {
  }

  lemma FirstBlock(offers: seq<Offer>, n: nat, more: seq<nat>, regime: Regime, setup: Setup)
    requires offers != [] && |more| == |offers| - 1 && n <= |offers[0].candidates|
    requires forall k :: 0 <= k < |more| ==> more[k] <= |offers[k + 1].candidates|
    ensures forall k :: 0 <= k < |offers| ==> ([n] + more)[k] <= |offers[k].candidates|
    ensures Blocks(offers, [n] + more, regime, setup)
            == [SlotEvent(offers[0].slot)] + Attempts(offers[0], n, regime, setup)
               + Blocks(offers[1..], more, regime, setup)
  {
    assert ([n] + more)[1..] == more;
  }

  lemma SlotFeasible(o: Offer)
    requires FeasibleOffer(o)
    ensures Feasible(SlotEvent(o.slot))
  {
  }

  lemma NothingNeedsRoom(s: State, buys: nat, setup: Setup)
    requires AllSound(s.held)
    ensures BuysHaveRoom(s, [], buys, setup)
  {
  }

  /** A day issues its slots in order, and after each slot attempts on its first candidates in the scanner's order;
   *  every attempt comes while the day's filled buys leave room, and when room is left at the end no candidate was
   *  passed over. */
  lemma DayInOrder(s: State, day: Day, setup: Setup) returns (counts: seq<nat>)
    requires AllSound(s.held) && FeasibleDay(day)
    ensures |counts| == |day.offers| && forall k :: 0 <= k < |day.offers| ==> counts[k] <= |day.offers[k].candidates|
    ensures var trace := DayTrace(s, day, setup);
            && trace == Blocks(day.offers, counts, day.regime, setup) && BuysHaveRoom(s, trace, 0, setup)
            && (FilledBuys(s, trace, setup) < setup.args.maxBuysPerDay ==>
                  forall k :: 0 <= k < |day.offers| ==> counts[k] == |day.offers[k].candidates|)
  {
    counts := OffersTraceIsBlocks(s, day.offers, day.regime, 0, setup);
    OffersTraceCounts(s, day.offers, day.regime, 0, setup);
    hide BuysHaveRoom, Blocks;
  }
}
