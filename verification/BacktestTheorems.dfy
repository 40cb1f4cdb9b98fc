/** What holds of a whole backtest, from its first day to its last. */
module BacktestTheorems {
  import opened Prelude
  import opened MarketData
  import opened EngineSpec
  import opened DriverSpec
  import opened EngineLedger
  import opened EngineValue

  /** At the end of every day of a backtest the book balances: shares match the trade log, cash is the initial capital
      plus all cash flows and never negative, and no more positions are open than allowed. */
  lemma BooksBalanceEveryDay(initialCapital: real, days: seq<Day>, setup: Setup)
    requires initialCapital >= 0.0 && forall i :: 0 <= i < |days| ==> FeasibleDay(days[i])
    ensures Ledger(RunCalendar(Start(initialCapital), days, setup), initialCapital, setup.cfg)
  {
    LedgerOverRun(initialCapital, CalendarTrace(Start(initialCapital), days, setup), setup.cfg, setup.args);
  }

  lemma DayAddsBuys(s: State, front: seq<Day>, last: Day, setup: Setup)
    requires AllSound(s.held) && setup.args.maxBuysPerDay >= 0
    requires FeasibleDay(last) && forall i :: 0 <= i < |front| ==> FeasibleDay(front[i])
    ensures FilledBuys(s, CalendarTrace(s, front + [last], setup), setup)
            <= FilledBuys(s, CalendarTrace(s, front, setup), setup) + setup.args.maxBuysPerDay
  {
    hide FeasibleDay, DayTrace, FilledBuys;
    var before := CalendarTrace(s, front, setup);
    var now := Run(s, before, setup.cfg, setup.args);
    DailyBuyLimit(now, last, setup);
    FilledAppend(s, before, DayTrace(now, last, setup), setup);
    assert (front + [last])[..|front|] == front;
  }

  lemma NoDaysNoBuys(s: State, setup: Setup)
    requires AllSound(s.held)
    ensures FilledBuys(s, CalendarTrace(s, [], setup), setup) == 0
  {
  }

  /** A whole backtest fills at most the daily limit times the number of days. */
  lemma {:induction false} BuysOverCalendar(s: State, days: seq<Day>, setup: Setup)
    requires AllSound(s.held) && setup.args.maxBuysPerDay >= 0
    requires forall i :: 0 <= i < |days| ==> FeasibleDay(days[i])
    ensures FilledBuys(s, CalendarTrace(s, days, setup), setup) <= |days| * setup.args.maxBuysPerDay
    decreases |days|
  {
    hide FeasibleDay, CalendarTrace, FilledBuys;
    var limit := setup.args.maxBuysPerDay;
    if days != [] {
      var front, last := days[..|days| - 1], days[|days| - 1];
      BuysOverCalendar(s, front, setup);
      DayAddsBuys(s, front, last, setup);
      assert days == front + [last];
      assert |front| * limit + limit == |days| * limit;
    } else {
      NoDaysNoBuys(s, setup);
    }
  }

  /** Each point of the recorded equity curve is the initial capital plus mark-to-market gains up to that day's closing
      prices, minus every fee paid so far. */
  lemma CurveIsGainsLessFees(initialCapital: real, days: seq<Day>, i: nat, start: Slot, setup: Setup)
    requires i < |days| && forall j :: 0 <= j < |days| ==> FeasibleDay(days[j])
    ensures var s := Start(initialCapital);
            var trace := CalendarTrace(s, days[..i + 1], setup);
            var r := Run(s, trace, setup.cfg, setup.args);
            EquityCurve(s, days, setup)[i]
            == EndOfDay(days[i].date,
                        initialCapital + Gains(s, trace, start, setup.cfg, setup.args)
                        + Drift(r.held, LastSlot(trace, start), days[i].closing) - Fees(r.log))
  {
    var s := Start(initialCapital);
    var trace := CalendarTrace(s, days[..i + 1], setup);
    var r := Run(s, trace, setup.cfg, setup.args);
    DayOfCalendar(s, days, i, setup);
    hide FeasibleDay, CalendarTrace, EquityCurve, RunDay;
    FinalEquity(initialCapital, trace, start, setup.cfg, setup.args);
    DriftIsRevaluation(r.held, LastSlot(trace, start), days[i].closing);
  }
}
