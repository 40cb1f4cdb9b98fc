/** The single cursor over time-sorted signals, against grouping the signals by date. */
module SignalCursor {
  import opened Prelude

  datatype Signal = Signal(code: string, price: real, atr: Option<real>, time: int) {
    /** The calendar day of a signal; times are minutes. */
    function Date(): int {
      time / 1440
    }
  }

  predicate SortedByTime(signals: seq<Signal>) {
    forall i, j :: 0 <= i < j < |signals| ==> signals[i].time <= signals[j].time
  }

  predicate Increasing(days: seq<int>) {
    forall i, j :: 0 <= i < j < |days| ==> days[i] < days[j]
  }

  /** Where the cursor stops on a day: at the first remaining signal dated later. */
  function Advance(signals: seq<Signal>, from: nat, date: int): (to: nat)
    requires from <= |signals|
    ensures from <= to <= |signals|
    ensures to < |signals| ==> signals[to].Date() > date
    ensures forall i :: from <= i < to ==> signals[i].Date() <= date
    decreases |signals| - from
  {
    if from == |signals| || signals[from].Date() > date then from else Advance(signals, from + 1, date)
  }

  /** One turn of the cursor: past a signal that is not later, or at rest in front of one that is. */
  lemma AdvanceTurn(signals: seq<Signal>, from: nat, date: int)
    requires from < |signals|
    ensures Advance(signals, from, date)
            == if signals[from].Date() > date then from else Advance(signals, from + 1, date)
  {
  }

  lemma AdvanceEnds(signals: seq<Signal>, date: int)
    ensures Advance(signals, |signals|, date) == |signals|
  {
  }

  /** The cursor before the day at place `k`. */
  function Cursor(signals: seq<Signal>, days: seq<int>, k: nat): (c: nat)
    requires k <= |days|
    ensures c <= |signals|
  {
    if k == 0 then 0 else Advance(signals, Cursor(signals, days, k - 1), days[k - 1])
  }

  /** The signals examined on the day at place `k`. */
  function Batch(signals: seq<Signal>, days: seq<int>, k: nat): seq<Signal>
    requires k < |days|
  {
    signals[Cursor(signals, days, k)..Cursor(signals, days, k + 1)]
  }

  /** Grouping by date: the signals of one day, in time order. */
  function OnDate(signals: seq<Signal>, date: int): seq<Signal> {
    if signals == [] then []
    else OnDate(signals[..|signals| - 1], date)
         + if signals[|signals| - 1].Date() == date then [signals[|signals| - 1]] else []
  }

  lemma {:induction false} OnDateHasDate(signals: seq<Signal>, date: int)
    ensures forall s <- OnDate(signals, date) :: s.Date() == date
  {
    if signals != [] {
      OnDateHasDate(signals[..|signals| - 1], date);
    }
  }

  lemma SliceOfFront<T>(xs: seq<T>, lo: nat, hi: nat)
    requires lo <= hi <= |xs| && xs != []
    ensures hi < |xs| ==> xs[lo..hi] == xs[..|xs| - 1][lo..hi]
    ensures lo < hi == |xs| ==> xs[lo..hi] == xs[..|xs| - 1][lo..hi - 1] + [xs[|xs| - 1]]
  {
  }

  /** A stretch that holds exactly the signals of a date is that date's group. */
  lemma {:induction false} StretchIsGroup(signals: seq<Signal>, date: int, lo: nat, hi: nat)
    requires lo <= hi <= |signals|
    requires forall i :: 0 <= i < |signals| ==> (signals[i].Date() == date <==> lo <= i < hi)
    ensures OnDate(signals, date) == signals[lo..hi]
  {
    if signals != [] {
      var n := |signals| - 1;
      var front := signals[..n];
      var from, to := if lo <= n then lo else n, if hi <= n then hi else n;
      assert forall i :: 0 <= i < n ==> front[i] == signals[i];
      StretchIsGroup(front, date, from, to);
      SliceOfFront(signals, lo, hi);
    }
  }

  lemma LaterDate(a: Signal, b: Signal)
    requires a.time <= b.time
    ensures a.Date() <= b.Date()
  {
  }

  /** Before the day at place `k`, the cursor has passed exactly the signals dated up to the day before it. */
  lemma {:induction false} CursorCounts(signals: seq<Signal>, days: seq<int>, k: nat)
    requires SortedByTime(signals) && Increasing(days) && 1 <= k <= |days|
    ensures forall i :: 0 <= i < |signals| ==> (i < Cursor(signals, days, k) <==> signals[i].Date() <= days[k - 1])
  {
    var before, c := Cursor(signals, days, k - 1), Cursor(signals, days, k);
    assert c == Advance(signals, before, days[k - 1]);
    if k > 1 {
      CursorCounts(signals, days, k - 1);
      assert days[k - 2] < days[k - 1];
    }
    assert forall i :: 0 <= i < before ==> signals[i].Date() <= days[k - 1];
    forall i | 0 <= i < |signals| ensures i < c <==> signals[i].Date() <= days[k - 1] {
      if c < |signals| && c <= i {
        assert signals[c].time <= signals[i].time;
        LaterDate(signals[c], signals[i]);
      }
    }
  }

  /** The batches of the first `k` days, one after the other. */
  function Examined(signals: seq<Signal>, days: seq<int>, k: nat): seq<Signal>
    requires k <= |days|
  {
    if k == 0 then [] else Examined(signals, days, k - 1) + Batch(signals, days, k - 1)
  }

  /** The batches together are the signals the cursor has passed, each once and in order. */
  lemma {:induction false} ExaminedOnce(signals: seq<Signal>, days: seq<int>, k: nat)
    requires k <= |days|
    ensures Examined(signals, days, k) == signals[..Cursor(signals, days, k)]
  {
    hide Cursor, Batch;
    if k == 0 {
      StartOfCursor(signals, days);
    } else {
      ExaminedOnce(signals, days, k - 1);
      BatchFollows(signals, days, k - 1);
    }
  }

  lemma StartOfCursor(signals: seq<Signal>, days: seq<int>)
    ensures Cursor(signals, days, 0) == 0
  {
  }

  lemma BatchFollows(signals: seq<Signal>, days: seq<int>, k: nat)
    requires k < |days|
    ensures signals[..Cursor(signals, days, k + 1)] == signals[..Cursor(signals, days, k)] + Batch(signals, days, k)
  {
  }

  /** The signals dated up to a day. */
  function UpToDate(signals: seq<Signal>, date: int): seq<Signal> {
    if signals == [] then []
    else UpToDate(signals[..|signals| - 1], date)
         + if signals[|signals| - 1].Date() <= date then [signals[|signals| - 1]] else []
  }

  /** In time order, the signals up to a day are a prefix. */
  lemma {:induction false} PrefixIsUpTo(signals: seq<Signal>, date: int, n: nat)
    requires n <= |signals| && forall i :: 0 <= i < |signals| ==> (i < n <==> signals[i].Date() <= date)
    ensures UpToDate(signals, date) == signals[..n]
  {
    if signals != [] {
      var last := |signals| - 1;
      var front := signals[..last];
      if n == |signals| {
        PrefixIsUpTo(front, date, last);
        assert signals[..n] == front[..last] + [signals[last]];
      } else {
        PrefixIsUpTo(front, date, n);
        assert signals[..n] == front[..n];
      }
    }
  }

  /** By the end of a run exactly the signals dated up to its last day have been examined, each once and in time order,
   *  whether or not they fall on calendar days. */
  lemma RunExaminesOnce(signals: seq<Signal>, days: seq<int>)
    requires SortedByTime(signals) && Increasing(days) && days != []
    ensures Examined(signals, days, |days|) == UpToDate(signals, days[|days| - 1])
  {
    ExaminedOnce(signals, days, |days|);
    CursorCounts(signals, days, |days|);
    PrefixIsUpTo(signals, days[|days| - 1], Cursor(signals, days, |days|));
  }

  /** The date groups of the first `k` days, one after the other. */
  function Grouped(signals: seq<Signal>, days: seq<int>, k: nat): seq<Signal>
    requires k <= |days|
  {
    if k == 0 then [] else Grouped(signals, days, k - 1) + OnDate(signals, days[k - 1])
  }

  /** Every signal up to the last day falls on a calendar day. */
  ghost predicate OnCalendar(signals: seq<Signal>, days: seq<int>) {
    forall i :: 0 <= i < |signals| && days != [] && signals[i].Date() <= days[|days| - 1] ==> signals[i].Date() in days
  }

  lemma DayOrder(days: seq<int>, j: nat, k: nat)
    requires Increasing(days) && j < |days| && k < |days|
    ensures days[j] <= days[k] <==> j <= k
  {
  }

  /** The batch of a day is the date's group when the signals are dated on calendar days. */
  lemma BatchIsGroup(signals: seq<Signal>, days: seq<int>, k: nat)
    requires SortedByTime(signals) && Increasing(days) && k < |days| && OnCalendar(signals, days)
    ensures Batch(signals, days, k) == OnDate(signals, days[k])
  {
    var lo, hi := Cursor(signals, days, k), Cursor(signals, days, k + 1);
    CursorCounts(signals, days, k + 1);
    if k > 0 {
      CursorCounts(signals, days, k);
    }
    assert forall j :: 0 <= j < k ==> days[j] <= days[k - 1];
    forall i | 0 <= i < |signals| ensures signals[i].Date() == days[k] <==> lo <= i < hi {
      if lo <= i < hi {
        assert days[k] <= days[|days| - 1];
        var j :| 0 <= j < |days| && days[j] == signals[i].Date();
        DayOrder(days, j, k);
        assert j >= k;
      }
    }
    StretchIsGroup(signals, days[k], lo, hi);
  }

  lemma {:induction false} GroupsAreExamined(signals: seq<Signal>, days: seq<int>, k: nat)
    requires SortedByTime(signals) && Increasing(days) && k <= |days| && OnCalendar(signals, days)
    ensures Grouped(signals, days, k) == Examined(signals, days, k)
  {
    hide Batch, OnDate, OnCalendar, SortedByTime, Increasing, Cursor;
    if k > 0 {
      GroupsAreExamined(signals, days, k - 1);
      BatchIsGroup(signals, days, k - 1);
    }
  }

  /** With signals on calendar days, the date groups of the calendar are the signals up to its end, each once. */
  lemma GroupsCoverOnce(signals: seq<Signal>, days: seq<int>)
    requires SortedByTime(signals) && Increasing(days) && days != [] && OnCalendar(signals, days)
    ensures Grouped(signals, days, |days|) == UpToDate(signals, days[|days| - 1])
  {
    GroupsAreExamined(signals, days, |days|);
    RunExaminesOnce(signals, days);
  }

  /** A signal dated between calendar days is examined on a day that is not its own. */
  lemma StrayIsExamined(signals: seq<Signal>, days: seq<int>, i: nat) returns (k: nat)
    requires SortedByTime(signals) && Increasing(days) && i < |signals| && days != []
    requires signals[i].Date() <= days[|days| - 1]
    ensures k < |days| && signals[i] in Batch(signals, days, k)
  {
    k := 0;
    while days[k] < signals[i].Date()
      invariant k < |days|
      invariant k > 0 ==> days[k - 1] < signals[i].Date()
      decreases |days| - k
    {
      k := k + 1;
    }
    CursorCounts(signals, days, k + 1);
    if k > 0 {
      CursorCounts(signals, days, k);
    }
    var lo, hi := Cursor(signals, days, k), Cursor(signals, days, k + 1);
    assert lo <= i < hi;
    assert signals[lo..hi][i - lo] == signals[i];
  }

  /** The cursor loop equals grouping by date exactly when no signal falls between calendar days. */
  lemma CursorGroupsIff(signals: seq<Signal>, days: seq<int>)
    requires SortedByTime(signals) && Increasing(days)
    ensures (forall k :: 0 <= k < |days| ==> Batch(signals, days, k) == OnDate(signals, days[k]))
            <==> OnCalendar(signals, days)
  {
    if OnCalendar(signals, days) {
      forall k | 0 <= k < |days| ensures Batch(signals, days, k) == OnDate(signals, days[k]) {
        BatchIsGroup(signals, days, k);
      }
    } else {
      var i :| 0 <= i < |signals| && days != [] && signals[i].Date() <= days[|days| - 1] && signals[i].Date() !in days;
      var k := StrayIsExamined(signals, days, i);
      OnDateHasDate(signals, days[k]);
      assert Batch(signals, days, k) != OnDate(signals, days[k]);
    }
  }
}
