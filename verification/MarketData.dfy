/** Price data as the engine sees it: one list of dated rows per stock code. */
module MarketData {
  import opened Prelude

  /** A daily row. Indicators may be missing (NaN in the source). */
  datatype Row = Row(
    date: int,
    open: real,
    high: real,
    low: real,
    close: real,
    rsi: Option<real>,
    atr: Option<real>,
    ma5: Option<real>,
    ma20: Option<real>)

  type PriceCache = map<string, seq<Row>>

  /** Rows are kept in date order, as the price query sorts them. */
  ghost predicate InDateOrder(rows: seq<Row>) {
    forall i, j :: 0 <= i < j < |rows| ==> rows[i].date <= rows[j].date
  }

  /** The last row dated on or before the given date. */
  function RowAtOrBefore(rows: seq<Row>, date: int): (r: Option<Row>)
  {
    if rows == [] then None
    else if rows[|rows| - 1].date <= date then Some(rows[|rows| - 1])
    else RowAtOrBefore(rows[..|rows| - 1], date)
  }

  /** Nothing is found exactly when every row is later; what is found is the latest row not after the date. */
  lemma {:induction false} RowAtOrBeforeIsLatest(rows: seq<Row>, date: int)
    requires InDateOrder(rows)
    ensures RowAtOrBefore(rows, date).None? <==> forall i :: 0 <= i < |rows| ==> rows[i].date > date
    ensures RowAtOrBefore(rows, date).Some? ==>
              var r := RowAtOrBefore(rows, date).value;
              r in rows && r.date <= date &&
              forall i :: 0 <= i < |rows| && rows[i].date <= date ==> rows[i].date <= r.date
  {
    if rows != [] && rows[|rows| - 1].date > date {
      var front := rows[..|rows| - 1];
      RowAtOrBeforeIsLatest(front, date);
      assert forall i :: 0 <= i < |front| ==> rows[i] == front[i];
    }
  }

  /** A row not after the date with only later ones behind it. */
  ghost predicate IsLastUpTo(rows: seq<Row>, date: int, r: Row) {
    exists k :: 0 <= k < |rows| && rows[k] == r && r.date <= date
                && forall i :: k < i < |rows| ==> rows[i].date > date
  }

  /** Whatever the order of the rows, what is found is the last one not after the date. */
  lemma {:induction false} RowAtOrBeforeIsLast(rows: seq<Row>, date: int)
    ensures forall r :: RowAtOrBefore(rows, date) == Some(r) <==> IsLastUpTo(rows, date, r)
  {
    if rows != [] {
      var front, last := rows[..|rows| - 1], rows[|rows| - 1];
      assert rows == front + [last];
      RowAtOrBeforeIsLast(front, date);
      hide IsLastUpTo;
      forall r { LastGrows(front, last, date, r); }
    }
  }

  lemma LastGrows(front: seq<Row>, last: Row, date: int, r: Row)
    ensures IsLastUpTo(front + [last], date, r)
            <==> if last.date <= date then r == last else IsLastUpTo(front, date, r)
  {
    var rows := front + [last];
    assert forall i :: 0 <= i < |front| ==> rows[i] == front[i];
    assert rows[|front|] == last;
  }

  function RowFor(cache: PriceCache, code: string, date: int): Option<Row> {
    if code in cache then RowAtOrBefore(cache[code], date) else None
  }
}
