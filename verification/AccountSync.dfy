/** Reconciliation of the PORTFOLIO table with the brokerage account. */
module AccountSync {
  import opened Prelude

  /** A holding of the account. */
  datatype Acct = Acct(code: string, name: string, quantity: int, avgPrice: real, currentPrice: real)

  datatype Status = Holding | Sold

  /** A row of the table. */
  datatype Row = Row(
    code: string,
    name: string,
    quantity: int,
    avgPrice: real,
    totalBuyAmount: real,
    highPrice: real,
    status: Status,
    sellState: string,
    stopLossPrice: real)

  type Table = map<nat, Row>

  datatype SellTrade = SellTrade(code: string, timestamp: int)

  datatype OnlyInDb = OnlyInDb(code: string, quantity: int, avgPrice: real, dbId: nat, sellTrades: nat,
                               lastSell: Option<int>)
  datatype Mismatch = Mismatch(code: string, kisQuantity: int, dbQuantity: int, dbId: nat)
  datatype Matched = Matched(code: string, quantity: int)

  datatype Comparison = Comparison(
    onlyInKis: seq<Acct>,
    onlyInDb: seq<OnlyInDb>,
    mismatch: seq<Mismatch>,
    matched: seq<Matched>)

  const SYNCED := "SYNCED_FROM_ACCOUNT"

  // ---------------------------------------------------------------------------
  // Dictionaries by code
  // ---------------------------------------------------------------------------

  /** `{h['code']: h for h in holdings}`: the last one wins. */
  function ByCode(holdings: seq<Acct>): (m: map<string, Acct>)
    ensures forall c :: c in m ==> m[c].code == c && m[c] in holdings
    ensures forall h <- holdings :: h.code in m
  {
    if holdings == [] then map[]
    else
      var h := holdings[|holdings| - 1];
      assert holdings == holdings[..|holdings| - 1] + [h];
      ByCode(holdings[..|holdings| - 1])[h.code := h]
  }

  /** A listing of the HOLDING rows, each once, in the order the query returned them. */
  ghost predicate ListsHolding(ids: seq<nat>, t: Table) {
    && (forall i, j :: 0 <= i < j < |ids| ==> ids[i] != ids[j])
    && (forall id :: id in ids <==> id in t && t[id].status.Holding?)
  }

  /** `{p.stock_code: p for p in db_portfolio}`: the last listed row of a code wins. */
  function RowByCode(ids: seq<nat>, t: Table): (m: map<string, nat>)
    requires forall id <- ids :: id in t
    ensures forall c :: c in m ==> m[c] in ids && m[c] in t && t[m[c]].code == c
    ensures forall id <- ids :: t[id].code in m
  {
    if ids == [] then map[]
    else
      var id := ids[|ids| - 1];
      assert ids == ids[..|ids| - 1] + [id];
      RowByCode(ids[..|ids| - 1], t)[t[id].code := id]
  }

  /** A listing of a set of codes, each once, in whatever order the set is walked. */
  ghost predicate Enumerates(codes: seq<string>, keys: set<string>) {
    && (forall i, j :: 0 <= i < j < |codes| ==> codes[i] != codes[j])
    && (forall c :: c in codes <==> c in keys)
  }

  method Walk(keys: set<string>) returns (codes: seq<string>)
    ensures Enumerates(codes, keys)
  {
    codes := [];
    var todo := keys;
    while todo != {}
      invariant todo <= keys && Enumerates(codes, keys - todo)
      decreases todo
    {
      var c :| c in todo;
      codes := codes + [c];
      todo := todo - {c};
    }
  }

  // ---------------------------------------------------------------------------
  // Comparison
  // ---------------------------------------------------------------------------

  function SellsOf(trades: seq<SellTrade>, code: string): seq<SellTrade> {
    if trades == [] then []
    else SellsOf(trades[..|trades| - 1], code)
         + if trades[|trades| - 1].code == code then [trades[|trades| - 1]] else []
  }

  function DbEntry(code: string, id: nat, row: Row, trades: seq<SellTrade>): OnlyInDb {
    var sells := SellsOf(trades, code);
    OnlyInDb(code, row.quantity, row.avgPrice, id, |sells|, if sells != [] then Some(sells[0].timestamp) else None)
  }

  function Codes<T>(xs: seq<T>, codeOf: T -> string): (cs: seq<string>)
    ensures |cs| == |xs| && forall i :: 0 <= i < |xs| ==> cs[i] == codeOf(xs[i])
  {
    seq(|xs|, i requires 0 <= i < |xs| => codeOf(xs[i]))
  }

  function KisCode(x: Acct): string {
    x.code
  }

  function DbCode(x: OnlyInDb): string {
    x.code
  }

  function MismatchCode(x: Mismatch): string {
    x.code
  }

  function MatchedCode(x: Matched): string {
    x.code
  }

  /** Codes on both sides whose quantities differ. */
  function Differing(kis: map<string, Acct>, db: map<string, nat>, t: Table): set<string>
    requires forall k :: k in db ==> db[k] in t
  {
    set k | k in kis && k in db && kis[k].quantity != t[db[k]].quantity
  }

  /** What the four lists of a comparison contain: every code of either side, in exactly one of them. */
  ghost predicate IsComparison(c: Comparison, kis: map<string, Acct>, db: map<string, nat>, t: Table,
                               trades: seq<SellTrade>)
    requires forall k :: k in db ==> db[k] in t
  {
    && Enumerates(Codes(c.onlyInKis, KisCode), kis.Keys - db.Keys)
    && Enumerates(Codes(c.onlyInDb, DbCode), db.Keys - kis.Keys)
    && Enumerates(Codes(c.mismatch, MismatchCode), Differing(kis, db, t))
    && Enumerates(Codes(c.matched, MatchedCode), kis.Keys * db.Keys - Differing(kis, db, t))
    && (forall i :: 0 <= i < |c.onlyInKis| ==>
          c.onlyInKis[i].code in kis && c.onlyInKis[i] == kis[c.onlyInKis[i].code])
    && (forall i :: 0 <= i < |c.onlyInDb| ==>
          var x := c.onlyInDb[i]; x.code in db && x == DbEntry(x.code, db[x.code], t[db[x.code]], trades))
    && (forall i :: 0 <= i < |c.mismatch| ==>
          var x := c.mismatch[i];
          && x.code in kis && x.code in db
          && x == Mismatch(x.code, kis[x.code].quantity, t[db[x.code]].quantity, db[x.code]))
    && (forall i :: 0 <= i < |c.matched| ==>
          var x := c.matched[i]; x.code in kis && x == Matched(x.code, kis[x.code].quantity))
  }

  method CompareHoldings(holdings: seq<Acct>, ids: seq<nat>, t: Table, trades: seq<SellTrade>) returns (c: Comparison)
    requires ListsHolding(ids, t)
    ensures IsComparison(c, ByCode(holdings), RowByCode(ids, t), t, trades)
  {
    var kis, db := ByCode(holdings), RowByCode(ids, t);
    var a := ListOnlyInKis(kis, kis.Keys - db.Keys);
    var b := ListOnlyInDb(db, t, trades, db.Keys - kis.Keys);
    var m, ok := ListCommon(kis, db, t);
    c := Comparison(a, b, m, ok);
  }

  method ListOnlyInKis(kis: map<string, Acct>, keys: set<string>) returns (xs: seq<Acct>)
    requires keys <= kis.Keys && forall k :: k in kis ==> kis[k].code == k
    ensures Enumerates(Codes(xs, KisCode), keys)
    ensures forall i :: 0 <= i < |xs| ==> xs[i].code in kis && xs[i] == kis[xs[i].code]
  {
    var codes := Walk(keys);
    xs := [];
    for i := 0 to |codes|
      invariant |xs| == i && forall j :: 0 <= j < i ==> codes[j] in kis && xs[j] == kis[codes[j]]
    {
      assert codes[i] in codes;
      xs := xs + [kis[codes[i]]];
    }
    assert Codes(xs, KisCode) == codes;
  }

  method ListOnlyInDb(db: map<string, nat>, t: Table, trades: seq<SellTrade>, keys: set<string>)
    returns (xs: seq<OnlyInDb>)
    requires keys <= db.Keys && forall k :: k in db ==> db[k] in t
    ensures Enumerates(Codes(xs, DbCode), keys)
    ensures forall i :: 0 <= i < |xs| ==>
              xs[i].code in db && xs[i] == DbEntry(xs[i].code, db[xs[i].code], t[db[xs[i].code]], trades)
  {
    var codes := Walk(keys);
    xs := [];
    for i := 0 to |codes|
      invariant |xs| == i
      invariant forall j :: 0 <= j < i ==>
                  codes[j] in db && xs[j] == DbEntry(codes[j], db[codes[j]], t[db[codes[j]]], trades)
    {
      assert codes[i] in codes;
      xs := xs + [DbEntry(codes[i], db[codes[i]], t[db[codes[i]]], trades)];
    }
    assert Codes(xs, DbCode) == codes;
  }

  method ListCommon(kis: map<string, Acct>, db: map<string, nat>, t: Table) returns (m: seq<Mismatch>, ok: seq<Matched>)
    requires forall k :: k in db ==> db[k] in t
    ensures Enumerates(Codes(m, MismatchCode), Differing(kis, db, t))
    ensures Enumerates(Codes(ok, MatchedCode), kis.Keys * db.Keys - Differing(kis, db, t))
    ensures forall i :: 0 <= i < |m| ==>
              var x := m[i];
              && x.code in kis && x.code in db
              && x == Mismatch(x.code, kis[x.code].quantity, t[db[x.code]].quantity, db[x.code])
    ensures forall i :: 0 <= i < |ok| ==> var x := ok[i]; x.code in kis && x == Matched(x.code, kis[x.code].quantity)
  {
    var todo := kis.Keys * db.Keys;
    m, ok := [], [];
    while todo != {}
      invariant todo <= kis.Keys * db.Keys
      invariant Enumerates(Codes(m, MismatchCode), Differing(kis, db, t) - todo)
      invariant Enumerates(Codes(ok, MatchedCode), kis.Keys * db.Keys - Differing(kis, db, t) - todo)
      invariant forall i :: 0 <= i < |m| ==>
                  var x := m[i];
                  && x.code in kis && x.code in db
                  && x == Mismatch(x.code, kis[x.code].quantity, t[db[x.code]].quantity, db[x.code])
      invariant forall i :: 0 <= i < |ok| ==>
                  var x := ok[i]; x.code in kis && x == Matched(x.code, kis[x.code].quantity)
      decreases todo
    {
      var code :| code in todo;
      var row := t[db[code]];
      if kis[code].quantity != row.quantity {
        var x := Mismatch(code, kis[code].quantity, row.quantity, db[code]);
        assert Codes(m + [x], MismatchCode) == Codes(m, MismatchCode) + [code];
        m := m + [x];
      } else {
        var x := Matched(code, kis[code].quantity);
        assert Codes(ok + [x], MatchedCode) == Codes(ok, MatchedCode) + [code];
        ok := ok + [x];
      }
      todo := todo - {code};
    }
  }

  // ---------------------------------------------------------------------------
  // Changes to the table
  // ---------------------------------------------------------------------------

  function SoldRow(r: Row): Row {
    r.(status := Sold, sellState := SYNCED)
  }

  /** Rows of the items are closed. */
  function MarkSold(t: Table, items: seq<OnlyInDb>): Table {
    if items == [] then t
    else
      var before, id := MarkSold(t, items[..|items| - 1]), items[|items| - 1].dbId;
      if id in before then before[id := SoldRow(before[id])] else before
  }

  /** Rows of the items get the account's quantity. */
  function SetQuantities(t: Table, items: seq<Mismatch>): Table {
    if items == [] then t
    else
      var before, x := SetQuantities(t, items[..|items| - 1]), items[|items| - 1];
      if x.dbId in before then before[x.dbId := before[x.dbId].(quantity := x.kisQuantity)] else before
  }

  function NewRow(a: Acct): Row {
    Row(a.code, a.name, a.quantity, a.avgPrice, Worth(a.quantity, a.avgPrice), a.currentPrice, Holding, SYNCED,
        a.avgPrice * 0.98)
  }

  /** New rows get consecutive fresh keys. */
  function AddRows(t: Table, nextId: nat, items: seq<Acct>): Table {
    if items == [] then t
    else AddRows(t, nextId, items[..|items| - 1])[nextId + |items| - 1 := NewRow(items[|items| - 1])]
  }

  /** One pass with confirmation: close, correct, and add. */
  function PassTable(t: Table, nextId: nat, c: Comparison, addMissing: bool): Table {
    AddRows(SetQuantities(MarkSold(t, c.onlyInDb), c.mismatch), nextId, if addMissing then c.onlyInKis else [])
  }

  class Session {
    var table: Table
    var nextId: nat

    ghost predicate Valid()
      reads this
    {
      forall id :: id in table ==> id < nextId
    }

    constructor (table: Table, nextId: nat)
      requires forall id :: id in table ==> id < nextId
      ensures Valid() && this.table == table && this.nextId == nextId
    {
      this.table, this.nextId := table, nextId;
    }

    /** The HOLDING rows, in an order the query does not fix. */
    method GetDbPortfolio() returns (ids: seq<nat>)
      ensures ListsHolding(ids, table)
    {
      ids := [];
      var todo := table.Keys;
      while todo != {}
        invariant todo <= table.Keys
        invariant forall i, j :: 0 <= i < j < |ids| ==> ids[i] != ids[j]
        invariant forall id :: id in ids <==> id in table && id !in todo && table[id].status.Holding?
        decreases todo
      {
        var id :| id in todo;
        if table[id].status.Holding? {
          ids := ids + [id];
        }
        todo := todo - {id};
      }
    }

    /** Close and correct the listed rows. The commit may fail when something was changed; then everything is rolled
     *  back. */
    method ApplySync(c: Comparison, dryRun: bool, commits: bool) returns (ok: bool)
      requires Valid()
      modifies this`table
      ensures Valid() && table.Keys == old(table).Keys && (dryRun || commits ==> ok)
      ensures table == if dryRun || !ok then old(table) else SetQuantities(MarkSold(old(table), c.onlyInDb), c.mismatch)
    {
      if dryRun {
        return true;
      }
      var before, changesMade := table, 0;
      for i := 0 to |c.onlyInDb|
        invariant table == MarkSold(before, c.onlyInDb[..i]) && table.Keys == before.Keys
      {
        assert c.onlyInDb[..i + 1][..i] == c.onlyInDb[..i];
        var id := c.onlyInDb[i].dbId;
        if id in table {
          table := table[id := table[id].(status := Sold, sellState := SYNCED)];
          changesMade := changesMade + 1;
        }
      }
      assert c.onlyInDb[..|c.onlyInDb|] == c.onlyInDb;
      ghost var closed := table;
      for i := 0 to |c.mismatch|
        invariant table == SetQuantities(closed, c.mismatch[..i]) && table.Keys == before.Keys
      {
        assert c.mismatch[..i + 1][..i] == c.mismatch[..i];
        var x := c.mismatch[i];
        if x.dbId in table {
          table := table[x.dbId := table[x.dbId].(quantity := x.kisQuantity)];
          changesMade := changesMade + 1;
        }
      }
      assert c.mismatch[..|c.mismatch|] == c.mismatch;
      ok := changesMade == 0 || commits;
      if !ok {
        table := before;
      }
    }

    /** Add a row per item under fresh keys; a failing commit rolls them back. */
    method AddMissingHoldings(items: seq<Acct>, dryRun: bool, commits: bool) returns (ok: bool)
      requires Valid()
      modifies this
      ensures Valid() && (dryRun || commits ==> ok)
      ensures table == if dryRun || !ok then old(table) else AddRows(old(table), old(nextId), items)
      ensures nextId == old(nextId) + if dryRun || !ok then 0 else |items|
    {
      if dryRun {
        return true;
      }
      var before, firstId := table, nextId;
      for i := 0 to |items|
        invariant Valid() && nextId == firstId + i && table == AddRows(before, firstId, items[..i])
      {
        assert items[..i + 1][..i] == items[..i];
        table := table[nextId := NewRow(items[i])];
        nextId := nextId + 1;
      }
      assert items[..|items|] == items;
      ok := items == [] || commits;
      if !ok {
        table, nextId := before, firstId;
      }
    }

    /** The whole command; with a dry run, without confirmation, or when the first commit fails, the table stays as it
     *  is; when only the second one fails, the pass is one without additions. */
    method Synchronise(holdings: seq<Acct>, trades: seq<SellTrade>, addMissing: bool, dryRun: bool, confirmed: bool,
                       syncCommits: bool, addCommits: bool)
      returns (c: Comparison, synced: bool, added: bool, ghost ids: seq<nat>)
      requires Valid()
      modifies this
      ensures Valid() && ListsHolding(ids, old(table))
      ensures IsComparison(c, ByCode(holdings), RowByCode(ids, old(table)), old(table), trades)
      ensures (syncCommits ==> synced) && (addCommits ==> added)
      ensures table == if dryRun || !confirmed || !synced then old(table)
                       else PassTable(old(table), old(nextId), c, addMissing && added)
    {
      synced, added := true, true;
      var listed := GetDbPortfolio();
      ids := listed;
      c := CompareHoldings(holdings, listed, table, trades);
      var changes := |c.onlyInDb| + |c.mismatch| + if addMissing then |c.onlyInKis| else 0;
      if changes == 0 {
        return;
      }
      if dryRun {
        synced := ApplySync(c, true, syncCommits);
        return;
      }
      if confirmed {
        synced := ApplySync(c, false, syncCommits);
        if synced && addMissing && c.onlyInKis != [] {
          added := AddMissingHoldings(c.onlyInKis, false, addCommits);
        }
      }
    }
  }
}
