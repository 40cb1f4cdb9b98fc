/** What a reconciliation pass achieves: the account's view, a fixpoint, and progress with duplicate rows. */
module AccountSyncProofs {
  import opened Prelude
  import opened AccountSync

  // ---------------------------------------------------------------------------
  // Effects of the three kinds of change
  // ---------------------------------------------------------------------------

  ghost predicate ClosedBy(items: seq<OnlyInDb>, id: nat) {
    exists i :: 0 <= i < |items| && items[i].dbId == id
  }

  ghost predicate CorrectedBy(items: seq<Mismatch>, id: nat) {
    exists i :: 0 <= i < |items| && items[i].dbId == id
  }

  lemma {:induction false} MarkSoldEffect(t: Table, items: seq<OnlyInDb>)
    ensures MarkSold(t, items).Keys == t.Keys
    ensures forall id :: id in t ==> MarkSold(t, items)[id] == if ClosedBy(items, id) then SoldRow(t[id]) else t[id]
  {
    if items != [] {
      var front, last := items[..|items| - 1], items[|items| - 1];
      MarkSoldEffect(t, front);
      forall id | id in t
        ensures ClosedBy(items, id) <==> ClosedBy(front, id) || last.dbId == id
      {
        if ClosedBy(front, id) {
          var i :| 0 <= i < |front| && front[i].dbId == id;
          assert items[i].dbId == id;
        }
        if ClosedBy(items, id) && last.dbId != id {
          var i :| 0 <= i < |items| && items[i].dbId == id;
          assert front[i].dbId == id;
        }
      }
    }
  }

  /** Corrections that all carry the account's quantity for the row's code. */
  ghost predicate FromAccount(items: seq<Mismatch>, t: Table, kis: map<string, Acct>) {
    forall i :: 0 <= i < |items| ==>
      items[i].dbId in t && t[items[i].dbId].code in kis && items[i].kisQuantity == kis[t[items[i].dbId].code].quantity
  }

  function Corrected(r: Row, kis: map<string, Acct>): Row {
    if r.code in kis then r.(quantity := kis[r.code].quantity) else r
  }

  lemma {:induction false} SetQuantitiesEffect(t: Table, items: seq<Mismatch>, kis: map<string, Acct>)
    requires FromAccount(items, t, kis)
    ensures SetQuantities(t, items).Keys == t.Keys
    ensures forall id :: id in t ==>
              SetQuantities(t, items)[id] == if CorrectedBy(items, id) then Corrected(t[id], kis) else t[id]
  {
    if items != [] {
      var front, last := items[..|items| - 1], items[|items| - 1];
      assert forall i :: 0 <= i < |front| ==> front[i] == items[i];
      SetQuantitiesEffect(t, front, kis);
      hide CorrectedBy;
      forall id | id in t
        ensures CorrectedBy(items, id) <==> CorrectedBy(front, id) || last.dbId == id
      {
        CorrectedByMore(items, id);
      }
    }
  }

  lemma CorrectedByMore(items: seq<Mismatch>, id: nat)
    requires items != []
    ensures CorrectedBy(items, id) <==> CorrectedBy(items[..|items| - 1], id) || items[|items| - 1].dbId == id
  {
    var front, last := items[..|items| - 1], items[|items| - 1];
    if CorrectedBy(front, id) {
      var i :| 0 <= i < |front| && front[i].dbId == id;
      assert items[i].dbId == id;
    }
    if CorrectedBy(items, id) && last.dbId != id {
      var i :| 0 <= i < |items| && items[i].dbId == id;
      assert front[i].dbId == id;
    }
  }

  lemma {:induction false} AddRowsEffect(t: Table, nextId: nat, items: seq<Acct>)
    requires forall id :: id in t ==> id < nextId
    ensures forall id :: id in t ==> id in AddRows(t, nextId, items) && AddRows(t, nextId, items)[id] == t[id]
    ensures forall id :: nextId <= id < nextId + |items| ==>
              id in AddRows(t, nextId, items) && AddRows(t, nextId, items)[id] == NewRow(items[id - nextId])
    ensures forall id :: id in AddRows(t, nextId, items) ==> id in t || nextId <= id < nextId + |items|
  {
    if items != [] {
      var front, last := items[..|items| - 1], items[|items| - 1];
      AddRowsEffect(t, nextId, front);
      var before, after := AddRows(t, nextId, front), AddRows(t, nextId, items);
      assert after == before[nextId + |front| := NewRow(last)];
    }
  }

  // ---------------------------------------------------------------------------
  // Effect of one pass
  // ---------------------------------------------------------------------------

  /** The row a comparison works with for its code. */
  predicate Chosen(id: nat, r: Row, db: map<string, nat>) {
    r.code in db && db[r.code] == id
  }

  /** What a pass makes of one existing row. */
  function PassRow(id: nat, r: Row, kis: map<string, Acct>, db: map<string, nat>): Row {
    if !Chosen(id, r, db) then r
    else if r.code !in kis then SoldRow(r)
    else r.(quantity := kis[r.code].quantity)
  }

  /** Everything a pass starts from. */
  ghost predicate PassInput(t: Table, nextId: nat, holdings: seq<Acct>, ids: seq<nat>, c: Comparison,
                            trades: seq<SellTrade>) {
    && (forall id :: id in t ==> id < nextId)
    && ListsHolding(ids, t)
    && IsComparison(c, ByCode(holdings), RowByCode(ids, t), t, trades)
  }

  /** Which rows a comparison closes and corrects. */
  lemma ListsNameRows(t: Table, nextId: nat, holdings: seq<Acct>, ids: seq<nat>, c: Comparison, trades: seq<SellTrade>,
                      id: nat)
    requires PassInput(t, nextId, holdings, ids, c, trades) && id in t
    ensures var kis, db, r := ByCode(holdings), RowByCode(ids, t), t[id];
            && (ClosedBy(c.onlyInDb, id) <==> Chosen(id, r, db) && r.code !in kis)
            && (CorrectedBy(c.mismatch, id)
                <==> Chosen(id, r, db) && r.code in kis && kis[r.code].quantity != r.quantity)
  {
    var kis, db, r := ByCode(holdings), RowByCode(ids, t), t[id];
    if ClosedBy(c.onlyInDb, id) {
      var i :| 0 <= i < |c.onlyInDb| && c.onlyInDb[i].dbId == id;
      assert Codes(c.onlyInDb, DbCode)[i] in Codes(c.onlyInDb, DbCode);
    }
    if Chosen(id, r, db) && r.code !in kis {
      assert r.code in Codes(c.onlyInDb, DbCode);
      var i :| 0 <= i < |c.onlyInDb| && Codes(c.onlyInDb, DbCode)[i] == r.code;
      assert c.onlyInDb[i].dbId == id;
    }
    if CorrectedBy(c.mismatch, id) {
      var i :| 0 <= i < |c.mismatch| && c.mismatch[i].dbId == id;
      assert Codes(c.mismatch, MismatchCode)[i] in Codes(c.mismatch, MismatchCode);
    }
    if Chosen(id, r, db) && r.code in kis && kis[r.code].quantity != r.quantity {
      assert r.code in Differing(kis, db, t);
      assert r.code in Codes(c.mismatch, MismatchCode);
      var i :| 0 <= i < |c.mismatch| && Codes(c.mismatch, MismatchCode)[i] == r.code;
      assert c.mismatch[i].dbId == id;
    }
  }

  lemma CorrectionsFit(t: Table, nextId: nat, holdings: seq<Acct>, ids: seq<nat>, c: Comparison, trades: seq<SellTrade>)
    requires PassInput(t, nextId, holdings, ids, c, trades)
    ensures FromAccount(c.mismatch, MarkSold(t, c.onlyInDb), ByCode(holdings))
  {
    MarkSoldEffect(t, c.onlyInDb);
  }

  /** Closing and correcting treat every existing row on its own. */
  lemma RowsAfterSync(t: Table, nextId: nat, holdings: seq<Acct>, ids: seq<nat>, c: Comparison, trades: seq<SellTrade>)
    requires PassInput(t, nextId, holdings, ids, c, trades)
    ensures var after := SetQuantities(MarkSold(t, c.onlyInDb), c.mismatch);
            && after.Keys == t.Keys
            && forall id :: id in t ==> after[id] == PassRow(id, t[id], ByCode(holdings), RowByCode(ids, t))
  {
    var kis, db := ByCode(holdings), RowByCode(ids, t);
    var sold := MarkSold(t, c.onlyInDb);
    MarkSoldEffect(t, c.onlyInDb);
    CorrectionsFit(t, nextId, holdings, ids, c, trades);
    SetQuantitiesEffect(sold, c.mismatch, kis);
    hide PassInput, MarkSold, SetQuantities, ByCode, RowByCode, ClosedBy, CorrectedBy, FromAccount;
    forall id | id in t
      ensures SetQuantities(sold, c.mismatch)[id] == PassRow(id, t[id], kis, db)
    {
      ListsNameRows(t, nextId, holdings, ids, c, trades, id);
    }
  }

  /** A table after a pass: every old row treated on its own, and one new row per listed holding. */
  ghost predicate AfterPass(after: Table, t: Table, nextId: nat, kis: map<string, Acct>, db: map<string, nat>,
                            added: seq<Acct>) {
    && (forall id :: id in t ==> id in after && after[id] == PassRow(id, t[id], kis, db))
    && (forall id :: nextId <= id < nextId + |added| ==> id in after && after[id] == NewRow(added[id - nextId]))
    && (forall id :: id in after ==> id in t || nextId <= id < nextId + |added|)
  }

  lemma AddingCompletesPass(corrected: Table, t: Table, nextId: nat, kis: map<string, Acct>, db: map<string, nat>,
                            added: seq<Acct>)
    requires forall id :: id in t ==> id < nextId
    requires corrected.Keys == t.Keys && forall id :: id in t ==> corrected[id] == PassRow(id, t[id], kis, db)
    ensures AfterPass(AddRows(corrected, nextId, added), t, nextId, kis, db, added)
  {
    AddRowsEffect(corrected, nextId, added);
    hide AddRows, PassRow, NewRow;
  }

  lemma PassEffect(t: Table, nextId: nat, holdings: seq<Acct>, ids: seq<nat>, c: Comparison, trades: seq<SellTrade>,
                   addMissing: bool)
    requires PassInput(t, nextId, holdings, ids, c, trades)
    ensures AfterPass(PassTable(t, nextId, c, addMissing), t, nextId, ByCode(holdings), RowByCode(ids, t),
                      if addMissing then c.onlyInKis else [])
  {
    var corrected := SetQuantities(MarkSold(t, c.onlyInDb), c.mismatch);
    RowsAfterSync(t, nextId, holdings, ids, c, trades);
    hide AfterPass, AddRows, SetQuantities, MarkSold, IsComparison, ListsHolding, PassRow;
    AddingCompletesPass(corrected, t, nextId, ByCode(holdings), RowByCode(ids, t),
                        if addMissing then c.onlyInKis else []);
  }

  // ---------------------------------------------------------------------------
  // A pass, in figures
  // ---------------------------------------------------------------------------

  /** The last of several values of one code. */
  ghost predicate IsLastOf<T>(xs: seq<T>, codeOf: T -> string, code: string, x: T) {
    exists i :: 0 <= i < |xs| && xs[i] == x && codeOf(xs[i]) == code
                && forall j :: i < j < |xs| ==> codeOf(xs[j]) != code
  }

  lemma LastGrows<T>(front: seq<T>, last: T, codeOf: T -> string, code: string, x: T)
    ensures IsLastOf(front + [last], codeOf, code, x)
            <==> if codeOf(last) == code then x == last else IsLastOf(front, codeOf, code, x)
  {
    var xs := front + [last];
    assert forall i :: 0 <= i < |front| ==> xs[i] == front[i];
    assert xs[|front|] == last;
  }

  /** Of several holdings of one code the last one counts. */
  lemma {:induction false} LastHoldingCounts(holdings: seq<Acct>, code: string)
    ensures forall a :: code in ByCode(holdings) && ByCode(holdings)[code] == a
                        <==> IsLastOf(holdings, KisCode, code, a)
  {
    if holdings != [] {
      var front, last := holdings[..|holdings| - 1], holdings[|holdings| - 1];
      assert holdings == front + [last];
      LastHoldingCounts(front, code);
      hide IsLastOf;
      forall a { LastGrows(front, last, KisCode, code, a); }
    }
  }

  /** Of several listed rows of one code the last one counts. */
  lemma {:induction false} LastRowCounts(ids: seq<nat>, t: Table, codeOf: nat -> string, code: string)
    requires forall k <- ids :: k in t && codeOf(k) == t[k].code
    ensures forall id :: code in RowByCode(ids, t) && RowByCode(ids, t)[code] == id
                         <==> IsLastOf(ids, codeOf, code, id)
  {
    if ids != [] {
      var front, last := ids[..|ids| - 1], ids[|ids| - 1];
      assert ids == front + [last];
      LastRowCounts(front, t, codeOf, code);
      hide IsLastOf;
      forall id { LastGrows(front, last, codeOf, code, id); }
    }
  }

  /** What a pass leaves in the table. The row that counts for a code is closed when the account lacks the code, and
   *  gets the account's quantity otherwise; other rows stay. Holdings to be added get a row each under the next keys,
   *  bought for quantity times average price, at a high of the current price, stopped two percent below the average
   *  price. */
  lemma PassInFigures(t: Table, nextId: nat, holdings: seq<Acct>, ids: seq<nat>, c: Comparison, trades: seq<SellTrade>,
                      addMissing: bool)
    requires PassInput(t, nextId, holdings, ids, c, trades)
    ensures var kis, db := ByCode(holdings), RowByCode(ids, t);
            var after := PassTable(t, nextId, c, addMissing);
            && (forall id :: id in t ==>
                  && id in after
                  && var r := t[id];
                     var counts := r.code in db && db[r.code] == id;
                     after[id] == if counts && r.code !in kis
                                  then Row(r.code, r.name, r.quantity, r.avgPrice, r.totalBuyAmount, r.highPrice,
                                           Status.Sold, "SYNCED_FROM_ACCOUNT", r.stopLossPrice)
                                  else Row(r.code, r.name, if counts then kis[r.code].quantity else r.quantity,
                                           r.avgPrice, r.totalBuyAmount, r.highPrice, r.status, r.sellState,
                                           r.stopLossPrice))
            && (forall i :: addMissing && 0 <= i < |c.onlyInKis| ==>
                  && nextId + i in after
                  && var a := c.onlyInKis[i];
                     after[nextId + i] == Row(a.code, a.name, a.quantity, a.avgPrice, a.quantity as real * a.avgPrice,
                                              a.currentPrice, Status.Holding, "SYNCED_FROM_ACCOUNT", a.avgPrice * 0.98))
            && (forall id :: id in after ==> id in t || (addMissing && nextId <= id < nextId + |c.onlyInKis|))
  {
    PassEffect(t, nextId, holdings, ids, c, trades, addMissing);
    var after, added := PassTable(t, nextId, c, addMissing), if addMissing then c.onlyInKis else [];
    hide PassInput, ByCode, RowByCode, PassTable;
    forall i | addMissing && 0 <= i < |c.onlyInKis| ensures after[nextId + i] == NewRow(c.onlyInKis[i]) {
      assert added[nextId + i - nextId] == c.onlyInKis[i];
    }
  }

  /** The sells of a code: as many as trades of it, the first being the first listed. */
  lemma {:induction false} SellsAreTrades(code: string, trades: seq<SellTrade>)
    ensures |SellsOf(trades, code)| == |set i | 0 <= i < |trades| && trades[i].code == code|
  {
    if trades != [] {
      var n := |trades| - 1;
      var front := trades[..n];
      SellsAreTrades(code, front);
      assert forall i :: 0 <= i < n ==> front[i] == trades[i];
      var before := set i | 0 <= i < |front| && front[i].code == code;
      assert (set i | 0 <= i < |trades| && trades[i].code == code)
          == before + if trades[n].code == code then {n} else {};
    }
  }

  ghost predicate IsFirstOf(trades: seq<SellTrade>, code: string, x: SellTrade) {
    exists i :: 0 <= i < |trades| && trades[i] == x && x.code == code
                && forall j :: 0 <= j < i ==> trades[j].code != code
  }

  lemma FirstStays(front: seq<SellTrade>, last: SellTrade, code: string, x: SellTrade)
    ensures IsFirstOf(front, code, x) ==> IsFirstOf(front + [last], code, x)
    ensures (forall y <- front :: y.code != code) && last.code == code ==> IsFirstOf(front + [last], code, last)
  {
    var xs := front + [last];
    assert forall i :: 0 <= i < |front| ==> xs[i] == front[i] && front[i] in front;
    assert xs[|front|] == last;
  }

  lemma {:induction false} FirstSellIsFirst(code: string, trades: seq<SellTrade>)
    ensures SellsOf(trades, code) == [] <==> forall y <- trades :: y.code != code
    ensures SellsOf(trades, code) != [] ==> IsFirstOf(trades, code, SellsOf(trades, code)[0])
  {
    if trades != [] {
      var front, last := trades[..|trades| - 1], trades[|trades| - 1];
      assert trades == front + [last];
      FirstSellIsFirst(code, front);
      hide IsFirstOf;
      FirstStays(front, last, code, if SellsOf(front, code) == [] then last else SellsOf(front, code)[0]);
    }
  }

  /** What the comparison says of a code that only the table holds: its row's figures, how many of the trades sold it,
   *  and when the first listed of them did. */
  lemma SellsInFigures(code: string, id: nat, row: Row, trades: seq<SellTrade>)
    ensures var entry := DbEntry(code, id, row, trades);
            && entry.code == code && entry.quantity == row.quantity && entry.avgPrice == row.avgPrice
            && entry.dbId == id
            && entry.sellTrades == |set i | 0 <= i < |trades| && trades[i].code == code|
            && (entry.lastSell == None <==> forall y <- trades :: y.code != code)
            && (entry.lastSell.Some? ==>
                  exists x :: IsFirstOf(trades, code, x) && entry.lastSell == Some(x.timestamp))
  {
    SellsAreTrades(code, trades);
    FirstSellIsFirst(code, trades);
    hide SellsOf, IsFirstOf;
  }

  /** The account codes without a row, each listed once with its holding. */
  ghost predicate ListsMissing(xs: seq<Acct>, kis: map<string, Acct>, db: map<string, nat>) {
    && (forall i :: 0 <= i < |xs| ==> xs[i].code in kis && xs[i].code !in db && xs[i] == kis[xs[i].code])
    && (forall i, j :: 0 <= i < j < |xs| ==> xs[i].code != xs[j].code)
    && (forall k :: k in kis && k !in db ==> exists i :: 0 <= i < |xs| && xs[i].code == k)
  }

  lemma ComparisonListsMissing(c: Comparison, kis: map<string, Acct>, db: map<string, nat>, t: Table,
                               trades: seq<SellTrade>)
    requires forall k :: k in db ==> db[k] in t
    requires IsComparison(c, kis, db, t, trades)
    ensures ListsMissing(c.onlyInKis, kis, db)
  {
    var xs, codes := c.onlyInKis, Codes(c.onlyInKis, KisCode);
    assert Enumerates(codes, kis.Keys - db.Keys);
    forall i | 0 <= i < |xs| ensures xs[i].code !in db {
      assert codes[i] in codes;
    }
    forall i, j | 0 <= i < j < |xs| ensures xs[i].code != xs[j].code {
      assert codes[i] != codes[j];
    }
    forall k | k in kis && k !in db ensures exists i :: 0 <= i < |xs| && xs[i].code == k {
      assert k in codes;
      var i :| 0 <= i < |codes| && codes[i] == k;
      assert xs[i].code == k;
    }
  }

  lemma ListingHasKey(codes: seq<string>, keys: set<string>)
    requires Enumerates(codes, keys)
    ensures codes != [] ==> exists k :: k in keys
  {
    if codes != [] {
      assert codes[0] in codes;
      assert codes[0] in keys;
    }
  }

  // ---------------------------------------------------------------------------
  // The view of the account
  // ---------------------------------------------------------------------------

  ghost predicate UniqueHolding(t: Table) {
    forall i, j :: i in t && j in t && t[i].status.Holding? && t[j].status.Holding? && i != j ==> t[i].code != t[j].code
  }

  /** The HOLDING rows are the account: one row per account code, with its quantity, and no other. */
  ghost predicate ShowsAccount(t: Table, kis: map<string, Acct>) {
    && UniqueHolding(t)
    && (forall id :: id in t && t[id].status.Holding? ==>
          t[id].code in kis && t[id].quantity == kis[t[id].code].quantity)
    && (forall k :: k in kis ==> exists id :: id in t && t[id].status.Holding? && t[id].code == k)
  }

  lemma ChosenIsHolding(t: Table, ids: seq<nat>, code: string)
    requires ListsHolding(ids, t) && code in RowByCode(ids, t)
    ensures var id := RowByCode(ids, t)[code]; id in t && t[id].status.Holding? && t[id].code == code
  {
  }

  lemma HoldingIsKeyed(t: Table, ids: seq<nat>, id: nat)
    requires ListsHolding(ids, t) && id in t && t[id].status.Holding?
    ensures t[id].code in RowByCode(ids, t)
  {
  }

  /** The chosen row of each code is its HOLDING row. */
  ghost predicate ChoosesHolding(t: Table, db: map<string, nat>) {
    && (forall k :: k in db ==> db[k] in t && t[db[k]].status.Holding? && t[db[k]].code == k)
    && (forall id :: id in t && t[id].status.Holding? ==> t[id].code in db)
  }

  lemma ListingChooses(t: Table, ids: seq<nat>)
    requires ListsHolding(ids, t)
    ensures ChoosesHolding(t, RowByCode(ids, t))
  {
  }

  lemma AllChosen(t: Table, db: map<string, nat>, id: nat)
    requires UniqueHolding(t) && ChoosesHolding(t, db) && id in t && t[id].status.Holding?
    ensures Chosen(id, t[id], db)
  {
    assert db[t[id].code] in t;
  }

  /** Every HOLDING row afterwards carries an account code and its quantity; no two carry the same. */
  lemma HoldingAfter(after: Table, t: Table, nextId: nat, kis: map<string, Acct>, db: map<string, nat>,
                     added: seq<Acct>, id: nat)
    requires AfterPass(after, t, nextId, kis, db, added) && ListsMissing(added, kis, db)
    requires UniqueHolding(t) && ChoosesHolding(t, db) && forall k :: k in kis ==> kis[k].code == k
    requires id in after && after[id].status.Holding?
    ensures after[id].code in kis && after[id].quantity == kis[after[id].code].quantity
    ensures id in t <==> after[id].code in db
    ensures id in t ==> id == db[after[id].code]
    ensures id !in t ==> nextId <= id < nextId + |added| && after[id].code == added[id - nextId].code
  {
    if id in t {
      assert t[id].status.Holding?;
      AllChosen(t, db, id);
    }
  }

  lemma AccountCodeShown(after: Table, t: Table, nextId: nat, kis: map<string, Acct>, db: map<string, nat>,
                         added: seq<Acct>, k: string)
    requires AfterPass(after, t, nextId, kis, db, added) && ListsMissing(added, kis, db) && ChoosesHolding(t, db)
    requires k in kis
    ensures exists id :: id in after && after[id].status.Holding? && after[id].code == k
  {
    if k in db {
      var id := db[k];
      assert id in after && after[id].status.Holding? && after[id].code == k;
    } else {
      var i :| 0 <= i < |added| && added[i].code == k;
      assert nextId + i in after && after[nextId + i].status.Holding? && after[nextId + i].code == k;
    }
  }

  lemma UniqueAfter(after: Table, t: Table, nextId: nat, kis: map<string, Acct>, db: map<string, nat>, added: seq<Acct>)
    requires AfterPass(after, t, nextId, kis, db, added) && ListsMissing(added, kis, db)
    requires UniqueHolding(t) && ChoosesHolding(t, db) && forall k :: k in kis ==> kis[k].code == k
    ensures ShowsAccount(after, kis)
  {
    forall i, j | i in after && j in after && after[i].status.Holding? && after[j].status.Holding? && i != j
      ensures after[i].code != after[j].code
    {
      HoldingAfter(after, t, nextId, kis, db, added, i);
      HoldingAfter(after, t, nextId, kis, db, added, j);
      hide AfterPass, UniqueHolding, ChoosesHolding;
    }
    forall id | id in after && after[id].status.Holding?
      ensures after[id].code in kis && after[id].quantity == kis[after[id].code].quantity
    {
      HoldingAfter(after, t, nextId, kis, db, added, id);
    }
    forall k | k in kis ensures exists id :: id in after && after[id].status.Holding? && after[id].code == k {
      AccountCodeShown(after, t, nextId, kis, db, added, k);
    }
    hide AfterPass, ListsMissing, ChoosesHolding;
  }

  /** With one HOLDING row per code, a pass with additions makes the table show the account. */
  lemma UniqueThenShows(t: Table, nextId: nat, holdings: seq<Acct>, ids: seq<nat>, c: Comparison,
                        trades: seq<SellTrade>)
    requires PassInput(t, nextId, holdings, ids, c, trades) && UniqueHolding(t)
    ensures ShowsAccount(PassTable(t, nextId, c, true), ByCode(holdings))
  {
    PassEffect(t, nextId, holdings, ids, c, trades, true);
    ComparisonListsMissing(c, ByCode(holdings), RowByCode(ids, t), t, trades);
    ListingChooses(t, ids);
    UniqueAfter(PassTable(t, nextId, c, true), t, nextId, ByCode(holdings), RowByCode(ids, t), c.onlyInKis);
  }

  /** A pass shows the account exactly when the table had at most one HOLDING row per code, and the pass adds what is
   *  missing or nothing is. */
  lemma PassShowsAccountIff(t: Table, nextId: nat, holdings: seq<Acct>, ids: seq<nat>, c: Comparison,
                            trades: seq<SellTrade>, addMissing: bool)
    requires PassInput(t, nextId, holdings, ids, c, trades)
    ensures ShowsAccount(PassTable(t, nextId, c, addMissing), ByCode(holdings))
            <==> UniqueHolding(t) && (addMissing || c.onlyInKis == [])
  {
    hide ShowsAccount, PassInput, UniqueHolding;
    if !addMissing && c.onlyInKis != [] {
      MissingStays(t, nextId, holdings, ids, c, trades);
    } else {
      SamePass(t, nextId, c, addMissing);
      hide PassTable;
      AddingPassShowsIff(t, nextId, holdings, ids, c, trades);
    }
  }

  lemma SamePass(t: Table, nextId: nat, c: Comparison, addMissing: bool)
    requires addMissing || c.onlyInKis == []
    ensures PassTable(t, nextId, c, addMissing) == PassTable(t, nextId, c, true)
  {
  }

  /** Without additions a missing code stays missing. */
  lemma MissingStays(t: Table, nextId: nat, holdings: seq<Acct>, ids: seq<nat>, c: Comparison, trades: seq<SellTrade>)
    requires PassInput(t, nextId, holdings, ids, c, trades) && c.onlyInKis != []
    ensures !ShowsAccount(PassTable(t, nextId, c, false), ByCode(holdings))
  {
    var kis, db := ByCode(holdings), RowByCode(ids, t);
    PassEffect(t, nextId, holdings, ids, c, trades, false);
    ListingChooses(t, ids);
    ComparisonListsMissing(c, kis, db, t, trades);
    hide PassTable, PassInput, ByCode, RowByCode, IsComparison, AfterPass, ChoosesHolding, ShowsAccount;
    assert c.onlyInKis[0].code in kis && c.onlyInKis[0].code !in db;
    CodeStaysMissing(PassTable(t, nextId, c, false), t, nextId, kis, db, c.onlyInKis[0].code);
  }

  lemma CodeStaysMissing(after: Table, t: Table, nextId: nat, kis: map<string, Acct>, db: map<string, nat>, k: string)
    requires AfterPass(after, t, nextId, kis, db, []) && ChoosesHolding(t, db) && k in kis && k !in db
    ensures !ShowsAccount(after, kis)
  {
    forall id | id in after && after[id].status.Holding? ensures after[id].code != k {
      assert id in t;
    }
  }

  lemma AddingPassShowsIff(t: Table, nextId: nat, holdings: seq<Acct>, ids: seq<nat>, c: Comparison,
                           trades: seq<SellTrade>)
    requires PassInput(t, nextId, holdings, ids, c, trades)
    ensures ShowsAccount(PassTable(t, nextId, c, true), ByCode(holdings)) <==> UniqueHolding(t)
  {
    if UniqueHolding(t) {
      UniqueThenShows(t, nextId, holdings, ids, c, trades);
    } else {
      var i, j :| i in t && j in t && t[i].status.Holding? && t[j].status.Holding? && i != j && t[i].code == t[j].code;
      DuplicateStays(t, nextId, holdings, ids, c, trades, i, j);
    }
  }

  lemma DuplicateStays(t: Table, nextId: nat, holdings: seq<Acct>, ids: seq<nat>, c: Comparison,
                       trades: seq<SellTrade>, i: nat, j: nat)
    requires PassInput(t, nextId, holdings, ids, c, trades)
    requires i in t && j in t && t[i].status.Holding? && t[j].status.Holding? && i != j && t[i].code == t[j].code
    ensures !ShowsAccount(PassTable(t, nextId, c, true), ByCode(holdings))
  {
    var db := RowByCode(ids, t);
    var after := PassTable(t, nextId, c, true);
    PassEffect(t, nextId, holdings, ids, c, trades, true);
    HoldingIsKeyed(t, ids, i);
    hide PassTable, IsComparison;
    var other := if db[t[i].code] == i then j else i;
    assert !Chosen(other, t[other], db) && after[other] == t[other];
    if t[i].code in ByCode(holdings) {
      assert after[i].status.Holding? && after[j].status.Holding? && after[i].code == after[j].code;
    }
  }

  /** Once the table shows the account, a further pass finds nothing to do. */
  lemma SecondPassIsIdle(t: Table, nextId: nat, holdings: seq<Acct>, ids: seq<nat>, c: Comparison,
                         trades: seq<SellTrade>, addMissing: bool)
    requires PassInput(t, nextId, holdings, ids, c, trades) && ShowsAccount(t, ByCode(holdings))
    ensures c.onlyInKis == [] && c.onlyInDb == [] && c.mismatch == []
    ensures PassTable(t, nextId, c, addMissing) == t
  {
    var kis, db := ByCode(holdings), RowByCode(ids, t);
    forall k | k in db ensures k in kis && kis[k].quantity == t[db[k]].quantity {
      ChosenIsHolding(t, ids, k);
    }
    forall k | k in kis ensures k in db {
      var id :| id in t && t[id].status.Holding? && t[id].code == k;
      HoldingIsKeyed(t, ids, id);
    }
    assert kis.Keys - db.Keys == {} && db.Keys - kis.Keys == {} && Differing(kis, db, t) == {};
    ListingHasKey(Codes(c.onlyInKis, KisCode), {});
    ListingHasKey(Codes(c.onlyInDb, DbCode), {});
    ListingHasKey(Codes(c.mismatch, MismatchCode), {});
  }

  // ---------------------------------------------------------------------------
  // Progress with duplicate rows
  // ---------------------------------------------------------------------------

  /** HOLDING rows of codes that the account does not hold. */
  ghost function Stale(t: Table, kis: map<string, Acct>): set<nat> {
    set id | id in t && t[id].status.Holding? && t[id].code !in kis
  }

  /** HOLDING rows whose quantity differs from the account's. */
  ghost function Wrong(t: Table, kis: map<string, Acct>): set<nat> {
    set id | id in t && t[id].status.Holding? && t[id].code in kis && t[id].quantity != kis[t[id].code].quantity
  }

  /** Account codes without a HOLDING row. */
  ghost function Missing(t: Table, kis: map<string, Acct>): set<string> {
    set k | k in kis && forall id :: id in t && t[id].status.Holding? ==> t[id].code != k
  }

  ghost function Work(t: Table, kis: map<string, Acct>): nat {
    |Stale(t, kis)| + |Wrong(t, kis)| + |Missing(t, kis)|
  }

  /** Rows to add are holdings of the account. */
  ghost predicate FromHoldings(added: seq<Acct>, kis: map<string, Acct>) {
    forall i :: 0 <= i < |added| ==> added[i].code in kis && added[i] == kis[added[i].code]
  }

  /** A pass never adds work of any kind. */
  lemma PassAddsNoWork(after: Table, t: Table, nextId: nat, kis: map<string, Acct>, db: map<string, nat>,
                       added: seq<Acct>)
    requires AfterPass(after, t, nextId, kis, db, added) && FromHoldings(added, kis)
    ensures Stale(after, kis) <= Stale(t, kis) && Wrong(after, kis) <= Wrong(t, kis)
    ensures Missing(after, kis) <= Missing(t, kis)
  {
    forall id | id in after && id !in t
      ensures after[id].code in kis && after[id].quantity == kis[after[id].code].quantity
    {
    }
    forall k | k in Missing(after, kis) ensures k in Missing(t, kis) {
      forall id | id in t && t[id].status.Holding? ensures t[id].code != k {
        assert id in after && after[id].code == t[id].code && (after[id].status.Holding? || t[id].code !in kis);
      }
    }
  }

  /** Whatever a pass lists, it takes off the work. */
  lemma ClosedIsDone(after: Table, t: Table, nextId: nat, kis: map<string, Acct>, db: map<string, nat>,
                     added: seq<Acct>, k: string)
    requires AfterPass(after, t, nextId, kis, db, added) && ChoosesHolding(t, db)
    requires k in db && k !in kis
    ensures db[k] in Stale(t, kis) && db[k] !in Stale(after, kis)
  {
  }

  lemma CorrectedIsDone(after: Table, t: Table, nextId: nat, kis: map<string, Acct>, db: map<string, nat>,
                        added: seq<Acct>, k: string)
    requires AfterPass(after, t, nextId, kis, db, added) && ChoosesHolding(t, db)
    requires k in db && k in kis && kis[k].quantity != t[db[k]].quantity
    ensures db[k] in Wrong(t, kis) && db[k] !in Wrong(after, kis)
  {
  }

  lemma AddedIsDone(after: Table, t: Table, nextId: nat, kis: map<string, Acct>, db: map<string, nat>,
                    added: seq<Acct>, k: string)
    requires AfterPass(after, t, nextId, kis, db, added) && ListsMissing(added, kis, db) && ChoosesHolding(t, db)
    requires k in kis && k !in db
    ensures k in Missing(t, kis) && k !in Missing(after, kis)
  {
    AccountCodeShown(after, t, nextId, kis, db, added, k);
  }

  lemma ListedWorkIsDone(t: Table, nextId: nat, holdings: seq<Acct>, ids: seq<nat>, c: Comparison,
                         trades: seq<SellTrade>, addMissing: bool)
    requires PassInput(t, nextId, holdings, ids, c, trades)
    ensures var kis := ByCode(holdings);
            var after := PassTable(t, nextId, c, addMissing);
            && (c.onlyInDb != [] ==> Stale(after, kis) != Stale(t, kis))
            && (c.mismatch != [] ==> Wrong(after, kis) != Wrong(t, kis))
            && (addMissing && c.onlyInKis != [] ==> Missing(after, kis) != Missing(t, kis))
  {
    var kis, db := ByCode(holdings), RowByCode(ids, t);
    var after, added := PassTable(t, nextId, c, addMissing), if addMissing then c.onlyInKis else [];
    PassEffect(t, nextId, holdings, ids, c, trades, addMissing);
    ComparisonListsMissing(c, kis, db, t, trades);
    ListingChooses(t, ids);
    ListingHasKey(Codes(c.onlyInKis, KisCode), kis.Keys - db.Keys);
    ListingHasKey(Codes(c.onlyInDb, DbCode), db.Keys - kis.Keys);
    ListingHasKey(Codes(c.mismatch, MismatchCode), Differing(kis, db, t));
    hide PassTable, AfterPass, ListsMissing, ChoosesHolding, ListsHolding, PassInput, IsComparison, ByCode, RowByCode,
         Stale,         Wrong, Missing;
    if c.onlyInDb != [] {
      var k :| k in db.Keys - kis.Keys;
      ClosedIsDone(after, t, nextId, kis, db, added, k);
    }
    if c.mismatch != [] {
      var k :| k in Differing(kis, db, t);
      CorrectedIsDone(after, t, nextId, kis, db, added, k);
    }
    if addMissing && c.onlyInKis != [] {
      var k :| k in kis.Keys - db.Keys;
      AddedIsDone(after, t, nextId, kis, db, added, k);
    }
  }

  lemma {:induction false} ProperSubsetSize<T>(a: set<T>, b: set<T>)
    requires a <= b
    ensures |a| <= |b| && (a != b ==> |a| < |b|)
  {
    if a != {} {
      var x :| x in a;
      ProperSubsetSize(a - {x}, b - {x});
      assert a != b ==> a - {x} != b - {x};
    }
  }

  lemma ListedAreHoldings(c: Comparison, kis: map<string, Acct>, db: map<string, nat>, t: Table, trades: seq<SellTrade>,
                          addMissing: bool)
    requires forall k :: k in db ==> db[k] in t
    requires IsComparison(c, kis, db, t, trades)
    ensures FromHoldings(if addMissing then c.onlyInKis else [], kis)
  {
    ComparisonListsMissing(c, kis, db, t, trades);
    hide IsComparison;
  }

  /** A pass that lists nothing it would treat changes nothing. */
  lemma NothingListed(t: Table, nextId: nat, c: Comparison, addMissing: bool)
    requires c.onlyInDb == [] && c.mismatch == [] && (addMissing ==> c.onlyInKis == [])
    ensures PassTable(t, nextId, c, addMissing) == t
  {
  }

  /** Even with duplicate rows, and with or without additions, a pass that changes the table leaves strictly less work,
   *  so repeated passes end. */
  lemma PassMakesProgress(t: Table, nextId: nat, holdings: seq<Acct>, ids: seq<nat>, c: Comparison,
                          trades: seq<SellTrade>, addMissing: bool)
    requires PassInput(t, nextId, holdings, ids, c, trades)
    ensures var kis := ByCode(holdings);
            var after := PassTable(t, nextId, c, addMissing);
            after == t || Work(after, kis) < Work(t, kis)
  {
    var kis, db, after := ByCode(holdings), RowByCode(ids, t), PassTable(t, nextId, c, addMissing);
    var added := if addMissing then c.onlyInKis else [];
    PassEffect(t, nextId, holdings, ids, c, trades, addMissing);
    ListedAreHoldings(c, kis, db, t, trades, addMissing);
    hide AfterPass, FromHoldings, PassTable, IsComparison, ListsHolding, ByCode, RowByCode, Stale, Wrong, Missing;
    PassAddsNoWork(after, t, nextId, kis, db, added);
    ListedWorkIsDone(t, nextId, holdings, ids, c, trades, addMissing);
    if c.onlyInDb == [] && c.mismatch == [] && (addMissing ==> c.onlyInKis == []) {
      NothingListed(t, nextId, c, addMissing);
    }
    ProperSubsetSize(Stale(after, kis), Stale(t, kis));
    ProperSubsetSize(Wrong(after, kis), Wrong(t, kis));
    ProperSubsetSize(Missing(after, kis), Missing(t, kis));
  }

  // ---------------------------------------------------------------------------
  // Repeated passes
  // ---------------------------------------------------------------------------

  /** What one run of the command saw, a listing of the HOLDING rows, recent trades, and the comparison made of them;
   *  and whether it added what was missing. */
  datatype Pass = Pass(ids: seq<nat>, trades: seq<SellTrade>, c: Comparison, addMissing: bool) {
    function NextId(nextId: nat): nat {
      nextId + if addMissing then |c.onlyInKis| else 0
    }
  }

  /** Passes made one after the other against the same account. */
  ghost predicate Feasible(t: Table, nextId: nat, holdings: seq<Acct>, passes: seq<Pass>)
    decreases |passes|
  {
    passes == [] ||
    var p := passes[0];
    && PassInput(t, nextId, holdings, p.ids, p.c, p.trades)
    && Feasible(PassTable(t, nextId, p.c, p.addMissing), p.NextId(nextId), holdings, passes[1..])
  }

  /** How many of the passes changed the table. */
  ghost function Changes(t: Table, nextId: nat, passes: seq<Pass>): nat
    decreases |passes|
  {
    if passes == [] then 0
    else
      var p := passes[0];
      var after := PassTable(t, nextId, p.c, p.addMissing);
      (if after != t then 1 else 0) + Changes(after, p.NextId(nextId), passes[1..])
  }

  /** However often the command is repeated, with or without additions, and whatever order the database lists rows in,
   *  it changes the table at most as many times as there were discrepancies at the start. */
  lemma {:induction false} RepeatedPassesEnd(t: Table, nextId: nat, holdings: seq<Acct>, passes: seq<Pass>)
    requires Feasible(t, nextId, holdings, passes)
    ensures Changes(t, nextId, passes) <= Work(t, ByCode(holdings))
    decreases |passes|
  {
    hide Work, PassInput, PassTable, ByCode, AddRows, SetQuantities, MarkSold;
    if passes != [] {
      var p := passes[0];
      PassMakesProgress(t, nextId, holdings, p.ids, p.c, p.trades, p.addMissing);
      RepeatedPassesEnd(PassTable(t, nextId, p.c, p.addMissing), p.NextId(nextId), holdings, passes[1..]);
    }
  }
}
