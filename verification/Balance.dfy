/** The balance of an address, and what keeps its two parts complete. */
module Balance {
  import opened Prelude
  import opened Models
  import opened Float64
  import opened UtxoTable
  import opened Batching
  import opened Database
  import opened Parser
  import opened Sums

  // ----- every confirmed row has a height

  /** A row the parser makes for an unconfirmed transaction. */
  function MempoolUtxo(tx: Tx, v: Vout, now: int, addr: AddressFn): Utxo {
    Utxo(OutPoint(tx.txid, v.n),
         Row(addr(v.script), v.script.hex, ToSats(v.value), Mempool, None, None, now, None, None))
  }

  /** The only two kinds of row that are ever inserted. */
  ghost predicate MadeByParser(u: Utxo) {
    || (exists b, tx, v, addr :: u == NewUtxo(b, tx, v, addr))
    || (exists tx, v, now, addr :: u == MempoolUtxo(tx, v, now, addr))
  }

  /** Everything that changes the utxo table: upserts in any order and grouping, marking rows
      spent row at a time or by chunks, and deleting the rows of a block. */
  datatype Change =
    | Upsert(rows: seq<Utxo>)
    | MarkEach(spent: seq<Utxo>)
    | MarkBulk(spent: seq<Utxo>, size: nat)
    | DeleteBlock(hash: string)

  ghost predicate Allowed(c: Change) {
    && (c.Upsert? ==> forall i :: 0 <= i < |c.rows| ==> MadeByParser(c.rows[i]))
    && (c.MarkBulk? ==> c.size > 0)
  }

  function Apply(t: Table, c: Change): Table
    requires c.MarkBulk? ==> c.size > 0
  {
    match c
    case Upsert(rows) => UpsertAll(t, rows)
    case MarkEach(spent) => MarkAll(t, spent)
    case MarkBulk(spent, size) => MarkChunks(t, spent, size)
    case DeleteBlock(hash) => map o | o in t && t[o].blockHash != Some(hash) :: t[o]
  }

  ghost predicate Run(states: seq<Table>, changes: seq<Change>) {
    && |states| == |changes| + 1 && states[0] == map[]
    && forall n :: 0 <= n < |changes| ==> Allowed(changes[n]) && states[n + 1] == Apply(states[n], changes[n])
  }

  predicate HasHeight(r: Row) { r.status == Confirmed ==> r.blockHeight.Some? }

  ghost predicate ConfirmedHaveHeight(t: Table) {
    forall o :: o in t ==> HasHeight(t[o])
  }

  lemma {:induction false} UpsertKeepsHeights(t: Table, us: seq<Utxo>)
    requires ConfirmedHaveHeight(t) && forall i :: 0 <= i < |us| ==> MadeByParser(us[i])
    ensures ConfirmedHaveHeight(UpsertAll(t, us))
  {
    if |us| > 0 {
      UpsertKeepsHeights(t, us[..|us| - 1]);
      assert MadeByParser(us[|us| - 1]);
    }
  }

  lemma ChangeKeepsHeights(t: Table, c: Change)
    requires ConfirmedHaveHeight(t) && Allowed(c)
    ensures ConfirmedHaveHeight(Apply(t, c))
  {
    match c
    case Upsert(rows) => UpsertKeepsHeights(t, rows);
    case MarkEach(spent) =>
      forall o | o in Apply(t, c) ensures HasHeight(Apply(t, c)[o]) { MarkAllAt(t, spent, o); }
    case MarkBulk(spent, size) =>
      forall o | o in Apply(t, c) ensures HasHeight(Apply(t, c)[o]) {
        MarkChunksStatus(t, spent, size, o);
        UnspendKeeps(Apply(t, c)[o]);
        UnspendKeeps(if HasOp(spent, o) then t[o].(status := Spent) else t[o]);
      }
    case DeleteBlock(_) =>
  }

  lemma UnspendKeeps(r: Row)
    ensures Unspend(r).status == r.status && Unspend(r).blockHeight == r.blockHeight
  {}

  /** In every state the table can be in, a confirmed row has a height. */
  lemma {:induction false} RunKeepsHeights(states: seq<Table>, changes: seq<Change>, n: nat)
    requires Run(states, changes) && n <= |changes|
    ensures ConfirmedHaveHeight(states[n])
  {
    if n > 0 {
      RunKeepsHeights(states, changes, n - 1);
      ChangeKeepsHeights(states[n - 1], changes[n - 1]);
    }
  }

  /** Deleting a block's rows undoes storing them, if its outputs were new and no other row names
      the block. */
  lemma DeletingUndoesStoring(t: Table, us: seq<Utxo>, hash: string)
    requires DistinctOps(us) && forall u :: u in us ==> u.op !in t && u.row.blockHash == Some(hash)
    requires forall o :: o in t ==> t[o].blockHash != Some(hash)
    ensures Apply(UpsertAll(t, us), DeleteBlock(hash)) == t
  {
    UpsertAllColumns(t, us);
    var stored := UpsertAll(t, us);
    forall o | o in stored ensures stored[o].blockHash == Some(hash) <==> o !in t {
      if o !in t {
        var i :| 0 <= i < |us| && us[i].op == o;
        assert us[i] in us;
      } else {
        assert forall i :: 0 <= i < |us| ==> us[i] in us;
        assert !HasOp(us, o);
      }
    }
  }

  // ----- the query

  datatype Balance = Balance(pending: int, confirmed: int, total: int, lastIndexedHeight: int)

  /** No height counts as no confirmation. */
  function CalculateConfirmations(r: Row, currentHeight: int): int {
    if r.blockHeight.None? then 0 else currentHeight - r.blockHeight.value + 1
  }

  predicate IsConfirmed(r: Row, currentHeight: int, required: int) {
    CalculateConfirmations(r, currentHeight) >= required
  }

  /** `WHERE address = $1 AND status IN ('mempool', 'confirmed')` */
  function RowsOf(t: Table, address: string): set<OutPoint> {
    set o | o in t && t[o].address == address && IsUnspent(t[o])
  }

  /** The two CASE expressions. A comparison with a null height is not true. */
  function PendingCase(r: Row, limit: int): int {
    if r.status == Mempool || (r.status == Confirmed && r.blockHeight.Some? && r.blockHeight.value > limit) then r.valueSats else 0
  }

  function ConfirmedCase(r: Row, limit: int): int {
    if r.status == Confirmed && r.blockHeight.Some? && r.blockHeight.value <= limit then r.valueSats else 0
  }

  /** One pass over the rows, in the order the server finds them. */
  method SumRows(t: Table, rows: set<OutPoint>, limit: int) returns (pending: int, confirmed: int)
    requires rows <= t.Keys
    ensures pending == Sum(o => if o in t then PendingCase(t[o], limit) else 0, rows)
    ensures confirmed == Sum(o => if o in t then ConfirmedCase(t[o], limit) else 0, rows)
  {
    ghost var p := o => if o in t then PendingCase(t[o], limit) else 0;
    ghost var c := o => if o in t then ConfirmedCase(t[o], limit) else 0;
    pending, confirmed := 0, 0;
    var left := rows;
    while left != {}
      invariant left <= rows
      invariant pending + Sum(p, left) == Sum(p, rows)
      invariant confirmed + Sum(c, left) == Sum(c, rows)
      decreases |left|
    {
      var o :| o in left;
      SumTake(p, left, o);
      SumTake(c, left, o);
      pending, confirmed := pending + PendingCase(t[o], limit), confirmed + ConfirmedCase(t[o], limit);
      left := left - {o};
    }
  }

  // ----- what the answer has to be

  ghost function Value(t: Table): OutPoint -> int { o => if o in t then t[o].valueSats else 0 }

  /** Everything unspent of an address. */
  ghost function UnspentOf(t: Table, address: string): set<OutPoint> {
    set o | o in t && t[o].address == address && (t[o].status == Mempool || t[o].status == Confirmed)
  }

  /** What has enough confirmations at a tip. */
  ghost function ConfirmedOf(t: Table, address: string, tip: int, required: int): set<OutPoint> {
    set o | o in t && t[o].address == address && t[o].status == Confirmed
            && t[o].blockHeight.Some? && tip - t[o].blockHeight.value + 1 >= required
  }

  /** What is in no block yet, or not deep enough. */
  ghost function PendingOf(t: Table, address: string, tip: int, required: int): set<OutPoint> {
    set o | o in t && t[o].address == address
            && (t[o].status == Mempool
                || (t[o].status == Confirmed && t[o].blockHeight.Some? && tip - t[o].blockHeight.value + 1 < required))
  }

  /** The two sums of the query, each over the rows it is made of. */
  lemma PartsAreSums(t: Table, address: string, tip: int, required: int)
    ensures var limit, rows := tip - required + 1, RowsOf(t, address);
            && Sum(o => if o in t then ConfirmedCase(t[o], limit) else 0, rows) == Sum(Value(t), ConfirmedOf(t, address, tip, required))
            && Sum(o => if o in t then PendingCase(t[o], limit) else 0, rows) == Sum(Value(t), PendingOf(t, address, tip, required))
  {
    var limit, rows := tip - required + 1, RowsOf(t, address);
    var c := o => if o in t then ConfirmedCase(t[o], limit) else 0;
    var p := o => if o in t then PendingCase(t[o], limit) else 0;
    SumPart(c, Value(t), rows, ConfirmedOf(t, address, tip, required));
    SumPart(p, Value(t), rows, PendingOf(t, address, tip, required));
  }

  /** When confirmed rows have heights, the two parts are everything unspent, for every number of
      confirmations, and the confirmed one is what IsConfirmed accepts. */
  lemma PartsAreComplete(t: Table, address: string, tip: int, required: int)
    requires ConfirmedHaveHeight(t)
    ensures ConfirmedOf(t, address, tip, required) !! PendingOf(t, address, tip, required)
    ensures ConfirmedOf(t, address, tip, required) + PendingOf(t, address, tip, required) == UnspentOf(t, address)
    ensures Sum(Value(t), ConfirmedOf(t, address, tip, required)) + Sum(Value(t), PendingOf(t, address, tip, required))
         == Sum(Value(t), UnspentOf(t, address))
    ensures forall o :: o in ConfirmedOf(t, address, tip, required) <==>
      o in UnspentOf(t, address) && t[o].status == Confirmed && IsConfirmed(t[o], tip, required)
  {
    var c, p, u := ConfirmedOf(t, address, tip, required), PendingOf(t, address, tip, required), UnspentOf(t, address);
    forall o | o in t && t[o].status == Confirmed ensures t[o].blockHeight.Some? { assert HasHeight(t[o]); }
    SumUnion(Value(t), c, p);
    assert c + p == u;
  }

  /** GetBalance. Without a progress row the first query finds nothing, which is an error. */
  method GetBalance(db: DB, address: string, required: int, fault: Option<Error>) returns (r: Result<Balance>)
    ensures r.Success? <==> db.state.progress.Some? && fault.None?
    ensures r.Success? ==>
      var t, tip := db.state.utxo, db.state.progress.value.lastHeight;
      && r.value.lastIndexedHeight == tip && r.value.total == r.value.pending + r.value.confirmed
      && r.value.confirmed == Sum(Value(t), ConfirmedOf(t, address, tip, required))
      && r.value.pending == Sum(Value(t), PendingOf(t, address, tip, required))
      && (ConfirmedHaveHeight(t) ==> r.value.total == Sum(Value(t), UnspentOf(t, address)))
  {
    if db.state.progress.None? { return Failure(SERVER_ERROR); }
    if fault.Some? { return Failure(fault.value); }
    var tip := db.state.progress.value.lastHeight;
    var pending, confirmed := SumRows(db.state.utxo, RowsOf(db.state.utxo, address), tip - required + 1);
    PartsAreSums(db.state.utxo, address, tip, required);
    if ConfirmedHaveHeight(db.state.utxo) { PartsAreComplete(db.state.utxo, address, tip, required); }
    r := Success(Balance(pending, confirmed, pending + confirmed, tip));
  }
}
