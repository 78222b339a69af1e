/** The utxo table and the meaning of the SQL the indexer sends to it. */
module UtxoTable {
  import opened Prelude
  import opened Models
  import opened Statements

  type Table = map<OutPoint, Row>

  /** `status IN ('confirmed', 'mempool')` */
  predicate IsUnspent(r: Row) { r.status != Spent }

  /** The outpoints whose row is not spent: the index's idea of the UTXO set. */
  function Unspent(t: Table): set<OutPoint> {
    set o | o in t && IsUnspent(t[o])
  }

  /** The rows a lookup can return. */
  function Visible(t: Table): Table {
    map o | o in t && IsUnspent(t[o]) :: t[o]
  }

  // ----- INSERT ... ON CONFLICT (txid, vout) DO UPDATE SET status, block_height, block_hash

  function Merged(t: Table, u: Utxo): Row {
    if u.op in t
    then t[u.op].(status := u.row.status, blockHeight := u.row.blockHeight, blockHash := u.row.blockHash)
    else u.row.(spentAt := None, spentByTxid := None)
  }

  function UpsertRow(t: Table, u: Utxo): Table { t[u.op := Merged(t, u)] }

  /** One row at a time, in list order. */
  function UpsertAll(t: Table, us: seq<Utxo>): Table {
    if |us| == 0 then t else UpsertRow(UpsertAll(t, us[..|us| - 1]), us[|us| - 1])
  }

  lemma {:induction false} UpsertAllConcat(t: Table, a: seq<Utxo>, b: seq<Utxo>)
    ensures UpsertAll(t, a + b) == UpsertAll(UpsertAll(t, a), b)
  {
    if |b| == 0 {
      assert a + b == a;
    } else {
      assert (a + b)[..|a + b| - 1] == a + b[..|b| - 1];
      UpsertAllConcat(t, a, b[..|b| - 1]);
    }
  }

  lemma {:induction false} UpsertAllMiss(t: Table, us: seq<Utxo>, o: OutPoint)
    requires !HasOp(us, o)
    ensures o in UpsertAll(t, us) <==> o in t
    ensures o in t ==> UpsertAll(t, us)[o] == t[o]
  {
    if |us| > 0 {
      var init := us[..|us| - 1];
      forall i | 0 <= i < |init| ensures init[i].op != o { assert us[i].op != o; }
      UpsertAllMiss(t, init, o);
      assert us[|us| - 1].op != o;
    }
  }

  lemma {:induction false} UpsertAllHit(t: Table, us: seq<Utxo>, i: nat)
    requires DistinctOps(us) && i < |us|
    ensures us[i].op in UpsertAll(t, us)
    ensures UpsertAll(t, us)[us[i].op] == Merged(t, us[i])
  {
    var init, last := us[..|us| - 1], us[|us| - 1];
    assert DistinctOps(init);
    if i == |us| - 1 {
      assert !HasOp(init, last.op);
      UpsertAllMiss(t, init, last.op);
    } else {
      UpsertAllHit(t, init, i);
      assert init[i] == us[i] && us[i].op != last.op;
    }
  }

  /** The keys after an upsert are the old ones and the listed ones. */
  lemma {:induction false} UpsertAllKeys(t: Table, us: seq<Utxo>, o: OutPoint)
    ensures o in UpsertAll(t, us) <==> o in t || HasOp(us, o)
  {
    if |us| > 0 {
      var init := us[..|us| - 1];
      UpsertAllKeys(t, init, o);
      if HasOp(us, o) && us[|us| - 1].op != o {
        var i :| 0 <= i < |us| && us[i].op == o;
        assert init[i].op == o;
      }
      if HasOp(init, o) {
        var i :| 0 <= i < |init| && init[i].op == o;
        assert us[i].op == o;
      }
    }
  }

  // ----- UPDATE utxo SET status = 'spent', spent_at, spent_by_txid WHERE (txid, vout) ...

  datatype Stamp = Stamp(at: Option<int>, spender: Option<string>)

  function StampOf(u: Utxo): Stamp { Stamp(u.row.spentAt, u.row.spentByTxid) }

  function Marked(r: Row, s: Stamp): Row { r.(status := Spent, spentAt := s.at, spentByTxid := s.spender) }

  function MarkRow(t: Table, u: Utxo): Table {
    if u.op in t then t[u.op := Marked(t[u.op], StampOf(u))] else t
  }

  /** One row at a time, in list order; rows that do not exist are left out by the WHERE. */
  function MarkAll(t: Table, us: seq<Utxo>): Table {
    if |us| == 0 then t else MarkRow(MarkAll(t, us[..|us| - 1]), us[|us| - 1])
  }

  /** One UPDATE for a whole chunk, all rows stamped with the same spend. */
  function MarkMany(t: Table, ops: set<OutPoint>, s: Stamp): Table {
    map o | o in t :: if o in ops then Marked(t[o], s) else t[o]
  }

  /** The stamp of the last entry for o, if any. */
  function LastStamp(us: seq<Utxo>, o: OutPoint): (r: Option<Stamp>)
    ensures r.Some? <==> HasOp(us, o)
  {
    if |us| == 0 then None
    else if us[|us| - 1].op == o then Some(StampOf(us[|us| - 1]))
    else
      assert HasOp(us[..|us| - 1], o) <==> HasOp(us, o) by {
        if HasOp(us, o) { var i :| 0 <= i < |us| && us[i].op == o; assert us[..|us| - 1][i].op == o; }
      }
      LastStamp(us[..|us| - 1], o)
  }

  lemma {:induction false} MarkAllAt(t: Table, us: seq<Utxo>, o: OutPoint)
    ensures o in MarkAll(t, us) <==> o in t
    ensures o in t ==>
      MarkAll(t, us)[o] == match LastStamp(us, o) case Some(s) => Marked(t[o], s) case None => t[o]
  {
    if |us| > 0 {
      MarkAllAt(t, us[..|us| - 1], o);
    }
  }

  lemma {:induction false} LastStampDistinct(us: seq<Utxo>, i: nat)
    requires DistinctOps(us) && i < |us|
    ensures LastStamp(us, us[i].op) == Some(StampOf(us[i]))
  {
    if i < |us| - 1 {
      var init := us[..|us| - 1];
      assert init[i] == us[i] && DistinctOps(init);
      LastStampDistinct(init, i);
    }
  }

  // ----- The statements as they are sent

  datatype Arg = Text(s: string) | Num(n: int) | Null

  function OptText(x: Option<string>): Arg { match x case Some(s) => Text(s) case None => Null }
  function OptNum(x: Option<int>): Arg { match x case Some(n) => Num(n) case None => Null }

  function StatusText(s: Status): string {
    match s case Mempool => "mempool" case Confirmed => "confirmed" case Spent => "spent"
  }

  /** The nine columns of the INSERT, in the order of its column list. */
  function UpsertColumns(u: Utxo): (cols: seq<Arg>)
    ensures |cols| == 9
  {
    [Text(u.op.txid), Num(u.op.vout), Text(u.row.address), Text(u.row.scriptHex), Num(u.row.valueSats),
     Text(StatusText(u.row.status)), OptNum(u.row.blockHeight), OptText(u.row.blockHash), Num(u.row.firstSeenAt)]
  }

  /** The row the server builds from nine bound columns, if they have the right types and the
      status passes the CHECK constraint. */
  function RowFromColumns(c: seq<Arg>): Option<Utxo> {
    if |c| == 9 && c[0].Text? && c[1].Num? && c[2].Text? && c[3].Text? && c[4].Num? && c[5].Text?
       && !c[6].Text? && !c[7].Num? && c[8].Num? && c[5].s in {"mempool", "confirmed", "spent"}
    then
      var status := if c[5].s == "mempool" then Mempool else if c[5].s == "confirmed" then Confirmed else Spent;
      Some(Utxo(OutPoint(c[0].s, c[1].n),
                Row(c[2].s, c[3].s, c[4].n, status, if c[6].Num? then Some(c[6].n) else None,
                    if c[7].Text? then Some(c[7].s) else None, c[8].n, None, None)))
    else None
  }

  /** Executing a multi-row upsert: None is an error of the server. One statement may not
      touch the same key twice. */
  function ExecUpsert(t: Table, s: Statement<Arg>): Option<Table> {
    if !Accepted(s) || |s.values| == 0 then None
    else
      var rows := Bound(s);
      if exists j :: 0 <= j < |rows| && RowFromColumns(rows[j]).None? then None
      else
        var us := seq(|rows|, j requires 0 <= j < |rows| => RowFromColumns(rows[j]).value);
        if DistinctOps(us) then Some(UpsertAll(t, us)) else None
  }

  function UpsertRows(us: seq<Utxo>): (rows: seq<seq<Arg>>)
    ensures |rows| == |us| && Wide(rows, 9)
  {
    seq(|us|, i requires 0 <= i < |us| => UpsertColumns(us[i]))
  }

  function Unstamped(u: Utxo): Utxo { u.(row := u.row.(spentAt := None, spentByTxid := None)) }

  /** The columns an upsert does not send do not matter to it. */
  lemma {:induction false} UpsertIgnoresStamps(t: Table, us: seq<Utxo>, vs: seq<Utxo>)
    requires |us| == |vs| && forall i :: 0 <= i < |us| ==> vs[i] == Unstamped(us[i])
    ensures UpsertAll(t, vs) == UpsertAll(t, us)
  {
    if |us| > 0 { UpsertIgnoresStamps(t, us[..|us| - 1], vs[..|vs| - 1]); }
  }

  lemma ColumnsRoundTrip(u: Utxo)
    ensures RowFromColumns(UpsertColumns(u)) == Some(Unstamped(u))
  {}

  /** What the server makes of the built statement: it fails exactly on a repeated key, and
      otherwise has the effect of the rows one at a time. */
  lemma ExecUpsertMeaning(t: Table, batch: seq<Utxo>, s: Statement<Arg>)
    requires |batch| > 0 && Carries(s, UpsertRows(batch), 9)
    ensures ExecUpsert(t, s) == if DistinctOps(batch) then Some(UpsertAll(t, batch)) else None
  {
    hide RowFromColumns, UpsertColumns;
    var rows := UpsertRows(batch);
    assert |Bound(s)| == |s.values|;
    forall j | 0 <= j < |rows| ensures RowFromColumns(rows[j]) == Some(Unstamped(batch[j])) {
      ColumnsRoundTrip(batch[j]);
    }
    var us := seq(|rows|, j requires 0 <= j < |rows| => RowFromColumns(rows[j]).value);
    assert forall j :: 0 <= j < |us| ==> us[j].op == batch[j].op;
    assert DistinctOps(us) <==> DistinctOps(batch);
    UpsertIgnoresStamps(t, batch, us);
  }

  function KeyColumns(u: Utxo): (cols: seq<Arg>)
    ensures |cols| == 2
  {
    [Text(u.op.txid), Num(u.op.vout)]
  }

  function KeyRows(us: seq<Utxo>): (rows: seq<seq<Arg>>)
    ensures |rows| == |us| && Wide(rows, 2)
  {
    seq(|us|, i requires 0 <= i < |us| => KeyColumns(us[i]))
  }

  function OpsOf(us: seq<Utxo>): set<OutPoint> {
    set i | 0 <= i < |us| :: us[i].op
  }

  /** Executing `UPDATE utxo SET status = 'spent', spent_at = $at, spent_by_txid = $by
      WHERE (txid, vout) IN (groups)`. */
  function ExecMark(t: Table, s: Statement<Arg>, at: nat, spender: nat): Option<Table> {
    if !Accepted(s) || !(1 <= at <= |s.args|) || !(1 <= spender <= |s.args|) then None
    else
      var rows := Bound(s);
      if || s.args[at - 1].Text? || s.args[spender - 1].Num?
         || exists j :: 0 <= j < |rows| && !(|rows[j]| == 2 && rows[j][0].Text? && rows[j][1].Num?)
      then None
      else
        var ops := set j | 0 <= j < |rows| :: OutPoint(rows[j][0].s, rows[j][1].n);
        var stamp := Stamp(if s.args[at - 1].Num? then Some(s.args[at - 1].n) else None,
                           if s.args[spender - 1].Text? then Some(s.args[spender - 1].s) else None);
        Some(MarkMany(t, ops, stamp))
  }

  /** Two more parameters at the end of the list leave the numbered groups as they were. */
  lemma BoundWithExtra<A>(s: Statement<A>, x: A, y: A)
    requires Accepted(s) && |s.args| + 2 <= MAX_PARAMETERS
    ensures Accepted(s.(args := s.args + [x, y]))
    ensures Bound(s.(args := s.args + [x, y])) == Bound(s)
  {
    var e := s.(args := s.args + [x, y]);
    forall j | 0 <= j < |s.values| ensures Bound(e)[j] == Bound(s)[j] {
      forall c | 0 <= c < |s.values[j]| ensures Bound(e)[j][c] == Bound(s)[j][c] {
        assert 1 <= s.values[j][c] <= |s.args|;
      }
    }
  }

  /** The mark-spent statement stamps the whole chunk with the spend of its first entry. */
  lemma ExecMarkMeaning(t: Table, batch: seq<Utxo>, s: Statement<Arg>, stamp: Stamp)
    requires 0 < |batch| && |s.args| + 2 <= MAX_PARAMETERS
    requires Carries(s, KeyRows(batch), 2)
    ensures var e := s.(args := s.args + [OptNum(stamp.at), OptText(stamp.spender)]);
            ExecMark(t, e, |e.args| - 1, |e.args|) == Some(MarkMany(t, OpsOf(batch), stamp))
  {
    BoundWithExtra(s, OptNum(stamp.at), OptText(stamp.spender));
    var rows: seq<seq<Arg>> := KeyRows(batch);
    assert forall j :: 0 <= j < |rows| ==> OutPoint(rows[j][0].s, rows[j][1].n) == batch[j].op;
    assert (set j | 0 <= j < |rows| :: OutPoint(rows[j][0].s, rows[j][1].n)) == OpsOf(batch);
  }
}
