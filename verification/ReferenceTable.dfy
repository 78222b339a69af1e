/** The tx_reference table and the meaning of the SQL that fills it. */
module ReferenceTable {
  import opened Prelude
  import opened Models
  import opened Statements
  import opened UtxoTable

  datatype RefKey = RefKey(txid: string, address: string, direction: Direction)
  type RefTable = map<RefKey, TxReference>

  function RefKeyOf(r: TxReference): RefKey { RefKey(r.txid, r.address, r.direction) }

  predicate DistinctRefs(rs: seq<TxReference>) {
    forall i, j :: 0 <= i < j < |rs| ==> RefKeyOf(rs[i]) != RefKeyOf(rs[j])
  }

  /** One reference at a time; a conflict replaces every modelled column that is not part of the key. */
  function UpsertRefs(t: RefTable, rs: seq<TxReference>): RefTable {
    if |rs| == 0 then t else UpsertRefs(t, rs[..|rs| - 1])[RefKeyOf(rs[|rs| - 1]) := rs[|rs| - 1]]
  }

  lemma {:induction false} UpsertRefsConcat(t: RefTable, a: seq<TxReference>, b: seq<TxReference>)
    ensures UpsertRefs(t, a + b) == UpsertRefs(UpsertRefs(t, a), b)
  {
    if |b| == 0 {
      assert a + b == a;
    } else {
      assert (a + b)[..|a + b| - 1] == a + b[..|b| - 1];
      UpsertRefsConcat(t, a, b[..|b| - 1]);
    }
  }

  /** The last reference of the list with key k, if any. */
  function LastRef(rs: seq<TxReference>, k: RefKey): Option<TxReference> {
    if |rs| == 0 then None
    else if RefKeyOf(rs[|rs| - 1]) == k then Some(rs[|rs| - 1])
    else LastRef(rs[..|rs| - 1], k)
  }

  lemma {:induction false} UpsertRefsAt(t: RefTable, rs: seq<TxReference>, k: RefKey)
    ensures k in UpsertRefs(t, rs) <==> k in t || LastRef(rs, k).Some?
    ensures k in UpsertRefs(t, rs) ==>
      UpsertRefs(t, rs)[k] == if LastRef(rs, k).Some? then LastRef(rs, k).value else t[k]
  {
    if |rs| > 0 { UpsertRefsAt(t, rs[..|rs| - 1], k); }
  }

  lemma UpsertRefsIdempotent(t: RefTable, rs: seq<TxReference>)
    ensures UpsertRefs(UpsertRefs(t, rs), rs) == UpsertRefs(t, rs)
  {
    var once, twice := UpsertRefs(t, rs), UpsertRefs(UpsertRefs(t, rs), rs);
    forall k ensures k in once <==> k in twice
             ensures k in once ==> once[k] == twice[k]
    {
      UpsertRefsAt(t, rs, k);
      UpsertRefsAt(once, rs, k);
    }
  }

  // ----- the statement as it is sent

  function DirectionText(d: Direction): string { match d case In => "in" case Out => "out" }

  /** The nine columns of the INSERT; the creation time is sent and not modelled further. */
  function RefColumns(r: TxReference, createdAt: int): (cols: seq<Arg>)
    ensures |cols| == 9
  {
    [Text(r.txid), Text(r.address), Text(DirectionText(r.direction)), Num(r.valueSats),
     OptText(r.sender), OptText(r.receiver), OptNum(r.blockHeight), OptNum(r.blockTimestamp), Num(createdAt)]
  }

  function RefFromColumns(c: seq<Arg>): Option<TxReference> {
    if |c| == 9 && c[0].Text? && c[1].Text? && c[2].Text? && c[3].Num? && !c[4].Num? && !c[5].Num?
       && !c[6].Text? && !c[7].Text? && c[8].Num? && c[2].s in {"in", "out"}
    then
      Some(TxReference(c[0].s, c[1].s, if c[2].s == "in" then In else Out, c[3].n,
                       if c[4].Text? then Some(c[4].s) else None, if c[5].Text? then Some(c[5].s) else None,
                       if c[6].Num? then Some(c[6].n) else None, if c[7].Num? then Some(c[7].n) else None))
    else None
  }

  lemma RefColumnsRoundTrip(r: TxReference, createdAt: int)
    ensures RefFromColumns(RefColumns(r, createdAt)) == Some(r)
  {}

  function RefRows(rs: seq<TxReference>, createdAt: int): (rows: seq<seq<Arg>>)
    ensures |rows| == |rs| && Wide(rows, 9)
  {
    seq(|rs|, i requires 0 <= i < |rs| => RefColumns(rs[i], createdAt))
  }

  /** Executing a multi-row upsert of references: None is an error of the server. */
  function ExecRefs(t: RefTable, s: Statement<Arg>): Option<RefTable> {
    if !Accepted(s) || |s.values| == 0 then None
    else
      var rows := Bound(s);
      if exists j :: 0 <= j < |rows| && RefFromColumns(rows[j]).None? then None
      else
        var rs := seq(|rows|, j requires 0 <= j < |rows| => RefFromColumns(rows[j]).value);
        if DistinctRefs(rs) then Some(UpsertRefs(t, rs)) else None
  }

  /** What the server makes of the built statement: an error exactly on a repeated key. */
  lemma ExecRefsMeaning(t: RefTable, batch: seq<TxReference>, createdAt: int, s: Statement<Arg>)
    requires |batch| > 0 && Carries(s, RefRows(batch, createdAt), 9)
    ensures ExecRefs(t, s) == if DistinctRefs(batch) then Some(UpsertRefs(t, batch)) else None
  {
    hide RefFromColumns, RefColumns;
    var rows := RefRows(batch, createdAt);
    assert |Bound(s)| == |s.values|;
    forall j | 0 <= j < |rows| ensures RefFromColumns(rows[j]) == Some(batch[j]) {
      RefColumnsRoundTrip(batch[j], createdAt);
    }
    assert seq(|rows|, j requires 0 <= j < |rows| => RefFromColumns(rows[j]).value) == batch;
  }

  /** No multi-row statement of the chunk loop names a (txid, address, direction) twice. */
  predicate RefChunksDistinct(rs: seq<TxReference>, size: nat)
    requires size > 0
    decreases |rs|
  {
    |rs| == 0 || (DistinctRefs(rs[..Min(size, |rs|)]) && RefChunksDistinct(rs[Min(size, |rs|)..], size))
  }
}
