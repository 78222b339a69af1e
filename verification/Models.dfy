/** The values that travel between the node, the parser and the database. */
module Models {
  import opened Prelude
  import opened Decimal

  /** A transaction output: the primary key (txid, vout) of the utxo table, and a UTXORef. */
  datatype OutPoint = OutPoint(txid: string, vout: int)

  datatype Status = Mempool | Confirmed | Spent

  /** The non-key columns of a row of the utxo table. Times are Unix seconds. */
  datatype Row = Row(address: string, scriptHex: string, valueSats: int, status: Status,
                     blockHeight: Option<int>, blockHash: Option<string>, firstSeenAt: int,
                     spentAt: Option<int>, spentByTxid: Option<string>)

  datatype Utxo = Utxo(op: OutPoint, row: Row)

  datatype Direction = In | Out

  /** An entry of tx_reference, without its creation time. */
  datatype TxReference = TxReference(txid: string, address: string, direction: Direction, valueSats: int,
                                     sender: Option<string>, receiver: Option<string>,
                                     blockHeight: Option<int>, blockTimestamp: Option<int>)

  datatype WatchedScript = WatchedScript(id: int, address: string, scriptHex: string, kind: string, targetId: int)

  datatype Progress = Progress(lastHeight: int, lastBlockHash: string)

  /** An output script. `identifier` is the string the parser derives from the script bytes
      when the node names no address. */
  datatype ScriptPubKey = ScriptPubKey(hex: string, address: string, addresses: seq<string>, identifier: string)

  /** `value` is the float64 the node's JSON number was read into. */
  datatype Vout = Vout(value: real, n: int, script: ScriptPubKey)
  datatype Vin = Vin(txid: string, vout: int)
  datatype Tx = Tx(txid: string, vin: seq<Vin>, vout: seq<Vout>)
  datatype Block = Block(hash: string, height: int, time: int, txs: seq<Tx>)

  /** What parsing one block yields: rows to insert, rows to mark spent, and references. */
  datatype Parsed = Parsed(created: seq<Utxo>, spent: seq<Utxo>, refs: seq<TxReference>)

  /** The map key "txid:vout" used for every in-memory lookup. */
  function Key(o: OutPoint): string {
    o.txid + ":" + PrintInt(o.vout)
  }

  /** The part of s after its last colon. */
  function AfterLastColon(s: string): (r: string)
    ensures |r| <= |s|
  {
    if |s| == 0 || s[|s| - 1] == ':' then [] else AfterLastColon(s[..|s| - 1]) + [s[|s| - 1]]
  }

  lemma {:induction false} AfterLastColonOf(prefix: string, suffix: string)
    requires ':' !in suffix
    ensures AfterLastColon(prefix + ":" + suffix) == suffix
  {
    var s := prefix + ":" + suffix;
    if |suffix| == 0 {
      assert s[|s| - 1] == ':';
    } else {
      var short := suffix[..|suffix| - 1];
      assert s[..|s| - 1] == prefix + ":" + short;
      assert s[|s| - 1] == suffix[|suffix| - 1];
      AfterLastColonOf(prefix, short);
      assert suffix == short + [suffix[|suffix| - 1]];
    }
  }

  /** Distinct outpoints have distinct keys, whatever characters the txid holds. */
  lemma KeyInjective(a: OutPoint, b: OutPoint)
    requires Key(a) == Key(b)
    ensures a == b
  {
    NoColon(a.vout);
    NoColon(b.vout);
    AfterLastColonOf(a.txid, PrintInt(a.vout));
    AfterLastColonOf(b.txid, PrintInt(b.vout));
    PrintIntInjective(a.vout, b.vout);
    var n := |Key(a)| - |PrintInt(a.vout)| - 1;
    assert a.txid == Key(a)[..n] && b.txid == Key(b)[..n];
  }

  function Ops(us: seq<Utxo>): (r: seq<OutPoint>)
    ensures |r| == |us|
    ensures forall i :: 0 <= i < |us| ==> r[i] == us[i].op
  {
    seq(|us|, i requires 0 <= i < |us| => us[i].op)
  }

  predicate DistinctOps(us: seq<Utxo>) {
    forall i, j :: 0 <= i < j < |us| ==> us[i].op != us[j].op
  }

  ghost predicate HasOp(us: seq<Utxo>, o: OutPoint) {
    exists i :: 0 <= i < |us| && us[i].op == o
  }
}
