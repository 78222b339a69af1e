/** From a block to the rows it creates, the rows it spends and the references for watched scripts. */
module Parser {
  import opened Prelude
  import opened Models
  import opened Float64
  import opened UtxoTable
  import opened Database

  /** The address column: the node's address, else its first address, else the identifier
      derived from the script. */
  function AddressOf(s: ScriptPubKey): string {
    if s.address != "" then s.address
    else if |s.addresses| > 0 && s.addresses[0] != "" then s.addresses[0]
    else s.identifier
  }

  /** Coinbase inputs name no output. */
  predicate Spends(v: Vin) { v.txid != "" && v.vout >= 0 }

  function OpOf(v: Vin): OutPoint { OutPoint(v.txid, v.vout) }

  // ----- what a block means

  type AddressFn = ScriptPubKey -> string

  function NewUtxo(b: Block, tx: Tx, v: Vout, addr: AddressFn): Utxo {
    Utxo(OutPoint(tx.txid, v.n),
         Row(addr(v.script), v.script.hex, ToSats(v.value), Confirmed, Some(b.height), Some(b.hash), b.time, None, None))
  }

  function SpentUtxo(b: Block, tx: Tx, u: Utxo): Utxo {
    u.(row := u.row.(status := Spent, spentAt := Some(b.time), spentByTxid := Some(tx.txid)))
  }

  function TxCreated(b: Block, tx: Tx, addr: AddressFn): (r: seq<Utxo>)
    ensures |r| == |tx.vout|
  {
    seq(|tx.vout|, i requires 0 <= i < |tx.vout| => NewUtxo(b, tx, tx.vout[i], addr))
  }

  /** The rows of `found` that the inputs spend, in input order. */
  function TxSpent(b: Block, tx: Tx, vin: seq<Vin>, found: Table): seq<Utxo> {
    if |vin| == 0 then []
    else
      var v := vin[|vin| - 1];
      TxSpent(b, tx, vin[..|vin| - 1], found)
      + if Spends(v) && OpOf(v) in found then [SpentUtxo(b, tx, Utxo(OpOf(v), found[OpOf(v)]))] else []
  }

  /** The address of the first input whose row is known. */
  function Sender(vin: seq<Vin>, found: Table): Option<string> {
    if |vin| == 0 then None
    else if Spends(vin[0]) && OpOf(vin[0]) in found then Some(found[OpOf(vin[0])].address)
    else Sender(vin[1..], found)
  }

  /** The first non-empty address among the outputs. */
  function Receiver(vout: seq<Vout>, addr: AddressFn): Option<string> {
    if |vout| == 0 then None
    else if addr(vout[0].script) != "" then Some(addr(vout[0].script))
    else Receiver(vout[1..], addr)
  }

  function RefIn(b: Block, tx: Tx, v: Vout, found: Table, addr: AddressFn): TxReference {
    TxReference(tx.txid, addr(v.script), In, ToSats(v.value), Sender(tx.vin, found), None, Some(b.height), Some(b.time))
  }

  function RefOut(b: Block, tx: Tx, row: Row, addr: AddressFn): TxReference {
    TxReference(tx.txid, row.address, Out, row.valueSats, None, Receiver(tx.vout, addr), Some(b.height), Some(b.time))
  }

  /** References for outputs that pay a watched script. */
  function RefsIn(b: Block, tx: Tx, vout: seq<Vout>, found: Table, watched: set<string>, addr: AddressFn): seq<TxReference> {
    if |vout| == 0 then []
    else
      var v := vout[|vout| - 1];
      RefsIn(b, tx, vout[..|vout| - 1], found, watched, addr)
      + if v.script.hex in watched then [RefIn(b, tx, v, found, addr)] else []
  }

  /** References for inputs that spend a watched script. */
  function RefsOut(b: Block, tx: Tx, vin: seq<Vin>, found: Table, watched: set<string>, addr: AddressFn): seq<TxReference> {
    if |vin| == 0 then []
    else
      var v := vin[|vin| - 1];
      RefsOut(b, tx, vin[..|vin| - 1], found, watched, addr)
      + if Spends(v) && OpOf(v) in found && found[OpOf(v)].scriptHex in watched
        then [RefOut(b, tx, found[OpOf(v)], addr)] else []
  }

  function AddTx(b: Block, acc: Parsed, tx: Tx, found: Table, watched: set<string>, addr: AddressFn): Parsed {
    Parsed(acc.created + TxCreated(b, tx, addr),
           acc.spent + TxSpent(b, tx, tx.vin, found),
           acc.refs + (RefsIn(b, tx, tx.vout, found, watched, addr) + RefsOut(b, tx, tx.vin, found, watched, addr)))
  }

  function ParseTxs(b: Block, txs: seq<Tx>, found: Table, watched: set<string>, addr: AddressFn): Parsed {
    if |txs| == 0 then Parsed([], [], [])
    else AddTx(b, ParseTxs(b, txs[..|txs| - 1], found, watched, addr), txs[|txs| - 1], found, watched, addr)
  }

  /** What a block yields when `found` are the unspent rows at the time of the lookup. */
  function Parse(b: Block, found: Table, watched: set<string>, addr: AddressFn): Parsed {
    ParseTxs(b, b.txs, found, watched, addr)
  }

  // ----- column by column

  /** The address of a row: the first of three candidates that is not empty. */
  predicate IsAddressOf(s: ScriptPubKey, address: string) {
    && (s.address != "" ==> address == s.address)
    && (s.address == "" && |s.addresses| > 0 && s.addresses[0] != "" ==> address == s.addresses[0])
    && (s.address == "" && (|s.addresses| == 0 || s.addresses[0] == "") ==> address == s.identifier)
  }

  lemma AddressOfIs(s: ScriptPubKey)
    ensures IsAddressOf(s, AddressOf(s))
  {}

  /** Row u is output v of transaction tx, confirmed in block b. */
  predicate IsOutput(b: Block, tx: Tx, v: Vout, addr: AddressFn, u: Utxo) {
    && u.op.txid == tx.txid && u.op.vout == v.n
    && u.row.address == addr(v.script) && u.row.scriptHex == v.script.hex
    && u.row.valueSats == ToSats(v.value) && u.row.status == Confirmed
    && u.row.blockHeight == Some(b.height) && u.row.blockHash == Some(b.hash) && u.row.firstSeenAt == b.time
    && u.row.spentAt == None && u.row.spentByTxid == None
  }

  /** Input v names an output whose row was found. */
  predicate IsKnown(v: Vin, found: Table) {
    v.txid != "" && v.vout >= 0 && OutPoint(v.txid, v.vout) in found
  }

  /** Row u is the row that input v of tx names, spent by tx in block b and otherwise as found. */
  predicate IsSpend(b: Block, tx: Tx, v: Vin, found: Table, u: Utxo) {
    && IsKnown(v, found) && u.op.txid == v.txid && u.op.vout == v.vout
    && u.row.status == Spent && u.row.spentAt == Some(b.time) && u.row.spentByTxid == Some(tx.txid)
    && var row := found[OutPoint(v.txid, v.vout)];
       && u.row.address == row.address && u.row.scriptHex == row.scriptHex && u.row.valueSats == row.valueSats
       && u.row.blockHeight == row.blockHeight && u.row.blockHash == row.blockHash && u.row.firstSeenAt == row.firstSeenAt
  }

  /** The first input whose row was found says who paid. */
  ghost predicate IsSender(vin: seq<Vin>, found: Table, sender: Option<string>) {
    if sender.None? then forall j :: 0 <= j < |vin| ==> !IsKnown(vin[j], found)
    else exists j :: 0 <= j < |vin| && PaidBy(vin, found, j, sender.value)
  }

  ghost predicate PaidBy(vin: seq<Vin>, found: Table, j: nat, address: string)
    requires j < |vin|
  {
    && IsKnown(vin[j], found) && found[OutPoint(vin[j].txid, vin[j].vout)].address == address
    && forall k :: 0 <= k < j ==> !IsKnown(vin[k], found)
  }

  /** The first output with an address says who was paid. */
  ghost predicate IsReceiver(vout: seq<Vout>, addr: AddressFn, receiver: Option<string>) {
    if receiver.None? then forall j :: 0 <= j < |vout| ==> addr(vout[j].script) == ""
    else exists j :: 0 <= j < |vout| && PaidTo(vout, addr, j, receiver.value)
  }

  ghost predicate PaidTo(vout: seq<Vout>, addr: AddressFn, j: nat, address: string)
    requires j < |vout|
  {
    address == addr(vout[j].script) != "" && forall k :: 0 <= k < j ==> addr(vout[k].script) == ""
  }

  /** Reference r says that output v of tx pays a watched script. */
  ghost predicate IsPayment(b: Block, tx: Tx, v: Vout, found: Table, watched: set<string>, addr: AddressFn, r: TxReference) {
    && v.script.hex in watched
    && r.txid == tx.txid && r.address == addr(v.script) && r.direction == In && r.valueSats == ToSats(v.value)
    && IsSender(tx.vin, found, r.sender) && r.receiver == None
    && r.blockHeight == Some(b.height) && r.blockTimestamp == Some(b.time)
  }

  /** Reference r says that input v of tx spends from a watched script. */
  ghost predicate IsWithdrawal(b: Block, tx: Tx, v: Vin, found: Table, watched: set<string>, addr: AddressFn, r: TxReference) {
    && IsKnown(v, found)
    && var row := found[OutPoint(v.txid, v.vout)];
    && row.scriptHex in watched
    && r.txid == tx.txid && r.address == row.address && r.direction == Out && r.valueSats == row.valueSats
    && r.sender == None && IsReceiver(tx.vout, addr, r.receiver)
    && r.blockHeight == Some(b.height) && r.blockTimestamp == Some(b.time)
  }

  ghost predicate HasOutput(b: Block, tx: Tx, vout: seq<Vout>, addr: AddressFn, u: Utxo) {
    exists j :: 0 <= j < |vout| && IsOutput(b, tx, vout[j], addr, u)
  }

  ghost predicate HasSpend(b: Block, tx: Tx, vin: seq<Vin>, found: Table, u: Utxo) {
    exists j :: 0 <= j < |vin| && IsSpend(b, tx, vin[j], found, u)
  }

  ghost predicate HasPayment(b: Block, tx: Tx, vout: seq<Vout>, found: Table, watched: set<string>, addr: AddressFn, r: TxReference) {
    exists j :: 0 <= j < |vout| && IsPayment(b, tx, vout[j], found, watched, addr, r)
  }

  ghost predicate HasWithdrawal(b: Block, tx: Tx, vin: seq<Vin>, found: Table, watched: set<string>, addr: AddressFn, r: TxReference) {
    exists j :: 0 <= j < |vin| && IsWithdrawal(b, tx, vin[j], found, watched, addr, r)
  }

  ghost predicate HasReference(b: Block, tx: Tx, found: Table, watched: set<string>, addr: AddressFn, r: TxReference) {
    HasPayment(b, tx, tx.vout, found, watched, addr, r) || HasWithdrawal(b, tx, tx.vin, found, watched, addr, r)
  }

  /** The created list: a row for each output, and nothing else. */
  ghost predicate OutputsListed(b: Block, txs: seq<Tx>, addr: AddressFn, created: seq<Utxo>) {
    forall u :: u in created <==> exists i :: 0 <= i < |txs| && HasOutput(b, txs[i], txs[i].vout, addr, u)
  }

  /** The spent list: an entry for each input whose row was found, and nothing else. */
  ghost predicate SpendsListed(b: Block, txs: seq<Tx>, found: Table, spent: seq<Utxo>) {
    forall u :: u in spent <==> exists i :: 0 <= i < |txs| && HasSpend(b, txs[i], txs[i].vin, found, u)
  }

  /** The references: one for each payment to and from a watched script, and nothing else. */
  ghost predicate ReferencesListed(b: Block, txs: seq<Tx>, found: Table, watched: set<string>, addr: AddressFn, refs: seq<TxReference>) {
    forall r :: r in refs <==> exists i :: 0 <= i < |txs| && HasReference(b, txs[i], found, watched, addr, r)
  }

  /** What the three lists of transactions in a block hold, given the rows that were found. */
  ghost predicate Describes(b: Block, txs: seq<Tx>, found: Table, watched: set<string>, addr: AddressFn, p: Parsed) {
    OutputsListed(b, txs, addr, p.created) && SpendsListed(b, txs, found, p.spent) && ReferencesListed(b, txs, found, watched, addr, p.refs)
  }

  lemma CreatedAreOutputs(b: Block, tx: Tx, addr: AddressFn, u: Utxo)
    ensures u in TxCreated(b, tx, addr) <==> HasOutput(b, tx, tx.vout, addr, u)
  {
    var us := TxCreated(b, tx, addr);
    forall j | 0 <= j < |tx.vout| ensures u == us[j] <==> IsOutput(b, tx, tx.vout[j], addr, u) {}
  }

  lemma {:induction false} SpentAreSpends(b: Block, tx: Tx, vin: seq<Vin>, found: Table, u: Utxo)
    ensures u in TxSpent(b, tx, vin, found) <==> HasSpend(b, tx, vin, found, u)
  {
    if |vin| > 0 {
      var init, v := vin[..|vin| - 1], vin[|vin| - 1];
      SpentAreSpends(b, tx, init, found, u);
      assert IsSpend(b, tx, v, found, u) <==> Spends(v) && OpOf(v) in found && u == SpentUtxo(b, tx, Utxo(OpOf(v), found[OpOf(v)]));
      hide IsSpend;
      assert vin == init + [v];
    }
  }

  lemma {:induction false} SenderIs(vin: seq<Vin>, found: Table, sender: Option<string>)
    ensures IsSender(vin, found, sender) <==> sender == Sender(vin, found)
  {
    if |vin| > 0 {
      var rest := vin[1..];
      SenderIs(rest, found, sender);
      assert forall j :: 0 <= j < |rest| ==> vin[j + 1] == rest[j];
      if IsKnown(vin[0], found) {
        assert sender == Some(found[OpOf(vin[0])].address) ==> PaidBy(vin, found, 0, sender.value);
      } else {
        forall j: nat | j < |rest| && sender.Some? ensures PaidBy(vin, found, j + 1, sender.value) <==> PaidBy(rest, found, j, sender.value) {
          assert forall k :: 0 < k < j + 1 ==> vin[k] == rest[k - 1];
        }
        if IsSender(vin, found, sender) && sender.Some? {
          var j :| 0 <= j < |vin| && PaidBy(vin, found, j, sender.value);
          assert PaidBy(rest, found, j - 1, sender.value);
        }
      }
    }
  }

  lemma {:induction false} ReceiverIs(vout: seq<Vout>, addr: AddressFn, receiver: Option<string>)
    ensures IsReceiver(vout, addr, receiver) <==> receiver == Receiver(vout, addr)
  {
    if |vout| > 0 {
      var rest := vout[1..];
      ReceiverIs(rest, addr, receiver);
      assert forall j :: 0 <= j < |rest| ==> vout[j + 1] == rest[j];
      if addr(vout[0].script) != "" {
        assert receiver == Some(addr(vout[0].script)) ==> PaidTo(vout, addr, 0, receiver.value);
      } else {
        forall j: nat | j < |rest| && receiver.Some? ensures PaidTo(vout, addr, j + 1, receiver.value) <==> PaidTo(rest, addr, j, receiver.value) {
          assert forall k :: 0 < k < j + 1 ==> vout[k] == rest[k - 1];
        }
        if IsReceiver(vout, addr, receiver) && receiver.Some? {
          var j :| 0 <= j < |vout| && PaidTo(vout, addr, j, receiver.value);
          assert PaidTo(rest, addr, j - 1, receiver.value);
        }
      }
    }
  }

  lemma {:induction false} RefsInArePayments(b: Block, tx: Tx, vout: seq<Vout>, found: Table, watched: set<string>, addr: AddressFn, r: TxReference)
    ensures r in RefsIn(b, tx, vout, found, watched, addr) <==> HasPayment(b, tx, vout, found, watched, addr, r)
  {
    if |vout| > 0 {
      var init, v := vout[..|vout| - 1], vout[|vout| - 1];
      RefsInArePayments(b, tx, init, found, watched, addr, r);
      SenderIs(tx.vin, found, r.sender);
      hide IsSender, Sender;
      assert IsPayment(b, tx, v, found, watched, addr, r) <==> v.script.hex in watched && r == RefIn(b, tx, v, found, addr);
      hide IsPayment, RefIn;
      assert vout == init + [v];
    }
  }

  lemma {:induction false} RefsOutAreWithdrawals(b: Block, tx: Tx, vin: seq<Vin>, found: Table, watched: set<string>, addr: AddressFn, r: TxReference)
    ensures r in RefsOut(b, tx, vin, found, watched, addr) <==> HasWithdrawal(b, tx, vin, found, watched, addr, r)
  {
    if |vin| > 0 {
      var init, v := vin[..|vin| - 1], vin[|vin| - 1];
      RefsOutAreWithdrawals(b, tx, init, found, watched, addr, r);
      ReceiverIs(tx.vout, addr, r.receiver);
      hide IsReceiver, Receiver;
      assert IsWithdrawal(b, tx, v, found, watched, addr, r) <==>
        Spends(v) && OpOf(v) in found && found[OpOf(v)].scriptHex in watched && r == RefOut(b, tx, found[OpOf(v)], addr);
      hide IsWithdrawal, RefOut;
      assert vin == init + [v];
    }
  }

  lemma TxRefsAreReferences(b: Block, tx: Tx, found: Table, watched: set<string>, addr: AddressFn, r: TxReference)
    ensures r in RefsIn(b, tx, tx.vout, found, watched, addr) + RefsOut(b, tx, tx.vin, found, watched, addr) <==>
      HasReference(b, tx, found, watched, addr, r)
  {
    RefsInArePayments(b, tx, tx.vout, found, watched, addr, r);
    RefsOutAreWithdrawals(b, tx, tx.vin, found, watched, addr, r);
  }

  lemma OutputsNext(b: Block, init: seq<Tx>, tx: Tx, addr: AddressFn, created: seq<Utxo>)
    requires OutputsListed(b, init, addr, created)
    ensures OutputsListed(b, init + [tx], addr, created + TxCreated(b, tx, addr))
  {
    hide HasOutput, TxCreated;
    forall u ensures u in created + TxCreated(b, tx, addr) <==>
      exists i :: 0 <= i < |init + [tx]| && HasOutput(b, (init + [tx])[i], (init + [tx])[i].vout, addr, u)
    {
      CreatedAreOutputs(b, tx, addr, u);
      assert (init + [tx])[|init|] == tx && forall i :: 0 <= i < |init| ==> (init + [tx])[i] == init[i];
    }
  }

  lemma SpendsNext(b: Block, init: seq<Tx>, tx: Tx, found: Table, spent: seq<Utxo>)
    requires SpendsListed(b, init, found, spent)
    ensures SpendsListed(b, init + [tx], found, spent + TxSpent(b, tx, tx.vin, found))
  {
    hide HasSpend, TxSpent;
    forall u ensures u in spent + TxSpent(b, tx, tx.vin, found) <==>
      exists i :: 0 <= i < |init + [tx]| && HasSpend(b, (init + [tx])[i], (init + [tx])[i].vin, found, u)
    {
      SpentAreSpends(b, tx, tx.vin, found, u);
      assert (init + [tx])[|init|] == tx && forall i :: 0 <= i < |init| ==> (init + [tx])[i] == init[i];
    }
  }

  lemma ReferencesNext(b: Block, init: seq<Tx>, tx: Tx, found: Table, watched: set<string>, addr: AddressFn, refs: seq<TxReference>)
    requires ReferencesListed(b, init, found, watched, addr, refs)
    ensures ReferencesListed(b, init + [tx], found, watched, addr,
                             refs + (RefsIn(b, tx, tx.vout, found, watched, addr) + RefsOut(b, tx, tx.vin, found, watched, addr)))
  {
    hide HasReference, RefsIn, RefsOut;
    var now := RefsIn(b, tx, tx.vout, found, watched, addr) + RefsOut(b, tx, tx.vin, found, watched, addr);
    forall r ensures r in refs + now <==> exists i :: 0 <= i < |init + [tx]| && HasReference(b, (init + [tx])[i], found, watched, addr, r) {
      TxRefsAreReferences(b, tx, found, watched, addr, r);
      assert (init + [tx])[|init|] == tx && forall i :: 0 <= i < |init| ==> (init + [tx])[i] == init[i];
    }
  }

  /** What parsing yields is what the block says, column by column. */
  lemma {:induction false} ParseDescribes(b: Block, txs: seq<Tx>, found: Table, watched: set<string>, addr: AddressFn)
    ensures Describes(b, txs, found, watched, addr, ParseTxs(b, txs, found, watched, addr))
  {
    if |txs| > 0 {
      var init, tx := txs[..|txs| - 1], txs[|txs| - 1];
      ParseDescribes(b, init, found, watched, addr);
      var before := ParseTxs(b, init, found, watched, addr);
      hide OutputsListed, SpendsListed, ReferencesListed, TxCreated, TxSpent, RefsIn, RefsOut;
      OutputsNext(b, init, tx, addr, before.created);
      SpendsNext(b, init, tx, found, before.spent);
      ReferencesNext(b, init, tx, found, watched, addr, before.refs);
      assert txs == init + [tx];
    }
  }

  // ----- the collection loop

  ghost predicate SpentBy(txs: seq<Tx>, o: OutPoint) {
    exists i, j :: 0 <= i < |txs| && 0 <= j < |txs[i].vin| && Spends(txs[i].vin[j]) && OpOf(txs[i].vin[j]) == o
  }

  /** The lookup list: no outpoint twice, and the index recorded for each. */
  ghost predicate Indexed(refs: seq<OutPoint>, refMap: map<string, nat>) {
    && Distinct(refs)
    && (forall i :: 0 <= i < |refs| ==> Key(refs[i]) in refMap && refMap[Key(refs[i])] == i)
    && (forall k :: k in refMap ==> refMap[k] < |refs| && Key(refs[refMap[k]]) == k)
  }

  method CollectInput(v: Vin, refs: seq<OutPoint>, refMap: map<string, nat>)
    returns (refs': seq<OutPoint>, refMap': map<string, nat>)
    requires Indexed(refs, refMap)
    ensures Indexed(refs', refMap')
    ensures forall o :: o in refs' <==> o in refs || (Spends(v) && o == OpOf(v))
  {
    refs', refMap' := refs, refMap;
    if v.txid != "" && v.vout >= 0 {
      KeysInjective();
      var key := Key(OpOf(v));
      assert Key(OpOf(v)) in refMap <==> OpOf(v) in refs;
      if key !in refMap {
        refMap' := refMap'[key := |refs'|];
        refs' := refs' + [OutPoint(v.txid, v.vout)];
      }
    }
  }

  /** The outpoints to look up: exactly those the transactions spend and those collected
      before, each once, with its position recorded under its key. */
  method CollectRefs(txs: seq<Tx>, refs0: seq<OutPoint>, refMap0: map<string, nat>)
    returns (refs: seq<OutPoint>, refMap: map<string, nat>)
    requires Indexed(refs0, refMap0)
    ensures Indexed(refs, refMap)
    ensures forall o :: o in refs <==> o in refs0 || SpentBy(txs, o)
  {
    refs, refMap := refs0, refMap0;
    for i := 0 to |txs|
      invariant Indexed(refs, refMap)
      invariant forall o :: o in refs <==> o in refs0 || SpentBy(txs[..i], o)
    {
      ghost var before := refs;
      for j := 0 to |txs[i].vin|
        invariant Indexed(refs, refMap)
        invariant forall o :: o in refs <==>
          o in before || exists k :: 0 <= k < j && Spends(txs[i].vin[k]) && OpOf(txs[i].vin[k]) == o
      {
        refs, refMap := CollectInput(txs[i].vin[j], refs, refMap);
      }
      forall o ensures SpentBy(txs[..i + 1], o) <==>
        SpentBy(txs[..i], o) || exists k :: 0 <= k < |txs[i].vin| && Spends(txs[i].vin[k]) && OpOf(txs[i].vin[k]) == o
      {
        SpentByNext(txs, i, o);
      }
    }
    assert txs[..|txs|] == txs;
  }

  lemma SpentByNext(txs: seq<Tx>, i: nat, o: OutPoint)
    requires i < |txs|
    ensures SpentBy(txs[..i + 1], o) <==>
      SpentBy(txs[..i], o) || exists k :: 0 <= k < |txs[i].vin| && Spends(txs[i].vin[k]) && OpOf(txs[i].vin[k]) == o
  {
    var now, next := txs[..i], txs[..i + 1];
    if SpentBy(next, o) {
      var a, k :| 0 <= a < |next| && 0 <= k < |next[a].vin| && Spends(next[a].vin[k]) && OpOf(next[a].vin[k]) == o;
      if a < i { assert now[a] == next[a]; }
    }
    if SpentBy(now, o) {
      var a, k :| 0 <= a < |now| && 0 <= k < |now[a].vin| && Spends(now[a].vin[k]) && OpOf(now[a].vin[k]) == o;
      assert next[a] == now[a];
    }
    if exists k :: 0 <= k < |txs[i].vin| && Spends(txs[i].vin[k]) && OpOf(txs[i].vin[k]) == o {
      assert next[i] == txs[i];
    }
  }

  // ----- the parsing loops

  /** The in-memory map answers every lookup of these inputs as the table does. */
  ghost predicate Answers(existing: map<string, Utxo>, found: Table, vin: seq<Vin>) {
    forall j :: 0 <= j < |vin| && Spends(vin[j]) ==>
      if OpOf(vin[j]) in found
      then Key(OpOf(vin[j])) in existing && existing[Key(OpOf(vin[j]))] == Utxo(OpOf(vin[j]), found[OpOf(vin[j])])
      else Key(OpOf(vin[j])) !in existing
  }

  method ComputeSender(vin: seq<Vin>, existing: map<string, Utxo>, ghost found: Table) returns (r: Option<string>)
    requires Answers(existing, found, vin)
    ensures r == Sender(vin, found)
  {
    for j := 0 to |vin|
      invariant Sender(vin, found) == Sender(vin[j..], found)
    {
      if vin[j].txid != "" && vin[j].vout >= 0 {
        var key := Key(OutPoint(vin[j].txid, vin[j].vout));
        if key in existing { return Some(existing[key].row.address); }
      }
      assert vin[j..][1..] == vin[j + 1..];
    }
    r := None;
  }

  method ComputeReceiver(vout: seq<Vout>, addr: AddressFn) returns (r: Option<string>)
    ensures r == Receiver(vout, addr)
  {
    for j := 0 to |vout|
      invariant Receiver(vout, addr) == Receiver(vout[j..], addr)
    {
      var address := addr(vout[j].script);
      if address != "" { return Some(address); }
      assert vout[j..][1..] == vout[j + 1..];
    }
    r := None;
  }

  /** The loop over the outputs of one transaction. `lookups(k)` is the fate of the k-th question
      whether a script is watched. */
  method ParseOutputs(b: Block, tx: Tx, existing: map<string, Utxo>, ghost found: Table, watched: set<string>,
                      addr: AddressFn, lookups: Faults, asked: nat)
    returns (created: seq<Utxo>, refs: seq<TxReference>, asked': nat, ok: bool)
    requires Answers(existing, found, tx.vin)
    ensures asked <= asked' <= asked + |tx.vout|
    ensures ok <==> forall k :: asked <= k < asked + |tx.vout| ==> lookups(k) == None
    ensures !ok ==> lookups(asked') != None
    ensures ok ==> asked' == asked + |tx.vout|
    ensures ok ==> created == TxCreated(b, tx, addr) && refs == RefsIn(b, tx, tx.vout, found, watched, addr)
  {
    NoOutputs(b, tx, found, watched, addr);
    assert tx.vout[..0] == [];
    hide TxCreated, RefsIn, Sender, ToSats;
    created, refs, asked' := [], [], asked;
    for i := 0 to |tx.vout|
      invariant asked' == asked + i && forall k :: asked <= k < asked' ==> lookups(k) == None
      invariant created == TxCreated(b, tx, addr)[..i]
      invariant refs == RefsIn(b, tx, tx.vout[..i], found, watched, addr)
    {
      var v := tx.vout[i];
      var address := addr(v.script);
      created := created + [Utxo(OutPoint(tx.txid, v.n),
                                 Row(address, v.script.hex, ToSats(v.value), Confirmed, Some(b.height), Some(b.hash), b.time, None, None))];
      if lookups(asked').Some? { return created, refs, asked', false; }
      asked' := asked' + 1;
      NextOutput(b, tx, i, found, watched, addr);
      if v.script.hex in watched {
        var sender := ComputeSender(tx.vin, existing, found);
        refs := refs + [TxReference(tx.txid, address, In, ToSats(v.value), sender, None, Some(b.height), Some(b.time))];
      }
    }
    assert tx.vout[..|tx.vout|] == tx.vout;
    ok := true;
  }

  lemma NoOutputs(b: Block, tx: Tx, found: Table, watched: set<string>, addr: AddressFn)
    ensures RefsIn(b, tx, [], found, watched, addr) == []
  {}

  lemma NextOutput(b: Block, tx: Tx, i: nat, found: Table, watched: set<string>, addr: AddressFn)
    requires i < |tx.vout|
    ensures var v := tx.vout[i];
            && TxCreated(b, tx, addr)[..i + 1] == TxCreated(b, tx, addr)[..i] + [NewUtxo(b, tx, v, addr)]
            && RefsIn(b, tx, tx.vout[..i + 1], found, watched, addr)
               == RefsIn(b, tx, tx.vout[..i], found, watched, addr)
                  + (if v.script.hex in watched then [RefIn(b, tx, v, found, addr)] else [])
  {
    assert tx.vout[..i + 1][..i] == tx.vout[..i];
  }

  /** The loop over the inputs of one transaction. */
  method ParseInputs(b: Block, tx: Tx, existing: map<string, Utxo>, ghost found: Table, watched: set<string>,
                     addr: AddressFn, lookups: Faults, asked: nat)
    returns (spent: seq<Utxo>, refs: seq<TxReference>, asked': nat, ok: bool)
    requires Answers(existing, found, tx.vin)
    ensures var n := |TxSpent(b, tx, tx.vin, found)|;
            && asked <= asked' <= asked + n
            && (ok <==> NoFaultFrom(lookups, asked, n))
            && (ok ==> asked' == asked + n)
    ensures !ok ==> lookups(asked') != None
    ensures ok ==> spent == TxSpent(b, tx, tx.vin, found) && refs == RefsOut(b, tx, tx.vin, found, watched, addr)
  {
    NoInputs(b, tx, found, watched, addr);
    assert tx.vin[..0] == [];
    spent, refs, asked' := [], [], asked;
    assert NoFaultFrom(lookups, asked, 0);
    hide TxSpent, RefsOut, Key, Receiver, Answers, NoFaultFrom;
    for j := 0 to |tx.vin|
      invariant asked' == asked + |spent| && NoFaultFrom(lookups, asked, |spent|)
      invariant spent == TxSpent(b, tx, tx.vin[..j], found)
      invariant refs == RefsOut(b, tx, tx.vin[..j], found, watched, addr)
    {
      var v := tx.vin[j];
      NextInput(b, tx, j, found, watched, addr);
      SpentGrows(b, tx, j + 1, found);
      if v.txid != "" && v.vout >= 0 {
        AnswersAt(existing, found, tx.vin, j);
        var key := Key(OutPoint(v.txid, v.vout));
        if key in existing {
          var u := existing[key];
          NextQuestion(lookups, asked, |spent|, |TxSpent(b, tx, tx.vin, found)|);
          spent := spent + [u.(row := u.row.(status := Spent, spentAt := Some(b.time), spentByTxid := Some(tx.txid)))];
          if lookups(asked').Some? { return spent, refs, asked', false; }
          asked' := asked' + 1;
          if u.row.scriptHex in watched {
            var receiver := ComputeReceiver(tx.vout, addr);
            refs := refs + [TxReference(tx.txid, u.row.address, Out, u.row.valueSats, None, receiver, Some(b.height), Some(b.time))];
          }
        }
      }
    }
    assert tx.vin[..|tx.vin|] == tx.vin;
    ok := true;
  }

  /** One more question among n in all. */
  lemma NextQuestion(lookups: Faults, asked: nat, k: nat, n: nat)
    requires NoFaultFrom(lookups, asked, k) && k < n
    ensures lookups(asked + k) == None <==> NoFaultFrom(lookups, asked, k + 1)
    ensures lookups(asked + k) != None ==> !NoFaultFrom(lookups, asked, n)
  {}

  lemma AnswersAt(existing: map<string, Utxo>, found: Table, vin: seq<Vin>, j: nat)
    requires Answers(existing, found, vin) && j < |vin| && Spends(vin[j])
    ensures Key(OpOf(vin[j])) in existing <==> OpOf(vin[j]) in found
    ensures OpOf(vin[j]) in found ==> existing[Key(OpOf(vin[j]))] == Utxo(OpOf(vin[j]), found[OpOf(vin[j])])
  {}

  lemma NoInputs(b: Block, tx: Tx, found: Table, watched: set<string>, addr: AddressFn)
    ensures TxSpent(b, tx, [], found) == [] && RefsOut(b, tx, [], found, watched, addr) == []
  {}

  lemma NextInput(b: Block, tx: Tx, j: nat, found: Table, watched: set<string>, addr: AddressFn)
    requires j < |tx.vin|
    ensures var v := tx.vin[j];
            var known := Spends(v) && OpOf(v) in found;
            && TxSpent(b, tx, tx.vin[..j + 1], found)
               == TxSpent(b, tx, tx.vin[..j], found) + (if known then [SpentUtxo(b, tx, Utxo(OpOf(v), found[OpOf(v)]))] else [])
            && RefsOut(b, tx, tx.vin[..j + 1], found, watched, addr)
               == RefsOut(b, tx, tx.vin[..j], found, watched, addr)
                  + (if known && found[OpOf(v)].scriptHex in watched then [RefOut(b, tx, found[OpOf(v)], addr)] else [])
  {
    assert tx.vin[..j + 1][..j] == tx.vin[..j];
  }

  lemma {:induction false} SpentGrows(b: Block, tx: Tx, j: nat, found: Table)
    requires j <= |tx.vin|
    ensures |TxSpent(b, tx, tx.vin[..j], found)| <= |TxSpent(b, tx, tx.vin, found)|
    decreases |tx.vin| - j
  {
    if j == |tx.vin| {
      assert tx.vin[..j] == tx.vin;
    } else {
      SpentGrows(b, tx, j + 1, found);
      assert tx.vin[..j + 1][..j] == tx.vin[..j];
    }
  }

  /** The loop over the transactions, given the rows that were looked up. It succeeds exactly
      when every question whether a script is watched is answered: one for each new output
      and one for each spent row. */
  method ParseTransactions(b: Block, existing: map<string, Utxo>, ghost found: Table, watched: set<string>,
                           addr: AddressFn, lookups: Faults) returns (r: Result<Parsed>)
    requires forall i :: 0 <= i < |b.txs| ==> Answers(existing, found, b.txs[i].vin)
    ensures r.Success? <==>
      NoFault(lookups, |Parse(b, found, watched, addr).created| + |Parse(b, found, watched, addr).spent|)
    ensures r.Success? ==> r.value == Parse(b, found, watched, addr) && Describes(b, b.txs, found, watched, addr, r.value)
  {
    ParseDescribes(b, b.txs, found, watched, addr);
    hide Describes;
    var acc, asked := Parsed([], [], []), 0;
    for i := 0 to |b.txs|
      invariant acc == ParseTxs(b, b.txs[..i], found, watched, addr)
      invariant asked == |acc.created| + |acc.spent| && NoFault(lookups, asked)
    {
      assert b.txs[..i + 1][..i] == b.txs[..i];
      ParseGrows(b, i + 1, found, watched, addr);
      var created, refsIn, asked1, ok1 := ParseOutputs(b, b.txs[i], existing, found, watched, addr, lookups, asked);
      if !ok1 { return Failure(lookups(asked1).value); }
      var spent, refsOut, asked2, ok2 := ParseInputs(b, b.txs[i], existing, found, watched, addr, lookups, asked1);
      if !ok2 { return Failure(lookups(asked2).value); }
      acc := Parsed(acc.created + created, acc.spent + spent, acc.refs + (refsIn + refsOut));
      asked := asked2;
    }
    assert b.txs[..|b.txs|] == b.txs;
    r := Success(acc);
  }

  lemma {:induction false} ParseGrows(b: Block, i: nat, found: Table, watched: set<string>, addr: AddressFn)
    requires i <= |b.txs|
    ensures var now, all := ParseTxs(b, b.txs[..i], found, watched, addr), Parse(b, found, watched, addr);
            |now.created| + |now.spent| <= |all.created| + |all.spent|
    decreases |b.txs| - i
  {
    if i == |b.txs| {
      assert b.txs[..i] == b.txs;
    } else {
      ParseGrows(b, i + 1, found, watched, addr);
      assert b.txs[..i + 1][..i] == b.txs[..i];
    }
  }

  // ----- the entry points

  lemma AnswersAll(b: Block, refs: seq<OutPoint>, existing: map<string, Utxo>, t: Table)
    requires forall o :: SpentBy(b.txs, o) ==> o in refs
    requires forall o :: o in refs ==>
      if o in t && IsUnspent(t[o]) then Key(o) in existing && existing[Key(o)] == Utxo(o, t[o]) else Key(o) !in existing
    ensures forall i :: 0 <= i < |b.txs| ==> Answers(existing, Visible(t), b.txs[i].vin)
  {
    forall i, j | 0 <= i < |b.txs| && 0 <= j < |b.txs[i].vin| && Spends(b.txs[i].vin[j])
      ensures OpOf(b.txs[i].vin[j]) in refs
    {
      assert SpentBy(b.txs, OpOf(b.txs[i].vin[j]));
    }
  }

  /** The prefetch: the inputs of the block are looked up once, before any of its own outputs
      can be in the table. */
  method Prefetch(db: DB, b: Block, fault: Option<Error>) returns (r: Result<map<string, Utxo>>)
    ensures r.Success? <==> fault.None? || forall o :: !SpentBy(b.txs, o)
    ensures r.Success? ==> forall i :: 0 <= i < |b.txs| ==> Answers(r.value, Visible(db.state.utxo), b.txs[i].vin)
  {
    var refs, refMap := CollectRefs(b.txs, [], map[]);
    if |refs| > 0 { assert refs[0] in refs; }
    r := db.BatchGetUTXOs(refs, fault);
    if r.Success? { AnswersAll(b, refs, r.value, db.state.utxo); }
  }

  /** ParseBlockWithCache: watched scripts come from a map. */
  method ParseBlockWithCache(db: DB, b: Block, watched: map<string, WatchedScript>, fault: Option<Error>) returns (r: Result<Parsed>)
    ensures r.Success? <==> fault.None? || forall o :: !SpentBy(b.txs, o)
    ensures r.Success? ==>
      r.value == Parse(b, Visible(db.state.utxo), watched.Keys, AddressOf)
      && Describes(b, b.txs, Visible(db.state.utxo), watched.Keys, AddressOf, r.value)
  {
    hide Describes;
    var existing := Prefetch(db, b, fault);
    if existing.Failure? { return Failure(existing.error); }
    r := ParseTransactions(b, existing.value, Visible(db.state.utxo), watched.Keys, AddressOf, k => None);
  }

  /** ParseBlock: every script is looked up in the watched_script table. When the table and a
      cached map hold the same scripts, both parsers return the same lists. */
  method ParseBlock(db: DB, b: Block, fault: Option<Error>, lookups: Faults) returns (r: Result<Parsed>)
    ensures var p := Parse(b, Visible(db.state.utxo), db.watched.Keys, AddressOf);
            && (r.Success? <==> (fault.None? || forall o :: !SpentBy(b.txs, o)) && NoFault(lookups, |p.created| + |p.spent|))
            && (r.Success? ==> r.value == p && Describes(b, b.txs, Visible(db.state.utxo), db.watched.Keys, AddressOf, p))
  {
    hide Describes;
    var existing := Prefetch(db, b, fault);
    if existing.Failure? { return Failure(existing.error); }
    r := ParseTransactions(b, existing.value, Visible(db.state.utxo), db.watched.Keys, AddressOf, lookups);
  }
}
