/** Multi-row SQL statements: how the chunk loops number their `$n` placeholders and
    what the server binds to them. A row is the list of its column values. */
module Statements {
  import opened Prelude

  /** The wire protocol counts parameters in 16 bits. */
  const MAX_PARAMETERS := 65535

  /** `values[j]` holds the numbers n of the placeholders `$n` in the j-th parenthesised
      group of the statement; `args` is the parameter list sent with it. */
  datatype Statement<A> = Statement(values: seq<seq<nat>>, args: seq<A>)

  /** `($(j*w+1), ..., $(j*w+w))` */
  function Group(j: nat, w: nat): (g: seq<nat>) {
    seq(w, c requires 0 <= c < w => j * w + c + 1)
  }

  function Groups(n: nat, w: nat): seq<seq<nat>> {
    seq(n, j requires 0 <= j < n => Group(j, w))
  }

  /** Every placeholder names a parameter that was sent, and not too many were sent. */
  predicate Accepted<A>(s: Statement<A>) {
    && |s.args| <= MAX_PARAMETERS
    && forall j, c :: 0 <= j < |s.values| && 0 <= c < |s.values[j]| ==> 1 <= s.values[j][c] <= |s.args|
  }

  /** The rows the server sees: each `$n` replaced by the n-th parameter. */
  function Bound<A>(s: Statement<A>): seq<seq<A>>
    requires Accepted(s)
  {
    seq(|s.values|, j requires 0 <= j < |s.values| =>
      seq(|s.values[j]|, c requires 0 <= c < |s.values[j]| => s.args[s.values[j][c] - 1]))
  }

  ghost predicate Wide<A>(rows: seq<seq<A>>, w: nat) {
    forall j :: 0 <= j < |rows| ==> |rows[j]| == w
  }

  lemma {:induction false} FlattenLength<A>(rows: seq<seq<A>>, w: nat)
    requires Wide(rows, w)
    ensures |Flatten(rows)| == |rows| * w
  {
    if |rows| > 0 {
      FlattenLength(rows[1..], w);
      assert |rows| * w == w + (|rows| - 1) * w;
    }
  }

  lemma {:induction false} FlattenAt<A>(rows: seq<seq<A>>, w: nat, j: nat, c: nat)
    requires Wide(rows, w) && j < |rows| && c < w
    ensures 0 <= j * w + c < |Flatten(rows)|
    ensures Flatten(rows)[j * w + c] == rows[j][c]
  {
    FlattenLength(rows, w);
    FlattenLength(rows[1..], w);
    if j > 0 {
      FlattenAt(rows[1..], w, j - 1, c);
      assert (j - 1) * w + c + w == j * w + c;
    }
  }

  /** The placeholders of a statement, read left to right, are exactly $1, $2, ..., $(n*w). */
  lemma {:induction false} PlaceholdersAreDense(n: nat, w: nat)
    ensures Flatten(Groups(n, w)) == seq(n * w, i requires 0 <= i < n * w => i + 1)
  {
    if n > 0 {
      PlaceholdersAreDense(n - 1, w);
      assert Groups(n, w) == Groups(n - 1, w) + [Group(n - 1, w)];
      FlattenAppend(Groups(n - 1, w), Group(n - 1, w));
      assert n * w == (n - 1) * w + w;
    }
  }

  lemma BindingAt<A>(rows: seq<seq<A>>, w: nat, j: nat, c: nat)
    requires Wide(rows, w) && j < |rows| && c < w
    ensures Groups(|rows|, w)[j][c] == j * w + c + 1
    ensures 1 <= j * w + c + 1 <= |Flatten(rows)|
    ensures Flatten(rows)[j * w + c] == rows[j][c]
  {
    FlattenAt(rows, w, j, c);
    assert Groups(|rows|, w)[j] == Group(j, w);
  }

  /** Statement s carries exactly these rows: field c of row j is bound to column c of
      row j and to nothing else, its placeholders are $1 to $n in order, and n parameters are sent. */
  ghost predicate Carries<A>(s: Statement<A>, rows: seq<seq<A>>, w: nat) {
    && Accepted(s)
    && Bound(s) == rows
    && |s.args| == |rows| * w
    && Flatten(s.values) == seq(|s.args|, i requires 0 <= i < |s.args| => i + 1)
  }

  lemma BindingRoundTrip<A>(rows: seq<seq<A>>, w: nat)
    requires Wide(rows, w) && |rows| * w <= MAX_PARAMETERS
    ensures Carries(Statement(Groups(|rows|, w), Flatten(rows)), rows, w)
  {
    var s := Statement(Groups(|rows|, w), Flatten(rows));
    FlattenLength(rows, w);
    PlaceholdersAreDense(|rows|, w);
    forall j, c | 0 <= j < |s.values| && 0 <= c < |s.values[j]|
      ensures 1 <= s.values[j][c] <= |s.args|
    {
      BindingAt(rows, w, j, c);
    }
    assert Accepted(s);
    var b := Bound(s);
    forall j | 0 <= j < |rows| ensures b[j] == rows[j] {
      BoundRow(rows, w, s, j);
    }
    assert b == rows;
  }

  lemma BoundRow<A>(rows: seq<seq<A>>, w: nat, s: Statement<A>, j: nat)
    requires Wide(rows, w) && s == Statement(Groups(|rows|, w), Flatten(rows)) && Accepted(s)
    requires j < |rows|
    ensures Bound(s)[j] == rows[j]
  {
    forall c | 0 <= c < w ensures Bound(s)[j][c] == rows[j][c] {
      BindingAt(rows, w, j, c);
      assert Bound(s)[j][c] == s.args[s.values[j][c] - 1];
    }
  }

  /** The inner loop of every bulk method: one group and w parameters per row. */
  method BuildStatement<A>(batch: seq<seq<A>>, w: nat) returns (s: Statement<A>)
    requires Wide(batch, w)
    ensures s == Statement(Groups(|batch|, w), Flatten(batch))
  {
    var values: seq<seq<nat>>, args: seq<A> := [], [];
    for j := 0 to |batch|
      invariant values == Groups(j, w)
      invariant args == Flatten(batch[..j])
    {
      values := values + [seq(w, c requires 0 <= c < w => j * w + c + 1)];
      args := args + batch[j];
      FlattenAppend(batch[..j], batch[j]);
      assert batch[..j + 1] == batch[..j] + [batch[j]];
    }
    assert batch[..|batch|] == batch;
    s := Statement(values, args);
  }

  /** The rows that statement k of a chunk loop carries. */
  function ChunkAt<T>(rows: seq<T>, size: nat, k: nat): seq<T>
    requires size > 0
  {
    if k * size >= |rows| then [] else rows[k * size..Min((k + 1) * size, |rows|)]
  }

  function ChunkList<T>(rows: seq<T>, size: nat, n: nat): seq<seq<T>>
    requires size > 0
  {
    seq(n, k requires 0 <= k < n => ChunkAt(rows, size, k))
  }

  /** The statements carry the first chunks of rows, one chunk each, none of them empty. */
  ghost predicate Cover<A>(stmts: seq<Statement<A>>, rows: seq<seq<A>>, w: nat, batchSize: nat)
    requires batchSize > 0
  {
    forall k :: 0 <= k < |stmts| ==>
      ChunkAt(rows, batchSize, k) != [] && Carries(stmts[k], ChunkAt(rows, batchSize, k), w)
  }

  /** The outer loop of every bulk method: `for i := 0; i < len(rows); i += batchSize`.
      The rows are covered once each, in order, and no statement is too long to send. */
  method BuildStatements<A>(rows: seq<seq<A>>, w: nat, batchSize: nat) returns (stmts: seq<Statement<A>>)
    requires Wide(rows, w) && batchSize > 0
    requires batchSize * w <= MAX_PARAMETERS
    ensures Cover(stmts, rows, w, batchSize)
    ensures Flatten(ChunkList(rows, batchSize, |stmts|)) == rows
    ensures |rows| <= |stmts| * batchSize < |rows| + batchSize
  {
    hide Cover, ChunkList, Flatten, Wide, Groups;
    NoChunks(rows, w, batchSize);
    stmts := [];
    var i := 0;
    ghost var sent := 0;
    while i < |rows|
      invariant sent == |stmts| * batchSize && sent < |rows| + batchSize
      invariant 0 <= i && i == Min(sent, |rows|)
      invariant Flatten(ChunkList(rows, batchSize, |stmts|)) == rows[..i]
      invariant Cover(stmts, rows, w, batchSize)
      decreases |rows| - i
    {
      var end := i + batchSize;
      if end > |rows| { end := |rows|; }
      var batch := rows[i..end];
      SliceIsWide(rows, w, i, end);
      var s := BuildStatement(batch, w);
      NextChunk(stmts, rows, w, batchSize, s);
      assert rows[..i] + batch == rows[..end];
      stmts, sent := stmts + [s], sent + batchSize;
      i := end;
    }
    assert rows[..i] == rows;
  }

  lemma SliceIsWide<A>(rows: seq<seq<A>>, w: nat, i: nat, end: nat)
    requires Wide(rows, w) && i <= end <= |rows|
    ensures Wide(rows[i..end], w)
  {}

  lemma NoChunks<A>(rows: seq<seq<A>>, w: nat, batchSize: nat)
    requires batchSize > 0
    ensures Cover([], rows, w, batchSize) && Flatten(ChunkList(rows, batchSize, 0)) == []
  {}

  lemma NextChunk<A>(stmts: seq<Statement<A>>, rows: seq<seq<A>>, w: nat, batchSize: nat, s: Statement<A>)
    requires Wide(rows, w) && batchSize > 0 && batchSize * w <= MAX_PARAMETERS
    requires |stmts| * batchSize < |rows|
    requires Cover(stmts, rows, w, batchSize)
    requires var batch := rows[|stmts| * batchSize..Min(|stmts| * batchSize + batchSize, |rows|)];
             s == Statement(Groups(|batch|, w), Flatten(batch))
    ensures Cover(stmts + [s], rows, w, batchSize)
    ensures (|stmts| + 1) * batchSize == |stmts| * batchSize + batchSize
    ensures Flatten(ChunkList(rows, batchSize, |stmts| + 1))
         == Flatten(ChunkList(rows, batchSize, |stmts|)) + rows[|stmts| * batchSize..Min(|stmts| * batchSize + batchSize, |rows|)]
  {
    hide Cover, Carries, Flatten, Groups;
    var k := |stmts|;
    assert (k + 1) * batchSize == k * batchSize + batchSize;
    var batch := ChunkAt(rows, batchSize, k);
    SliceIsWide(rows, w, k * batchSize, Min(k * batchSize + batchSize, |rows|));
    MulMonotone(|batch|, batchSize, w);
    BindingRoundTrip(batch, w);
    CoverMore(stmts, rows, w, batchSize, s);
    NextChunkList(rows, batchSize, k);
  }

  lemma CoverMore<A>(stmts: seq<Statement<A>>, rows: seq<seq<A>>, w: nat, batchSize: nat, s: Statement<A>)
    requires batchSize > 0 && Cover(stmts, rows, w, batchSize)
    requires ChunkAt(rows, batchSize, |stmts|) != [] && Carries(s, ChunkAt(rows, batchSize, |stmts|), w)
    ensures Cover(stmts + [s], rows, w, batchSize)
  {
    hide Carries, ChunkAt;
  }

  lemma NextChunkList<T>(rows: seq<T>, size: nat, k: nat)
    requires size > 0
    ensures Flatten(ChunkList(rows, size, k + 1)) == Flatten(ChunkList(rows, size, k)) + ChunkAt(rows, size, k)
  {
    hide ChunkAt, Flatten;
    assert ChunkList(rows, size, k + 1) == ChunkList(rows, size, k) + [ChunkAt(rows, size, k)];
    FlattenAppend(ChunkList(rows, size, k), ChunkAt(rows, size, k));
  }

  lemma MulMonotone(a: nat, b: nat, w: nat)
    requires a <= b
    ensures a * w <= b * w
  {
    assert b * w == a * w + (b - a) * w;
  }

  // ----- the loops of the database

  const UPSERT_BATCH := 5000
  const MARK_BATCH := 1000
  const REFS_BATCH := 5000
  const OPTIMIZED_BATCH := 1000

  /** Every loop that stores rows with multi-row inserts: transactions, inputs and outputs in
      their own transaction, inside another one, and in bulk; unspent outputs; references. */
  datatype StoreLoop =
    | OwnTransactions | OwnInputs | OwnOutputs
    | InnerTransactions | InnerInputs | InnerOutputs
    | BulkTransactions | BulkInputs | BulkOutputs
    | BulkUtxos | OptimizedUtxos | BulkReferences

  function Width(l: StoreLoop): nat {
    match l
    case OwnTransactions | InnerTransactions | BulkTransactions => 10
    case OwnInputs | OwnOutputs | InnerInputs | InnerOutputs | BulkInputs | BulkOutputs => 7
    case BulkUtxos | OptimizedUtxos | BulkReferences => 9
  }

  function BatchSize(l: StoreLoop): nat {
    match l
    case OwnTransactions | InnerTransactions | InnerInputs | InnerOutputs => 6000
    case OwnInputs | OwnOutputs | BulkInputs | BulkOutputs => 8000
    case BulkTransactions => 5000
    case BulkUtxos => UPSERT_BATCH
    case OptimizedUtxos => OPTIMIZED_BATCH
    case BulkReferences => REFS_BATCH
  }

  /** What each loop sends: all its rows, once each and in order, in statements the protocol can
      carry, none of them empty. */
  method StoreRows<A>(l: StoreLoop, rows: seq<seq<A>>) returns (stmts: seq<Statement<A>>)
    requires Wide(rows, Width(l))
    ensures BatchSize(l) > 0 && Cover(stmts, rows, Width(l), BatchSize(l))
    ensures Flatten(ChunkList(rows, BatchSize(l), |stmts|)) == rows
    ensures forall k :: 0 <= k < |stmts| ==> 0 < |stmts[k].args| <= 65535
    ensures l.OwnTransactions? || l.InnerTransactions? || l.InnerInputs? || l.InnerOutputs? ==> |stmts| == (|rows| + 5999) / 6000
    ensures l.OwnInputs? || l.OwnOutputs? || l.BulkInputs? || l.BulkOutputs? ==> |stmts| == (|rows| + 7999) / 8000
    ensures l.BulkTransactions? || l.BulkUtxos? || l.BulkReferences? ==> |stmts| == (|rows| + 4999) / 5000
    ensures l.OptimizedUtxos? ==> |stmts| == (|rows| + 999) / 1000
  {
    stmts := BuildStatements(rows, Width(l), BatchSize(l));
    forall k | 0 <= k < |stmts| ensures 0 < |stmts[k].args| <= MAX_PARAMETERS {
      var chunk := ChunkAt(rows, BatchSize(l), k);
      assert Carries(stmts[k], chunk, Width(l));
      MulMonotone(1, |chunk|, Width(l));
    }
  }
}
