# A verified model of the Bitcoin indexer

The indexer follows a Bitcoin node and mirrors its chain in PostgreSQL: one row per transaction
output in `utxo`, a reference per payment to or from a watched script in `tx_reference`, and one
row of progress. This project models how blocks become rows (one block at a time, many blocks in
one transaction, or by a pool of concurrent workers) and proves how those rows relate to the true
ledger of the chain. It also covers the layers underneath: sorting, batching, retries, lock order,
the RPC client pool, the cache of watched scripts, the poller, balances, satoshi conversion and HD
wallet paths.

## How it is laid out

- `Prelude`, `Models`, `Decimal`, `Float64`, `Sums`: shared values, Go's `%d` verb, binary64 rounding, sums over sets.
- `Sorting`, `Statements`, `UtxoTable`, `ReferenceTable`, `Batching`, `Retry`: lock order, multi-row SQL and its placeholders, the meaning of the SQL on the table, chunk loops against row at a time, replays.
- `Database`, `Parser`, `References`: the database class and its methods, the parsing loops, when a block's references can be stored.
- `Commits`, `BlockParts`, `Ledger`, `BulkBlocks`, `Backfill`: the effect of a committed block, in one transaction or in three, the true ledger, and the three ways of indexing a range against it.
- `Workers`, `WorkerPool`: one RPC worker, one DB worker, and the pipeline of channels between them as a state machine over its steps.
- `Indexer`: the sequential poller with its reorg branch.
- `Locks`, `RpcPool`, `WatchedScripts`: further machines, over every interleaving.
- `Balance`, `Accounting`: what an address has, and what a block's references say about it.
- `HdWallet`: derivation paths.
- `Witnesses`: concrete chains, runs and polls on which conditions proved elsewhere fail.

PostgreSQL is plain state: a map from (txid, vout) to rows, a map of references, an optional
progress row, and the set of watched scripts. A transaction is one atomic step; a rollback changes
nothing. The outcome of every call to the database or to the node is a parameter, so each theorem
holds for whatever fails, including a commit that takes effect although an error is reported.
Block transactions that overlap in time are serialised at their commits. Along a valid chain they
write disjoint rows (`Backfill.OverlappingBlocksWriteApart`).

## What the proofs brought to light

- A block that spends its own outputs leaves them unspent in the index for good: inputs are looked up before the block's outputs exist. `Ledger.SequentialIndexIsExactIff` gives the exact condition, `Witnesses.SameBlockSpendIsMissed` a chain, and `Backfill.SameBlockIsNeverOrdered` shows that no worker schedule helps. Workers add misses of their own (`Backfill.BackfillIsExactIff`, `Witnesses.EarlyLookupIsMissed`).
- The bulk path misses, in the same way, every spend between blocks of one range (`BulkBlocks.BulkRefinesBlockByBlockIff`, `Witnesses.ForwardSpendIsMissed`), and stores an empty address where the parser derives an identifier (`BulkBlocks.CreatedAgreeIff`, `Witnesses.AddressColumnsDiffer`).
- Bulk mark-spent writes the spender of the first row of a chunk to the whole chunk, where a comment in the code expects them to agree (`Batching.BulkMarkMixesSpenders`, `Batching.BulkMarkEqualsRowAtATimeIff`, `Commits.SpendsComeByThousands`).
- A transaction that pays one watched address twice, or spends from it twice, makes its block impossible to commit in one transaction (`References.ValidBlockGoesThroughIff`, `Witnesses.PayingTwiceBlocksTheBlock`), although the path that writes references row by row would accept it (`BlockParts.BatchUpsertTransactionReferences`).
- The reorg branch compares the new block's hash with the previous block's, so it runs for almost every new height, and it moves progress to that height before the block is processed. A failure after that skips the height for good: `Indexer.SkipsIff` says exactly when, `Witnesses.PollThatSkips` gives a poll, `Indexer.SkippedForever` rules out a later commit, and `Indexer.NoSilentGap` shows that a returned error has named it.
- Backfill workers parse with a map of watched scripts that nothing fills, so they produce no references (`Backfill.NoReferences`).
- Truncation can lose one satoshi, never more (`Float64.SatoshiBound`, `Float64.SatoshiExactIff`, `Float64.OneSatoshiCanBeLost`).
- A hardened path index of 2^31 or more wraps around instead of failing (`HdWallet.HardenedWraps`, `HdWallet.LargeAccount`).

## Model

| member | source | states |
|---|---|---|
| `Ledger.SequentialIndexIsExactIff` | internal/parser/parser.go:148-258 | From an empty database, after any number of blocks of a valid chain each indexed on its own, the unspent rows are the true UTXO set plus the outputs created and spent inside one block; they are exactly the UTXO set if and only if no block spends an output of its own |
| `Ledger.SequentialRunTracksLedger` | internal/indexer/indexer.go:803-886 | The same from any database that is in step with the chain so far: unspent rows are the ledger plus a disjoint set of extra outputs, the rows present are all outputs ever created |
| `Ledger.SequentialRunKeepsOutputs` | internal/database/database.go:2101-2106 | Each output of each indexed block is stored under its txid and number with its address (the first non-empty of three candidates), script, satoshi value, and the height, hash and time of its block, each in its own column, and keeps them whatever happens later |
| `Ledger.SequentialRunRecordsSpends` | internal/parser/parser.go:225-232 | From the block that spends an output the index held unspent, and along any valid continuation: the row is spent, at the time of that block, by a transaction of that block, with all other columns as they were |
| `Witnesses.SameBlockSpendIsMissed` | internal/parser/parser.go:173-197 | A valid chain of one block that spends its own output, indexed: the output ends unspent in the table and spent in the ledger |
| `Commits.BlockEffect` | internal/indexer/indexer.go:838-886 | One committed block, for any lookup: which rows exist, which are unspent, and the progress row |
| `Commits.ParsedOps` | internal/parser/parser.go:179-255 | The created list of a block names exactly its outputs, the spent list exactly those of its inputs whose row was found |
| `Commits.OutsAre` | internal/parser/parser.go:186-188 | The outpoints a block creates are the txids of its transactions with the numbers of their outputs |
| `Commits.InsAre` | internal/parser/parser.go:220-222 | Those it spends are the ones its inputs name, except inputs with an empty txid or a negative output number |
| `Commits.ContentsAfter` | internal/database/database.go:2101-2106 | A commit stores each new output as parsed and leaves the output columns of every other row alone |
| `Commits.SpendIsRecorded` | internal/database/database.go:2136-2165 | A row that a block spends takes status, time and spender from a spend of that block and keeps every other column |
| `Commits.SpendsComeByThousands` | internal/database/database.go:2150-2160 | Which spend: that of the first entry of its thousand in lock order |
| `Backfill.EveryInterleaving` | internal/workers/db_worker.go:122-190 | At any moment of any interleaving of lookups and commits over a valid range: an output has a row iff it had one or its block committed, and is spent iff a committed block spends it and was looked up after the output was in the table |
| `Backfill.NothingUnspentIsLost` | internal/workers/rpc_worker.go:79-126 | An output that is unspent in the chain stays unspent in the table from the moment it is there |
| `Backfill.BackfillTracksLedger` | internal/workers/rpc_worker.go:79-126 | With every block committed, the unspent rows are the ledger, what was extra before, and the outputs whose spender did not see them, all disjoint |
| `Backfill.BackfillIsExactIff` | internal/parser/parser.go:153-255 | A backfill that committed every block ends at the ledger iff every block spending an output of the range was looked up after the commit of the block creating it |
| `Backfill.SameBlockIsNeverOrdered` | internal/parser/parser.go:173-197 | No order of events helps an output spent in the block that creates it |
| `Backfill.OverlappingBlocksWriteApart` | internal/workers/db_worker.go:122-190 | Two blocks that have both been looked up, neither being committed, write disjoint rows, so transactions that overlap in time never meet on a row |
| `Witnesses.EarlyLookupIsMissed` | internal/workers/rpc_worker.go:79-126 | A backfill of a valid chain of two blocks in which both commit and the spent output stays unspent, because the second was looked up too early |
| `Backfill.NoReferences` | internal/workers/rpc_worker.go:145-157 | With the empty map the workers use, a block yields no references at all |
| `WorkerPool.PipelineConserves` | internal/workers/worker_pool.go:110-161 | At every moment of every interleaving each height from start (at least 1) to end is in exactly one stage, is looked up and committed at most once, and is reported as a success only if committed; heights outside the range are the zeros of the closed channel and nothing else |
| `WorkerPool.DrainedPipeline` | internal/workers/worker_pool.go:133-174 | When nothing is in flight each height is in exactly one of: dropped with an error, result dropped, counted by ProcessBlocks, counted by processResults; with no failure counted, what ProcessBlocks counted was committed |
| `WorkerPool.ResultsAreCountedOnce` | internal/workers/worker_pool.go:180-213 | Every result sent is in the result channel or counted by exactly one of the two consumers |
| `WorkerPool.RunIsOrderly` | internal/workers/worker_pool.go:110-130 | No channel ever holds more than the queue size, no worker appears or disappears, and the height channel is closed, and zeros read from it, only after the last height was handed out |
| `WorkerPool.PoolRefinesBackfill` | internal/workers/db_worker.go:48-75 | Every run of the pool is a run of the parallel backfill, with each block looked up and committed at most once and in that order |
| `WorkerPool.PoolEndsAtLedgerIff` | internal/workers/worker_pool.go:110-177 | Once every height has committed, the pool's table is the ledger iff each spender was looked up after its outputs were committed |
| `Workers.RPCWorker.ProcessBlock` | internal/workers/rpc_worker.go:79-143 | One height: succeeds iff hash, block, lookup and queue succeed, and then yields the block parsed against the unspent rows of that moment; the worker's map of scripts stays empty |
| `Workers.DBWorker.ProcessWorkItem` | internal/workers/db_worker.go:82-190 | One work item: success iff the whole transaction goes through; the database is unchanged or holds the whole block |
| `Workers.CollectResults` | internal/workers/worker_pool.go:132-176 | The counters of the result loop and when it returns an error |
| `BulkBlocks.ProcessBlocksBulkData` | internal/indexer/indexer.go:587-742 | Two passes over a range and one transaction: the lookup covers every input of every block, what is committed is all blocks parsed against that one lookup, the result is that of the lookup or of the retries, and the transaction is applied once per attempt that took hold |
| `BulkBlocks.ExecuteBulkOperations` | internal/database/database.go:1746-1866 | Nothing to do succeeds at once; otherwise the result is that of up to six attempts, and the transaction is applied exactly once for every attempt that took hold, acknowledged or not; progress goes to the greatest height |
| `BulkBlocks.LatestBlock` | internal/database/database.go:2249-2263 | The progress row gets a block of greatest height, if that height is above zero |
| `BulkBlocks.BulkIsInOrder` | internal/indexer/indexer.go:700-710 | The rows and references of a bulk range are those of its blocks one after the other |
| `BulkBlocks.BulkUnspent` | internal/indexer/indexer.go:587-742 | For any range: the unspent rows become those before plus the outputs, less the inputs that were unspent rows before, even after repeated commits |
| `BulkBlocks.BulkUnspentIsMinusInputsPlusOutputs` | internal/indexer/indexer.go:587-742 | That is (U minus inputs) plus outputs exactly when no output of the range was already an unspent row and is an input of it |
| `BulkBlocks.BulkRefinesBlockByBlock` | internal/indexer/indexer.go:1762-1847 | When no block depends on an earlier one of the range, the bulk transaction leaves the same rows, with the same script, value, status, height, hash and first-seen time, as one block at a time |
| `BulkBlocks.BulkRefinesBlockByBlockIff` | internal/indexer/indexer.go:1762-1847 | When the outputs are new to the table, the two ways agree iff no block of the range spends an output of an earlier block of it |
| `BulkBlocks.CoreIs` | internal/indexer/indexer.go:1762-1847 | What agreeing means: the same rows, alike in script, value, status, height, hash and first-seen time |
| `BulkBlocks.NoInternalSpendIsIndependent` | internal/indexer/indexer.go:602-640 | A range none of whose inputs refers to one of its outputs meets the condition |
| `BulkBlocks.CreatedAgreeIff` | internal/indexer/indexer.go:1744-1753 | The bulk path creates the same rows as the parser if and only if every output has an address from the node or no identifier derived from its script |
| `BulkBlocks.SameButAddress` | internal/indexer/indexer.go:1744-1753 | The address is the only column in which they can differ |
| `Witnesses.AddressColumnsDiffer` | internal/parser/address_extractor.go:21-34 | An output for which the parser stores an identifier and the bulk path an empty address |
| `Witnesses.ForwardSpendIsMissed` | internal/indexer/indexer.go:620-630 | A range of two blocks on which bulk and block-by-block indexing end with different rows |
| `Batching.BulkUpsertEqualsRowAtATime` | internal/database/database.go:2053-2119 | Sorted, chunked, multi-row upsert equals row at a time in the original order on every column, for distinct keys, any batch size and any choice of the unstable sort; listed rows that existed take status, height and hash and keep the rest, listed rows that did not are stored unspent, and no other row changes |
| `Batching.BulkMarkEqualsRowAtATimeOnStatus` | internal/database/database.go:2122-2169 | For every list, repeats and absent rows included, bulk mark-spent gives every row the status (and all columns but the two of the spend) of row at a time |
| `Batching.BulkMarkEqualsRowAtATimeIff` | internal/database/database.go:2150-2160 | For distinct keys it also records the same spend time and spender iff every sorted chunk has one spend |
| `Batching.BulkMarkMixesSpenders` | internal/database/database.go:2152-2156 | A block with two spending transactions in which the second row is given the first one's spender |
| `Batching.UpsertChunksSucceeds` | internal/database/database.go:2101-2106 | A sorted bulk upsert goes through iff no chunk repeats a key |
| `Batching.InsertableIs` | internal/database/database.go:2063-2075 | With statements of 5000 rows: no sort of the list puts one key twice into one statement |
| `Batching.UpsertAllPermutes` | internal/database/database.go:1175-1215 | For distinct keys the order of an upsert list does not matter |
| `Sorting.SortUtxosByTxidVout` | internal/database/database.go:1165-1172 | In place: a permutation of the array in which any earlier row stands before any later one, by txid as text (the first differing character, or a prefix) and within one txid by ascending output number |
| `Sorting.SortedIs` | internal/database/database.go:1166-1171 | The same order characterises every list that counts as sorted |
| `Sorting.SortsAgreeOnKeys` | internal/database/database.go:1165-1172 | All results the unstable sort may give list the same keys in the same order |
| `Sorting.LessTotal` | internal/database/database.go:1166-1171 | The comparison orders any two distinct outpoints |
| `Statements.BuildStatements` | internal/database/database.go:1275-1433 | The chunk loop for any width, batch size and list: rows covered once each, in order, no statement too long |
| `Statements.BindingRoundTrip` | internal/database/database.go:2085-2099 | In every statement the placeholder of field c of row j is bound to field c of row j, and the placeholders are $1 to $n in order |
| `Statements.PlaceholdersAreDense` | internal/database/database.go:1880-1912 | Placeholders (j*w+c), read left to right, are exactly 1..n*w |
| `Statements.StoreRows` | internal/database/database.go:1275-1433 | Each of the twelve loops that store rows, with its own width and batch size: all rows once each and in order, in as few statements as its batch size of 6000, 8000, 5000 or 1000 rows allows, none of them empty or over 65535 parameters |
| `UtxoTable.ExecUpsertMeaning` | internal/database/database.go:2076-2113 | What the server makes of the built upsert: an error exactly on a repeated key, else the rows one at a time |
| `UtxoTable.ExecMarkMeaning` | internal/database/database.go:2136-2165 | What it makes of the built mark-spent statement: the last two parameters reach the two spend columns of every listed row that exists |
| `ReferenceTable.ExecRefsMeaning` | internal/database/database.go:2204-2241 | What the server makes of the built upsert of references: an error exactly on a repeated key, else the references one at a time |
| `Database.BulkUpsertUTXOsInTx` | internal/database/database.go:2053-2119 | The loop as coded: succeeds iff no statement fails and no chunk repeats a key, and then equals upserting the sorted list; otherwise reports the first thing that went wrong |
| `Database.BulkMarkUTXOsSpentInTx` | internal/database/database.go:2122-2169 | The loop as coded, chunk by chunk, or the first statement that failed |
| `Database.BulkUpsertTxReferencesInTx` | internal/database/database.go:2192-2246 | The loop as coded, statement by statement: succeeds iff no statement fails and no chunk of the unsorted list repeats a key; otherwise reports the first thing that went wrong |
| `Database.DB.CommitBlock` | internal/indexer/indexer.go:838-886 | Rows, spends, references and progress together or nothing: what it reports, and exactly when it takes hold, which an unacknowledged commit may |
| `Database.CommitResultSucceedsIff` | internal/indexer/indexer.go:838-886 | What the transaction reports is success exactly when no call fails and no statement repeats a key |
| `Database.RepeatedKeyIsFinal` | internal/database/database.go:19-35 | A block that only a repeated key stops fails with an error that is not retried |
| `Database.DB.BatchUpsertUTXOs` | internal/database/database.go:1175-1215 | Single-row upserts in lock order with up to six attempts: the result of the retries; the table holds the sorted list applied once if some attempt made got to its commit and the commit took effect, and is unchanged otherwise |
| `Database.DB.BatchMarkUTXOsSpent` | internal/database/database.go:1218-1254 | The same for marking rows spent |
| `Database.DB.BatchUpsertUTXOsOptimized` | internal/database/database.go:1659-1682 | Nested retries: the result of up to four passes over the chunks, each chunk with its own six attempts; on success the table equals one clean pass over the list and no 1000-row chunk repeats a key; in any case rows outside the list are untouched |
| `Database.PassSucceedsIff` | internal/database/database.go:1665-1680 | A pass succeeds iff no chunk of a thousand repeats a key and the attempts at every chunk end in success |
| `Database.DB.BatchUpsertUTXOsBatch` | internal/database/database.go:1685-1743 | One chunk of any size, up to six attempts at one multi-row statement: exactly what the retries report and whether the chunk is applied; an empty, oversized (over 65535 parameters) or repeating chunk is an error that is not retried and changes nothing |
| `Database.DB.BatchGetUTXOs` | internal/database/database.go:577-638 | For every requested reference an entry iff its row is there with status mempool or confirmed, and then that row; no other entry |
| `Database.DB.GetIndexProgress` | internal/database/database.go:750-772 | No row yet reads as height 0 |
| `Database.DB.UpdateIndexProgress` | internal/database/database.go:718-731 | Rewrites the progress row; may take effect although it reports an error |
| `Database.DB.AddWatchedScript` | internal/database/database.go:441-457 | Scripts are only added, and an existing one is kept |
| `Retry.RetrySucceedsIff` | internal/database/database.go:38-77 | Success iff some attempt within the limit succeeds and all earlier ones failed retryably |
| `Retry.RetryStopsAt` | internal/database/database.go:38-77 | The result is that of the first attempt that succeeds, fails for good or is the last allowed, and no attempt follows it |
| `Retry.AttemptIs` | internal/database/database.go:1185-1213 | What one attempt reports and whether it changes the table, call by call: begin, statements, commit |
| `Retry.UpsertAllIdempotent` | internal/database/database.go:2101-2106 | Upserting a list twice is upserting it once, repeated keys included |
| `Retry.MarkAllIdempotent` | internal/database/database.go:1218-1254 | Marking a list twice is marking it once |
| `Retry.FullPass` | internal/database/database.go:1659-1682 | A full pass after any replays leaves what one clean pass leaves |
| `Retry.WriteChunk` | internal/database/database.go:1668-1679 | Writing the next chunk, for the first time or again, advances the pass |
| `Parser.ParseBlockWithCache` | internal/parser/parser.go:148-258 | Succeeds iff the lookup does; against the rows unspent at the time of the lookup the three lists hold, column by column, a row for each output, an entry for each input whose row was found, a reference for each payment to and from a watched script, and nothing else |
| `Parser.ParseBlock` | internal/parser/parser.go:25-145 | The same lists as ParseBlockWithCache with the watched table as the map; succeeds iff the lookup does and every watched-script query is answered |
| `Parser.CollectRefs` | internal/parser/parser.go:153-170 | The lookup list: each outpoint the block spends once and no other, each with its recorded index |
| `Parser.ParseTransactions` | internal/parser/parser.go:179-255 | The loop over transactions computes those lists, and fails iff one of its watched-script queries does |
| `Parser.ParseDescribes` | internal/parser/parser.go:179-255 | The columns: txid, number, address, script, value, height, hash and time of each output; time and spender of each spend; direction, value, first known sender, first receiver, height and timestamp of each reference |
| `Parser.AddressOfIs` | internal/parser/address_extractor.go:20-33 | The address is the first that is not empty of the address, the first listed address and the derived identifier |
| `Models.KeyInjective` | internal/parser/parser.go:160 | Distinct outpoints have distinct "txid:vout" keys, whatever the txid holds |
| `Float64.SatoshiBound` | internal/parser/parser.go:191 | For every amount up to 21 million BTC the stored value is the exact number of satoshi or one less |
| `Float64.SatoshiExactIff` | internal/parser/parser.go:191 | The stored value is exact iff the product before rounding falls short by less than half a unit in its last place, or by exactly half with an even number of units |
| `Float64.OneSatoshiCanBeLost` | internal/parser/parser.go:191 | 0.29 BTC is stored as 28999999 |
| `Float64.ToSatsIsOdd` | internal/parser/parser.go:191 | Truncation is toward zero on both sides |
| `Float64.RoundIsNearest` | internal/bitcoin/rpc.go:136-137 | The rounding used gives a binary64 value, below overflow, and no binary64 value is nearer (section 4.3.1 of IEEE 754-2019) |
| `Float64.Extremes` | internal/bitcoin/rpc.go:136-137 | The numbers it rounds to range from 2^-1074 to (2^53 - 1) * 2^971 |
| `BlockParts.ProcessUTXOs` | internal/parser/parser.go:365-388 | Upsert, mark, references, each its own retried transaction: success iff all three succeed; when one fails the later ones are not begun, and its own change is there iff one of its attempts took effect |
| `BlockParts.PartsMatchOneTransaction` | internal/parser/parser.go:365-388 | The three transactions leave what the one transaction of the other paths leaves, on every column but the two of the spend |
| `BlockParts.PartsUnspent` | internal/parser/parser.go:365-388 | In particular the same outputs are unspent |
| `BlockParts.BatchUpsertTransactionReferences` | internal/database/database.go:1591-1631 | Row at a time with up to four attempts: repeated keys are no error here, and on success the list is applied once |
| `References.BlockGoesThroughIff` | internal/database/database.go:2192-2246 | Any block goes through iff begin, transactions, progress and commit succeed, each statement of 5000 outputs, 1000 spends or 5000 references does, no sorted statement of outputs repeats a key, and no two references of one statement agree in txid, address and direction; it takes hold iff the same is true but for a commit that may go unacknowledged |
| `References.ValidBlockGoesThroughIff` | internal/database/database.go:2192-2246 | Along a valid chain its outputs never stand in the way; the references do not if no transaction pays or spends one watched address twice, and when they fit one statement only then |
| `References.ChunksDistinctIff` | internal/database/database.go:2199-2228 | Chunk by chunk means: keys distinct for any two positions in one statement |
| `References.BlockReferences` | internal/parser/parser.go:205-250 | A block's references repeat a (txid, address, direction) iff some transaction pays or spends one watched address twice |
| `References.RefsAreInOrder` | internal/parser/parser.go:179-255 | References come transaction by transaction, and within one what is paid before what is taken |
| `References.DistinctInChunks` | internal/database/database.go:2199-2228 | References without repeats pass every chunk; up to one chunk the converse holds |
| `Witnesses.PayingTwiceBlocksTheBlock` | internal/database/database.go:2230-2237 | A block with one transaction paying a watched address twice never goes through, whatever the faults |
| `Accounting.ReferencesAccountForBalance` | internal/parser/parser.go:202-250 | For any block with new outputs and distinct inputs, incoming less outgoing references equal the change in unspent value on the watched scripts |
| `Accounting.ValidBlockAccounts` | internal/parser/parser.go:148-258 | So for every block of a valid chain, same-block spends included |
| `Balance.GetBalance` | internal/database/database.go:681-713 | Error iff there is no progress row or a query fails; for any table, confirmed is the value of the address's confirmed rows with enough confirmations at the tip, and pending that of its mempool rows and shallower confirmed ones; together they are all it has unspent once confirmed rows have heights |
| `Balance.PartsAreComplete` | internal/parser/parser.go:462-474 | The two parts are disjoint and cover all unspent rows of the address, for every tip and number of confirmations, and the confirmed one is what IsConfirmed accepts |
| `Balance.RunKeepsHeights` | internal/database/database.go:2078-2106 | In every state reachable by upserts, marking and deletion by block, a confirmed row has a height |
| `Balance.DeletingUndoesStoring` | internal/database/database.go:776-783 | Deletion by block hash takes back exactly the rows a block stored, if its outputs were new and no other row names the block |
| `Indexer.RunPoller` | internal/indexer/indexer.go:458-476 | Any number of polls with any failures: progress never goes down; each logged commit is a block the node answered for its height, parsed with the scripts the poll got for the first of its ten heights, committed together with that height; no height is committed twice; every height up to the last is committed or named in a returned error |
| `Indexer.Indexer.BlockPoller` | internal/indexer/indexer.go:458-476 | Every poll is one poll step, one after the other, going on after errors, up to the first that is handed over |
| `Indexer.Indexer.ProcessBlocks` | internal/indexer/indexer.go:500-536 | Exactly one poll step: heights in order up to the tip or the first failure, which is named; an unnamed failure is a failed query or watched scripts missing at every tenth height; it hands the gap over iff it is more than 1000 and there are several workers |
| `Indexer.Indexer.ProcessBlockChunk` | internal/indexer/indexer.go:539-556 | Continues the poll by its heights, up to the first block that fails and is named |
| `Indexer.Indexer.ProcessBlockWithCache` | internal/indexer/indexer.go:750-886 | Exactly what one height does under given conditions: when it succeeds, when the block is committed, and where progress stands otherwise |
| `Indexer.Indexer.CheckReorg` | internal/indexer/indexer.go:1605-1646 | When the check passes; it changes progress iff all hold: not in a backfill, a last height that is not 0, the very next height, a hash that differs from the last one, all reads answered, and the update taking effect; and then it sets the height with an empty hash |
| `Indexer.Indexer.HandleReorg` | internal/indexer/indexer.go:1649-1684 | The walk back is bounded by the configured depth (10 if not positive) and by height 0 and ends exactly there; when it succeeds and when progress moves |
| `Indexer.Indexer.RollbackUTXOs` | internal/indexer/indexer.go:1687-1707 | Rewrites the progress row to the given height exactly when its update takes effect, and deletes no rows |
| `Indexer.NoSilentGap` | internal/indexer/indexer.go:500-556 | In every run of polls: progress never goes down; each commit is of the node's block for its height, with that height and that chunk's scripts, in between the first and the last, and no height has two; every height up to the last is committed or named by an outcome |
| `Indexer.SkipsIff` | internal/indexer/indexer.go:1605-1707 | Progress stands at the next height with its block not committed iff, guard by guard, the reorg branch ran and its update took effect, and the block's transaction did not take hold |
| `Indexer.ReorgMovesIff` | internal/indexer/indexer.go:1605-1707 | The guards of the reorg branch and of its walk and rollback, written out |
| `Indexer.HeightSucceedsIff` | internal/indexer/indexer.go:750-886 | A height is committed, and reported as a success, iff the hash, the reorg check, the block, the lookup and the transaction go well, each condition written out |
| `Indexer.SkippedForever` | internal/indexer/indexer.go:500-536 | A height passed without a commit is committed by no later poll |
| `Witnesses.PollThatSkips` | internal/indexer/indexer.go:1635-1702 | One poll at height 1 whose node fails to deliver block 2 ends, and can only end, with progress at 2, nothing committed and height 2 named |
| `Indexer.NoErrorNoGap` | internal/indexer/indexer.go:500-556 | With no error naming a height, exactly the heights since the start were committed, in order, each with the progress row of its commit |
| `Indexer.CommittedBlocksTrackLedger` | internal/indexer/indexer.go:838-886 | The poller's table tracks the ledger of the blocks it committed |
| `Locks.SomeoneCanGoOn` | internal/database/database.go:1175-1254 | Deadlock freedom: in every reachable state some transaction can take its next lock or commit iff some transaction has not finished |
| `Locks.NoCyclicWait` | internal/database/database.go:1165-1173 | No cycle of waits of any length is reachable |
| `Locks.LocksAreExclusive` | internal/database/database.go:1175-1254 | In every reachable state no row has two holders, an upserting transaction holds every row its statements have reached until it rolls back or commits, which it does only after reaching all, and a finished one holds nothing |
| `Locks.EndOfWaits` | internal/database/database.go:1175-1254 | Every unfinished transaction waits, through a chain of holders, only for one that can go on |
| `Locks.RunsAreBounded` | internal/database/database.go:1175-1254 | No run, retries included, is longer than the work it starts with, and when nothing can happen all have finished |
| `HdWallet.DeriveKeyFromPath` | internal/wallet/hd.go:156-219 | The split and the fold as coded compute the meaning of the path; one that does not begin with "m/" is an error |
| `HdWallet.PathRoundTrip` | internal/wallet/hd.go:57-153 | Deriving along a printed path derives exactly the listed numbers (section "Child key derivation (CKD) functions" of BIP 32), for every list of levels whose numbers fit 32 bits |
| `HdWallet.DerivePrinted` | internal/wallet/hd.go:189-216 | Deriving along any printed path, whatever the indices, derives what each level is read as |
| `HdWallet.LevelRoundTripIff` | internal/wallet/hd.go:189-207 | A level is read back as its number iff that number fits 32 bits |
| `Decimal.ScanIs` | internal/wallet/hd.go:198-202 | For any text: leading blanks are skipped, the number is what the following digits stand for, what comes after them is ignored, and no digits or more than 32 bits are an error |
| `HdWallet.DeriveComposes` | internal/wallet/hd.go:169-184 | For all strings, a concatenated path derives the composition of the two derivations |
| `HdWallet.ComponentsConcat` | internal/wallet/hd.go:169-184 | Splitting distributes over a slash |
| `HdWallet.HardenedWraps` | internal/wallet/hd.go:204-207 | A hardened index of 2^31 is silently read as index 0, unhardened |
| `HdWallet.DeriveAddresses` | internal/wallet/hd.go:33-54 | For every account and gap limit: bip84, bip49 and bip44 stand for purposes 84, 49 and 44 with p2wpkh, p2sh-p2wpkh and p2pkh addresses, any other scheme is an error; exactly the addresses the printed paths are read to, receive then change, or an error if one of them is; for accounts below 2^31 and gap limits up to 2^32 those of BIP 44 (section "Path levels") |
| `HdWallet.LargeAccount` | internal/wallet/hd.go:189-207 | An account from 2^31 on is read as an unhardened level 2^31 less; from 2^32 on, like an index from 2^32 on, it is an error |
| `HdWallet.ReadAddressIsBip44` | internal/wallet/hd.go:57-153 | Below those limits what is read is the BIP 44 path, number by number |
| `HdWallet.DeriveAddressList` | internal/wallet/hd.go:57-153 | Receive addresses for the indices below the gap limit, then change addresses; all or an error |
| `RpcPool.PoolIsSafe` | internal/bitcoin/rpc_pool.go:34-90 | Every interleaving of acquires, timeouts and returns: no client has two holders, idle plus outstanding never falls below the pool size, idle never exceeds it, idle equals it when nothing is outstanding |
| `RpcPool.RPCPool.constructor` | internal/bitcoin/rpc_pool.go:34-59 | A size that is not positive becomes 5; the pool starts full |
| `RpcPool.RPCPool.GetClient` | internal/bitcoin/rpc_pool.go:62-80 | Takes the client that has been idle longest, or makes one on timeout; nobody else holds it |
| `RpcPool.RPCPool.ReturnClient` | internal/bitcoin/rpc_pool.go:83-90 | Puts a client back behind the idle ones, or drops it when the pool is full |
| `RpcPool.RPCPool.Call` | internal/bitcoin/rpc_pool.go:93-119 | One call with one retry; the client is given back on every path |
| `WatchedScripts.ReadIsRecent` | internal/indexer/indexer.go:415-447 | Under any interleaving of readers, refreshes, inserts and invalidations, the returned map is the table of some moment less than 5 * 60 * 10^9 nanoseconds earlier, and is empty only if the table is |
| `WatchedScripts.HitsAreCorrect` | internal/indexer/indexer.go:415-447 | Every hit is correct and every script at least five minutes old is found |
| `WatchedScripts.CacheLasts` | internal/indexer/indexer.go:416-447 | A loaded cache answers every read of the next five minutes until it is invalidated |
| `WatchedScripts.InvalidatedReloads` | internal/indexer/indexer.go:449-455 | After an invalidation nothing is answered from the cache until it is reloaded, and a reload gives the table as it is then |
| `WatchedScripts.ScriptCache.Refresh` | internal/indexer/indexer.go:426-448 | The second look and the reload under the write lock |
| `WatchedScripts.ScriptCache.ReadCached` | internal/indexer/indexer.go:416-424 | The first look under the read lock |
| `WatchedScripts.ScriptCache.InvalidateCache` | internal/indexer/indexer.go:451-455 | Sets the expiry one hour back |
| `WatchedScripts.AddScript` | internal/database/database.go:441-457 | Adding a script, by any process, is the insert of the cache's model |

## Left out

- References.ValidBlockGoesThroughIff: past one statement of 5000 references the condition on transactions is only sufficient, since two repeats may fall into different statements and pass; the exact condition on the references is there for every block.
- Database.DB.BatchUpsertUTXOsOptimized: when it fails, only what any number of replays can leave is stated, since which chunks took effect depends on the fates of the commits.
- Backfill.EveryInterleaving: speaks of presence and status; the two spend columns under mixed chunks are the subject of `Batching`, and the columns of an output are those `Commits.ContentsAfter` gives.
- Parser.ParseBlock: creation times of references are not modelled, so "the same lists" means up to that column.
- WorkerPool.PipelineConserves: safety before `Stop`; the code does not guarantee that `ProcessBlocks` ends, because the result channel closes only in `Stop`.
- Locks.SomeoneCanGoOn: the single-phase batch methods on rows of `utxo` only; the single transaction of a block locks in two sorted phases and takes locks on other tables.
- WorkerPool.PoolEndsAtLedgerIff: the node serves one chain throughout a backfill; a reorg in the middle of one is not modelled.
- WatchedScripts.ScriptCache.Refresh: loading the table and stamping the expiry are one moment.
- The channels and goroutines of the worker pool are steps of a state machine on values, not objects; what a single worker does with one block is modelled as class methods.
- SQL text, prepared statements, connection pools, isolation levels and foreign keys: replaced by the meaning of the statements on the table.
- The transaction, input and output tables: only their placeholder arithmetic; their writes are one call of the block's transaction that may fail.
- Delays, back-off and jitter of the retries: no effect on the outcome.
- HTTP API, configuration, logging, metrics and the file of failed blocks: input and output.
- JSON-RPC transport: the node's answers are parameters. Decoding the node's decimal amounts is correctly rounded.
- The identifier derived from script bytes, script types and address encodings: opaque.
- BIP 32 and BIP 39 internals: child derivation and address encoding are parameters.
- Strings are sequences of characters, without invalid UTF-8; integers are unbounded except where a 32-bit index is scanned.
- Binary64 overflow to infinity: amounts of money are far below it.
- Undoing a reorg: the code restores no rows; only the effect on progress and the bounded walk are stated.
- `ProcessBlocksParallel` and its error totals, which are read while workers still write them.
- Polling the mempool, which the indexer disables; `mempool` remains as a row status for the balance.
- Worker statistics other than the counters shown: averages and times.
- The C# implementation in the repository: change tracking it relies on is not part of this model.
