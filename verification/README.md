# Transaction streams and provable waits, modelled in Dafny

This project models the parts of DAPI that turn unordered network events into ordered streams and
single outcomes, and proves what they promise over every run.

- **Filter test** (`BloomFilters`, `FilterVerdict`, `Bip37`): the short-circuiting, filter-updating
  transaction test, its verdict and its update on the data of a transaction, and its relation to a
  matcher that examines every output.
- **Cache** (`CacheValues`, `Cache`): the per-client cache of transactions, blocks and merkle blocks,
  with its eviction, its removal loops and its ten-block waiting list for instant locks.
- **Session** (`SessionValues`, `Session`): one client's subscription. Each listener call, and each
  turn of the drain loop up to its wait, is one atomic step.
- **What every run keeps** (`Counting`, `SessionInvariants`, `SessionTheorems`): conservation of
  transactions, merkle blocks and locks, the waiting window, the phases.
- **The cached arrays** (`Alignment`, `ProofBacking`, `Deduplication`): when blocks and merkle blocks
  stand side by side, what a cached merkle block still finds in the cache, and how often an item can
  be sent, before and after its block was sent as history.
- **Transactions before proofs** (`ProofOrder`, `BlockConflicts`, `ProofOrderExact`): which states of
  a session can still send a proof early, and exactly which arriving blocks lead there.
- **What each event does** (`Arrivals`, `BlockStorage`, `Retrieval`, `LockDelivery`): in every run, said
  of the data an event brings and of what the session holds: what is cached, proved, collected,
  forwarded, sent and forgotten. `Selections` says what it is to choose elements in their order.
- **Sessions together** (`CollectionValues`, `Collection`): broadcasts and session isolation.
- **History** (`History`): the request, clamping, batching and the historical iterator.
- **The client's wire** (`ClientStream`, `StreamHandler`): the handler's phases interleaved with
  network events, from the first historical pair to the live suffix.
- **What is written** (`WireDelivery`): history, the mempool, locks, turns of the loop, a cancellation.
- **The order on the wire** (`StreamOrder`, `StreamBlocks`, `Redelivery`): the same question over the
  handler's own runs, what was written as history included, and a run that breaks it.
- **Provable waits** (`Heights`, `ProvableValues`, `Provable`): height waiters, and the race of
  listener, query, next block and timer.
- **WebSocket client** (`WsValues`, `Subscriptions`, `WebSocketClient`): what stays subscribed, and
  what a failing connection comes to.

Objects the source updates in place are classes; each of their methods is proved equal to an
operation on values, and the laws are proved about those operations, down to the data: no such law
about the filter's verdict, a stored block, a lock, a request or a failed query rests on the
operation's own helpers. `Common` holds options, bytes and the array-removal idiom.

Terms and assumptions. A hash is the buffer its hex string denotes. A Bloom filter is the set of bit
positions that are set in a filter with non-empty data, with an uninterpreted index function; its
flags are the source's numbers.
`block.hash` is the header's hash. A merkle block records its header hash, the block's transaction
hashes and the flags it was built with. An output whose script could not be parsed has no script.
Every event of a session carries its data by value. Where two delivered blocks are compared, a block
hash commits to the block's transactions (`Coherent`). Core answers truthfully and its chain does not
change during one scan; the filter may grow between batches. The history multiset of the cache
(`Note`) is bookkeeping for the conservation laws and influences nothing.

Where the code and its comments part, the model follows the code:

- An output without a script is skipped by `filterContainsScript`, but the next statement reads the
  script's type and throws. `Bip37.ThrowsExactly` says when; `CollectionValues.DeliverAt` says what
  it does to a broadcast.
- `maxRetries || -1` makes a bound of 0 unlimited (`WsValues.ZeroIsUnbounded`).
- A missing execution code is success to the listener and failure to the query
  (`ProvableValues.SourcesAgreeExactly`), and either of them can win
  (`ProvableValues.RouteMattersExactly`).
- `close` detaches the listeners of a connected socket only, so a socket given up while connecting can
  still mark the client connected or schedule a reopen (`WsValues.StaysClosedExactly`).

Laws that one might expect without a condition, and the exact condition under which they hold:

- Stopping at the first matching output gives the full scan's filter if and only if the outputs not
  examined add nothing (`Bip37.FiltersAgreeExactly`; `Bip37.StoppingEarlyCanMiss` has a missed spend).
- The cached arrays stay aligned by header hash if and only if no hash is added while still cached
  (`Alignment.AlignedExactly`; `Redelivery.TwiceMisaligns` has a block delivered twice).
- No proof precedes a transaction it proves. A merkle block that is still to be sent owes the client
  the transactions it proves that the client has neither from history nor from the session.
  - On the wire, over every run of the handler: all its streams are safe, that is, once the headers in
    the remaining history have been handled as sent, what is owed is still cached, if and only if
    neither the run nor a prefix of it can go on, without further blocks, to a wire out of order
    (`StreamOrder.WireOrderedExactly`; for one stream `StreamOrder.SafeStreamExactly`).
    `Redelivery.TwiceIsOutOfOrder` is a run that ends out of order.
  - An arriving block, with all history written, whether handed over or not: it keeps that if and only
    if storing it does not evict an owed transaction from under a merkle block that stays
    (`StreamBlocks.LateBlockExactly`).
  - An arriving block, while history is written, judged before the rest of history is known: it keeps
    that, whatever the rest turns out to be, if and only if it has no conflict over a cached
    transaction that has not been written (`StreamBlocks.CollectingBlockExactly`). A conflict is to
    share such a transaction with a cached block of another hash, or to repeat the hash of a merkle
    block that owes one; sharing is harmless if the block repeats the oldest hash of a full cache,
    because it is then evicted again at once.
  - The same for a session by itself, among the mediator's events in their phases
    (`ProofOrder.OrderedExactly`, `ProofOrderExact.AdmissibleExactly`).
- A broadcast reaches every session, whoever else is subscribed, if and only if its transactions have
  all their output scripts (`CollectionValues.ParsedExactly`).
- A closed WebSocket client stays closed if and only if no reopen is pending and no socket given up
  while connecting can still ask for one (`WsValues.StaysClosedExactly`; `WsValues.ReopensAfterClose`
  has a closed client that reopens).

## Model

| member | source | states |
|---|---|---|
| BloomFilters.OutpointInjective | lib/transactionsFilter/testTransactionAgainstFilter.js:8-15 | two outpoints have the same encoding only if hash and 32-bit index agree |
| BloomFilters.FilterContainsScript | lib/transactionsFilter/testTransactionAgainstFilter.js:22-36 | the search finds exactly whether some pushed datum (opcode not 0) is in the filter; an absent script has none |
| BloomFilters.CheckOutputs | lib/transactionsFilter/testTransactionAgainstFilter.js:43-67 | stops at the first output that hits or has no script, inserting that output's outpoint alone and only if the flags ask for it |
| BloomFilters.CheckInputs | lib/transactionsFilter/testTransactionAgainstFilter.js:74-89 | true exactly if some input spends an outpoint in the filter or carries matching data |
| BloomFilters.TestTransactionAgainstFilter | lib/transactionsFilter/testTransactionAgainstFilter.js:110-114 | verdict and updated filter are those of hash test, then outputs, then inputs |
| FilterVerdict.VerdictExactly | lib/transactionsFilter/testTransactionAgainstFilter.js:22-114 | the three answers on the data: cut off by an output without script before anything hits, else a match if and only if the filter holds the hash, a datum pushed with a nonzero opcode at any position of an output or input script, or the outpoint of an input |
| FilterVerdict.UpdateExactly | lib/transactionsFilter/testTransactionAgainstFilter.js:48-64 | if the hash is not in the filter, the first output that is adds its outpoint, hash and four-byte index, for flag 1 always and for flag 2 if it pays to a public key or a multisig; any other flag adds nothing |
| FilterVerdict.NoUpdateOtherwise | lib/transactionsFilter/testTransactionAgainstFilter.js:43-67 | without such an output the filter stays as it is |
| FilterVerdict.MatchingIsFound | lib/transactionsFilter/testTransactionAgainstFilter.js:110-114 | over several transactions, whatever matches the filter they start from is found, although the filter grows |
| Bip37.SameVerdict | lib/transactionsFilter/testTransactionAgainstFilter.js:110-114 | from one filter the test, when it answers, gives the verdict of a full scan of all outputs |
| Bip37.ThrowsExactly | lib/transactionsFilter/testTransactionAgainstFilter.js:49-54 | the test throws exactly if an output without script is reached before the hash or an output hits, and then the filter is unchanged |
| Bip37.Simulates | lib/transactionsFilter/testTransactionAgainstFilter.js:43-67 | from a smaller filter the test matches no more than the full scan and leaves a filter within the full scan's |
| Bip37.SimulatesAll | lib/transactionsFilter/testTransactionAgainstFilter.js:110-114 | the same over every sequence of transactions, and for whatever transaction comes next |
| Bip37.FiltersAgreeExactly | lib/transactionsFilter/testTransactionAgainstFilter.js:48-64 | the two filters agree after an answer exactly if no output left unexamined would have inserted anything |
| Bip37.StoppingEarlyCanMiss | lib/transactionsFilter/testTransactionAgainstFilter.js:48-64 | a transaction with two matching outputs, and a spend of the second with another 32-byte hash, which the test misses and the full scan sees |
| Bip37.SpendChainCloses | lib/transactionsFilter/testTransactionAgainstFilter.js:58-60 | once the first matching output's outpoint is inserted, its spend is never rejected after any tests in between, and matched if its scripts are present |
| Cache.TransactionHashesCache.AddTransaction | lib/transactionsFilter/TransactionHashesCache.js:38-55 | appends only a hash not cached, registers only a hash not waiting, and says whether it appended |
| Cache.TransactionHashesCache.ProcessWaitingList | lib/transactionsFilter/TransactionHashesCache.js:66-76 | counts the block and removes exactly the hashes registered more than ten blocks ago, whatever the order of the walk |
| Cache.TransactionHashesCache.MatchBlock | lib/transactionsFilter/TransactionHashesCache.js:78-92 | flags exactly the block's transactions whose hash is cached |
| Cache.TransactionHashesCache.AddBlock | lib/transactionsFilter/TransactionHashesCache.js:64-132 | the whole new state: expiry, merkle block and block appended if something matched, oldest block evicted with its data past ten |
| Cache.TransactionHashesCache.RemoveTransactionsOf | lib/transactionsFilter/TransactionHashesCache.js:164-170 | the backward splice loop leaves exactly the entries the filter by block hashes keeps |
| Cache.TransactionHashesCache.RemoveMerkleBlockOf | lib/transactionsFilter/TransactionHashesCache.js:172-179 | the loop with break removes only the last merkle block of that header |
| Cache.TransactionHashesCache.RemoveCachedBlock | lib/transactionsFilter/TransactionHashesCache.js:181-188 | the loop with break removes only the last block of that hash |
| Cache.TransactionHashesCache.RemoveDataByBlock | lib/transactionsFilter/TransactionHashesCache.js:160-189 | the three removals together, and nothing else changed |
| Cache.TransactionHashesCache.RemoveDataByBlockHash | lib/transactionsFilter/TransactionHashesCache.js:145-151 | acts on the first cached block of the hash, and not at all if there is none |
| Cache.TransactionHashesCache.RemoveTransactionHashFromInstantSendLockWaitingList | lib/transactionsFilter/TransactionHashesCache.js:134-138 | the hash is no longer waiting and nothing else changed |
| Cache.TransactionHashesCache.GetUnretrievedTransactions | lib/transactionsFilter/TransactionHashesCache.js:205-216 | returns the unretrieved transactions in order and marks every entry retrieved |
| Cache.TransactionHashesCache.GetUnretrievedMerkleBlocks | lib/transactionsFilter/TransactionHashesCache.js:223-234 | returns the unretrieved merkle blocks in order and marks every entry retrieved |
| Cache.TransactionHashesCache.AddInstantLock | lib/transactionsFilter/TransactionHashesCache.js:240-242 | a lock of a known txid replaces the old one in its place, another is put last |
| Cache.TransactionHashesCache.GetUnretrievedInstantLocks | lib/transactionsFilter/TransactionHashesCache.js:248-254 | returns the collected locks in order and leaves none |
| Counting.KeepMembers | lib/transactionsFilter/TransactionHashesCache.js:164-170 | an entry survives the removal of a block, flag included, exactly if its hash is not in the block |
| Counting.KeepOrder | lib/transactionsFilter/TransactionHashesCache.js:164-170 | any two survivors stand in the order they stood in |
| Session.LiveSession.constructor | lib/transactionsFilter/subscribeToNewTransactions.js:21-56 | a new session is connected, collects locks, has an empty cache and has sent nothing |
| Session.LiveSession.TestTransaction | lib/bloomFilter/emitter/BloomFilterEmitter.js:21-29 | a test that matches caches the transaction; verdict, filter and cache are those of the value-level test |
| Session.LiveSession.OnNewBlock | lib/transactionsFilter/subscribeToNewTransactions.js:35-44 | with no cached block the block's transactions are tested first, up to one that throws; then the block is added |
| Session.LiveSession.OnNewInstantLock | lib/transactionsFilter/subscribeToNewTransactions.js:48-80 | the listeners attached at emission run in order; collecting tests and stores, forwarding sends and deregisters |
| Session.LiveSession.OnHistoricalBlockSent | lib/transactionsFilter/subscribeToNewTransactions.js:61-63 | a subscribed session drops the data of the block sent |
| Session.LiveSession.SendTransactions | lib/transactionsFilter/subscribeToNewTransactions.js:88-90 | appends to the stream exactly the unretrieved transactions, in order |
| Session.LiveSession.SendLocks | lib/transactionsFilter/subscribeToNewTransactions.js:92-97 | appends exactly the collected locks still waited for, in order, and leaves the waiting list alone |
| Session.LiveSession.SendProofs | lib/transactionsFilter/subscribeToNewTransactions.js:99-101 | appends exactly the unretrieved merkle blocks, in order |
| Session.LiveSession.OnMempoolDataSent | lib/transactionsFilter/subscribeToNewTransactions.js:66-105 | once only: swaps the lock listeners and makes the first turn of the loop in the same step |
| Session.LiveSession.OnLoopTurn | lib/transactionsFilter/subscribeToNewTransactions.js:85-104 | a woken loop drains if the client is connected and ends otherwise |
| Session.LiveSession.OnClientDisconnected | lib/transactionsFilter/subscribeToNewTransactions.js:110-117 | detaches every listener and stops hearing broadcasts (`StreamHandler.Handler.Cancel` takes it out of the collection) |
| Arrivals.TransactionArrives | lib/bloomFilter/emitter/BloomFilterEmitter.js:21-29 | in every run: a broadcast transaction that matches on its data is cached unless it is, and waited for from the present block count unless it already is; any other changes nothing; it throws exactly if cut off |
| Arrivals.TestsExactly | lib/transactionsFilter/subscribeToNewTransactions.js:37-40 | transactions tested in turn: cached and waited for are exactly those found, each by the filter as it is by then, behind what was cached; it throws exactly if one of them is cut off |
| BlockStorage.AddBlockStores | lib/transactionsFilter/TransactionHashesCache.js:64-132 | a block is counted, and stored if and only if it shares a transaction with the cache: one more merkle block of its hash, with an entry for each transaction in block order, flagged exactly if cached; with ten blocks cached the first gives way with its transactions and one block and merkle block of its hash |
| Arrivals.BlockArrives | lib/transactionsFilter/subscribeToNewTransactions.js:35-44 | the same for a block event of a subscribed session in every run; with no block cached its own matching transactions are found first, with one cached neither filter nor transactions change before |
| Arrivals.BlockIsProved | lib/transactionsFilter/subscribeToNewTransactions.js:35-44 | so, with room in the cache, a block of whose transactions the session has or finds one is stored last with a merkle block, still to be sent, that proves exactly those it has |
| Arrivals.HistoryArrives | lib/transactionsFilter/TransactionHashesCache.js:145-189 | a block sent as history takes out the transactions of the first block cached under its hash and the last block and merkle block of that hash, the rest in order; if none is cached nothing changes |
| Retrieval.TurnSendsAll | lib/transactionsFilter/subscribeToNewTransactions.js:66-104 | in every run, with the mempool event and with every turn after it, a connected client gets exactly what is cached and unsent: transactions, locks still waited for, merkle blocks, each in the order of the cache; all of it is marked sent |
| Retrieval.TurnEnds | lib/transactionsFilter/subscribeToNewTransactions.js:85-104 | once the client has disconnected a turn sends nothing and ends the loop |
| SessionTheorems.PhaseByEvents | lib/transactionsFilter/subscribeToNewTransactions.js:56-117 | a session is subscribed until the disconnection and collects until the mempool event |
| LockDelivery.LockIsForwarded | lib/transactionsFilter/subscribeToNewTransactions.js:71-80 | after the mempool event a lock is sent, and no longer waited for, if and only if it is waited for; nothing else changes |
| LockDelivery.RegisteredLockIsSent | lib/transactionsFilter/subscribeToNewTransactions.js:71-80 | end to end: a matching transaction not waited for arrives, at most ten blocks and no lock of it later its lock comes after the hand-over, and that lock is sent at once |
| LockDelivery.LockIsCollected | lib/transactionsFilter/subscribeToNewTransactions.js:48-56 | before the mempool event a lock is collected if and only if its transaction matches on its data, in the place of the first of its transaction or last |
| LockDelivery.CollectedLockIsSent | lib/transactionsFilter/subscribeToNewTransactions.js:92-97 | a collected lock that no other of its transaction replaces is sent with the mempool event if and only if it is waited for by then |
| LockDelivery.RegisteredLockIsCollected | lib/transactionsFilter/subscribeToNewTransactions.js:48-97 | end to end before the hand-over: registered, then collected, then the mempool event within ten blocks: the lock is sent |
| SessionInvariants.StepKeeps | lib/transactionsFilter/subscribeToNewTransactions.js:15-118 | every step keeps the balances of transactions, proofs and locks, the multiplicities, distinctness, the window and the phases |
| SessionTheorems.TransactionsConserved | lib/transactionsFilter/TransactionHashesCache.js:38-55 | in every run appends of a hash are deliveries, undelivered removals, or one pending entry; cached hashes are distinct |
| SessionTheorems.LocksConserved | lib/transactionsFilter/subscribeToNewTransactions.js:48-97 | in every run registrations are forwarded locks, expiries or one open entry; collected locks add at most one message per txid |
| SessionTheorems.BlocksNeverOutnumberProofs | lib/transactionsFilter/TransactionHashesCache.js:118-131 | in every run, re-deliveries included, a hash has no more cached blocks than merkle blocks, and at most ten blocks are cached |
| SessionTheorems.OneLockListener | lib/transactionsFilter/subscribeToNewTransactions.js:56-80 | in every run a subscribed session handles a lock by exactly one listener, the one of its phase; an unsubscribed one by none |
| SessionTheorems.NothingBeforeMempoolDataSent | lib/transactionsFilter/subscribeToNewTransactions.js:66-105 | no run without the mempool event sends anything |
| SessionTheorems.DisconnectIsFinal | lib/transactionsFilter/subscribeToNewTransactions.js:110-117 | after a disconnection nothing is sent and cache and filter never change, whatever arrives |
| SessionTheorems.WaitsTenBlocks | lib/transactionsFilter/TransactionHashesCache.js:50-52 | a registration no lock closes keeps its original count through the next ten blocks, re-adds notwithstanding |
| SessionTheorems.ExpiresAtEleventhBlock | lib/transactionsFilter/TransactionHashesCache.js:66-76 | after a processed block a hash still waits exactly if it was registered at most ten blocks ago |
| SessionTheorems.SentLocksAreRecent | lib/transactionsFilter/subscribeToNewTransactions.js:71-97 | every lock sent, from either source, is for a hash waiting and registered within the last ten blocks |
| Alignment.AlignedExactly | lib/transactionsFilter/TransactionHashesCache.js:118-131 | over every run, the arrays of blocks and merkle blocks agree in their header hashes after every prefix, none twice, if and only if no hash is added while still cached |
| Alignment.DistinctHashesAligned | lib/transactionsFilter/TransactionHashesCache.js:118-189 | a stream that repeats no block hash keeps the arrays aligned |
| ProofBacking.ProofsStayBacked | lib/transactionsFilter/TransactionHashesCache.js:118-189 | if no block shares its hash or a cached transaction with a cached block, every transaction a cached merkle block proves is still cached, through eviction and historical removal, and in no other cached block |
| ProofBacking.DistinctStreamIsBacked | lib/transactionsFilter/TransactionHashesCache.js:118-189 | the same for a block stream that repeats no hash and puts no transaction in two blocks |
| Deduplication.ProofsBoundedByDeliveries | lib/transactionsFilter/TransactionHashesCache.js:118-124 | in every run at most as many merkle blocks of a hash are sent as blocks of it were delivered |
| Deduplication.TransactionsBoundedByCarriers | lib/transactionsFilter/TransactionHashesCache.js:38-48 | in every run a transaction is sent at most as often as events carried it, by itself or in a block |
| Deduplication.SentBlockIsNotRepeated | lib/transactionsFilter/subscribeToNewTransactions.js:61-63 | after a cached block is handled as sent, its transactions are delivered at most as often as they are appended again, which takes a later event that carries them |
| Deduplication.SentProofIsNotRepeated | lib/transactionsFilter/TransactionHashesCache.js:172-179 | in every run, re-deliveries included: of its header hash only the other cached merkle blocks and later deliveries can still be sent |
| Deduplication.SentProofStaysSilent | lib/transactionsFilter/subscribeToNewTransactions.js:61-63 | if no hash was added while still cached, its merkle block is sent afterwards at most as often as the block is delivered again |
| ProofOrder.SafeExactly | lib/transactionsFilter/subscribeToNewTransactions.js:61-105 | in any state of any run, whatever the client has from history: the state is safe and what was sent in order if and only if without a further block no proof is ever sent before its transactions; safe means covered while history is reported, cached after that |
| ProofOrder.OrderedExactly | lib/transactionsFilter/subscribeToNewTransactions.js:35-105 | over any run: all its states are safe if and only if no prefix of it can be continued, without further blocks and with history reported only in its phase, to a proof sent early |
| BlockConflicts.BlockExactly | lib/transactionsFilter/TransactionHashesCache.js:118-189 | a block keeps a session safe exactly if it has no conflict over a transaction the client lacks while history is reported, and after that exactly if storing it evicts no owed transaction |
| ProofOrderExact.TransactionsBeforeProofs | lib/transactionsFilter/subscribeToNewTransactions.js:85-104 | if each block is admissible on arrival and history is reported in its phase, every merkle block sent comes after all the transactions it proves |
| ProofOrderExact.AdmissibleExactly | lib/transactionsFilter/TransactionHashesCache.js:118-189 | in both phases, after admissible events: a block is admissible if and only if no admissible continuation of the session ever sends a proof before its transactions |
| ProofOrderExact.NothingPendingAdmitsAll | lib/transactionsFilter/subscribeToNewTransactions.js:88-101 | after admissible events, once the client has everything cached, any block is admissible, re-deliveries included |
| ProofOrderExact.UnrelatedRunIsOrdered | lib/transactionsFilter/subscribeToNewTransactions.js:35-104 | if no block shares its hash or a transaction with a block cached when it arrives, no proof is ever sent before its transactions |
| ProofOrderExact.DistinctStreamIsOrdered | lib/transactionsFilter/subscribeToNewTransactions.js:35-104 | a block stream that repeats no hash and puts no transaction in two blocks never yields a proof before its transactions |
| CollectionValues.DeliverAt | lib/bloomFilter/emitter/BloomFilterEmitterCollection.js:40-56 | a broadcast makes a session take its own step exactly if no session added before it throws |
| CollectionValues.ParsedExactly | lib/bloomFilter/emitter/BloomFilterEmitterCollection.js:40-56 | every session takes its own step on a broadcast, whoever else is subscribed, if and only if the transactions carried have all their output scripts |
| CollectionValues.Isolated | lib/bloomFilter/emitter/BloomFilterEmitterCollection.js:16-56 | over any joins, leaves and broadcasts a subscribed session ends as it would alone on the events that reach it: all but the broadcasts on which a session ahead of it throws |
| CollectionValues.IsolatedFromJoin | lib/transactionsFilter/subscribeToNewTransactions.js:107-108 | the same from the moment a session is added; if every broadcast has all its output scripts, what reaches it is every broadcast |
| CollectionValues.WithoutAt | lib/bloomFilter/emitter/BloomFilterEmitterCollection.js:28-32 | removing a session takes its one place out of the order and leaves the others as they stand |
| CollectionValues.LeaverIsGone | lib/bloomFilter/emitter/BloomFilterEmitterCollection.js:28-32 | leaving takes exactly the leaver out, the others stay in their order, and only a join brings it back |
| Collection.BloomFilterEmitterCollection.Add | lib/bloomFilter/emitter/BloomFilterEmitterCollection.js:16-20 | a new session is put last, one already there keeps its place |
| Collection.BloomFilterEmitterCollection.Remove | lib/bloomFilter/emitter/BloomFilterEmitterCollection.js:28-32 | that session is gone and the others stay in their order |
| Collection.BloomFilterEmitterCollection.Broadcast | lib/bloomFilter/emitter/BloomFilterEmitterCollection.js:40-56 | the states of all sessions after the loop are those of the value-level broadcast, and it throws exactly if one of them does |
| Collection.BloomFilterEmitterCollection.TestAll | lib/grpcServer/handlers/tx-filter-stream/subscribeToTransactionsWithProofsHandlerFactory.js:243-245 | transactions broadcast one after the other leave all sessions as the value-level fold does, up to the first broadcast that throws |
| History.BatchesTile | lib/transactionsFilter/getHistoricalTransactionsIteratorFactory.js:27-32 | batches take 1 to 2000 heights, start where the last one ended, and end with the range |
| History.BatchOfHeight | lib/transactionsFilter/getHistoricalTransactionsIteratorFactory.js:57-67 | every height of the range is in a batch that exists, and in no other |
| History.GetHistoricalTransactions | lib/transactionsFilter/getHistoricalTransactionsIteratorFactory.js:46-87 | for every count the items are one scan of the range up to the tip, numbered 0, 1, 2, ..., each height under the filter of its batch; it fails exactly if a batch starts above the tip |
| History.OneFilterOneScan | lib/transactionsFilter/getHistoricalTransactionsIteratorFactory.js:53-86 | with one filter the batched scan is the single scan under that filter |
| History.ItemsCarryMatches | lib/transactionsFilter/getHistoricalTransactionsIteratorFactory.js:70-82 | each item carries a transaction for every hash its merkle block proves |
| History.ItemsExactly | lib/transactionsFilter/getHistoricalTransactionsIteratorFactory.js:70-86 | the item at `i` is numbered `i` and carries its merkle block and the transactions of exactly the flagged hashes, in block order |
| History.ClampedRange | lib/grpcServer/handlers/tx-filter-stream/subscribeToTransactionsWithProofsHandlerFactory.js:197-214 | the range ends at start+count-1 or the best block, whichever is lower, and at the best block for a count of 0 |
| History.BatchesBelowTip | lib/grpcServer/handlers/tx-filter-stream/subscribeToTransactionsWithProofsHandlerFactory.js:212-220 | no batch of a clamped range starts or ends above the best block |
| History.FindStart | lib/grpcServer/handlers/tx-filter-stream/subscribeToTransactionsWithProofsHandlerFactory.js:159-195 | refused for exactly four reasons, each on the request and the chain: no hash and height 0, no hash and a height above the tip, an unknown hash, a hash off the best chain; otherwise the height asked for or the height of that block |
| History.HistoricalScan | lib/grpcServer/handlers/tx-filter-stream/subscribeToTransactionsWithProofsHandlerFactory.js:159-220 | refused for exactly those reasons; otherwise the items, numbered and in chain order, of exactly the matching blocks up to the best one, from the height asked for or that of the block named and at most `count` of them if that is not 0, each under the filter of its batch of 2000 |
| ClientStream.HistoryThenLive | lib/grpcServer/handlers/tx-filter-stream/subscribeToTransactionsWithProofsHandlerFactory.js:222-251 | in every interleaving the wire is the pairs written so far, in order, then what the session sent, which is nothing before the hand-over |
| WireDelivery.HistoryIsWritten | lib/grpcServer/handlers/tx-filter-stream/subscribeToTransactionsWithProofsHandlerFactory.js:222-234 | after n turns of the handler the first n pairs of history are written, or all, whatever happens in between, and nothing live before all of them |
| WireDelivery.PairsAt | lib/grpcServer/handlers/tx-filter-stream/subscribeToTransactionsWithProofsHandlerFactory.js:228-229 | the pair of an item is its transactions and, next to them, its merkle block |
| WireDelivery.MempoolIsSent | lib/grpcServer/handlers/tx-filter-stream/subscribeToTransactionsWithProofsHandlerFactory.js:240-247 | at the hand-over the mempool is tested, what matches is cached with the rest, and all of it unsent is written at once, unless a test is cut off |
| WireDelivery.TurnIsWritten | lib/transactionsFilter/subscribeToNewTransactions.js:85-104 | after it, a turn of the loop writes whatever is cached and was not sent |
| WireDelivery.LockIsWritten | lib/grpcServer/handlers/tx-filter-stream/subscribeToTransactionsWithProofsHandlerFactory.js:143-148 | after it, a lock is on the wire at once if it is waited for, and otherwise nothing is |
| WireDelivery.CancelEndsWire | lib/grpcServer/handlers/tx-filter-stream/subscribeToTransactionsWithProofsHandlerFactory.js:253-258 | a cancellation after the hand-over ends the wire for good; an earlier one is not heard |
| ClientStream.WireIsNotRepeated | lib/grpcServer/handlers/tx-filter-stream/subscribeToTransactionsWithProofsHandlerFactory.js:228-234 | once a pair is written whose block is cached, the live part of the wire repeats its transactions at most as often as later events carry them, and its merkle block at most as often as it is delivered again if no hash was added while still cached |
| StreamOrder.SafeStreamExactly | lib/grpcServer/handlers/tx-filter-stream/subscribeToTransactionsWithProofsHandlerFactory.js:222-251 | in every state of every run of the handler: the wire is in order and the stream is safe if and only if, whatever the handler and the network do next, blocks aside, no merkle block comes before a transaction it proves |
| StreamOrder.WireIsOrdered | lib/grpcServer/handlers/tx-filter-stream/subscribeToTransactionsWithProofsHandlerFactory.js:222-251 | a run through safe streams writes no merkle block, historical or live, before a transaction it proves |
| StreamOrder.WireOrderedExactly | lib/grpcServer/handlers/tx-filter-stream/subscribeToTransactionsWithProofsHandlerFactory.js:222-251 | over every run of the handler: all its streams are safe if and only if no prefix of it can go on, without further blocks, to a wire out of order |
| StreamOrder.ScannedWireIsOrdered | lib/transactionsFilter/getHistoricalTransactionsIteratorFactory.js:69-85 | the wire is in order for the items of a historical scan and a network that repeats no hash and puts no transaction in two blocks |
| StreamBlocks.LateBlockExactly | lib/transactionsFilter/TransactionHashesCache.js:118-131 | once all history is written a block leaves the wire in order, whatever follows but blocks, exactly if storing it evicts no owed transaction from under a merkle block that stays |
| StreamBlocks.CollectingBlockExactly | lib/grpcServer/handlers/tx-filter-stream/subscribeToTransactionsWithProofsHandlerFactory.js:228-234 | while history is written, after admissible blocks, a block leaves the wire in order for every history still to come, and whatever follows but blocks, exactly if it has no conflict over a cached transaction not yet written |
| StreamBlocks.AdmissibleWireIsOrdered | lib/grpcServer/handlers/tx-filter-stream/subscribeToTransactionsWithProofsHandlerFactory.js:222-251 | if the blocks heard are admissible on arrival, given what history brings, the whole wire is in order |
| Redelivery.TwiceMisaligns | lib/transactionsFilter/TransactionHashesCache.js:118-131 | a payment, then twice the block that spends it: the hash is added while cached, and the arrays are not aligned |
| Redelivery.TwiceIsOutOfOrder | lib/grpcServer/handlers/tx-filter-stream/subscribeToTransactionsWithProofsHandlerFactory.js:222-251 | a run in which the session's filter grows after history was read, a block is heard twice and then written as history: the live merkle block proves a transaction the client never gets |
| StreamHandler.Handler.WriteNext | lib/grpcServer/handlers/tx-filter-stream/subscribeToTransactionsWithProofsHandlerFactory.js:228-234 | writes transactions, then their merkle block, then tells the session |
| StreamHandler.Handler.ReadMempool | lib/grpcServer/handlers/tx-filter-stream/subscribeToTransactionsWithProofsHandlerFactory.js:240-247 | tests the mempool on every session of the collection up to a throw, and hands this one over only if there was none |
| StreamHandler.Handler.Cancel | lib/grpcServer/handlers/tx-filter-stream/subscribeToTransactionsWithProofsHandlerFactory.js:253-258 | a cancellation disconnects a session that has been handed over and takes a subscribed one, and only that, out of the collection |
| Heights.HeightTracker.WaitForHeight | lib/externalApis/tenderdash/waitForHeightFactory.js:18-36 | resolves at once exactly if the height has been observed, else attaches one waiter |
| Heights.HeightTracker.OnNewBlock | lib/externalApis/tenderdash/waitForHeightFactory.js:9-33 | the handlers attached at emission run in order while they detach themselves |
| Heights.BlockResolvesDue | lib/externalApis/tenderdash/waitForHeightFactory.js:9-33 | with the updater first, a block resolves and detaches exactly the waiters whose height it reaches, in order |
| Heights.UpdaterMustComeFirst | lib/externalApis/tenderdash/waitForHeightFactory.js:9-11 | were the updater attached after a waiter, the waiter would miss its block |
| Heights.ResolvesAtFirstReach | lib/externalApis/tenderdash/waitForHeightFactory.js:31-39 | over every run an attached waiter is resolved, once, exactly if a block reached its height, and attached exactly if none did |
| Heights.WaitResolves | lib/externalApis/tenderdash/waitForHeightFactory.js:18-36 | from its registration a wait resolves exactly if its height was already observed or is reached later |
| ProvableValues.SourcesAgreeExactly | lib/externalApis/tenderdash/waitForTransactionToBeProvable/waitForTransactionResult.js:27-30 | listener and query classify a result alike exactly if its code is present, and then 0 is success and any other code is not; an absent one is success to the listener alone |
| ProvableValues.RouteMattersExactly | lib/externalApis/tenderdash/waitForTransactionToBeProvable/waitForTransactionToBeProvableFactory.js:25-50 | either route can win with its own reading of the committed result, and the readings agree exactly if the code is present |
| ProvableValues.SafeOutcome | lib/externalApis/tenderdash/waitForTransactionToBeProvable/waitForTransactionToBeProvableFactory.js:24-72 | over every interleaving a returned result is the one that won the race, a won error result has been settled, and a fired timer leaves no listener |
| ProvableValues.OutcomeIsFinal | lib/externalApis/tenderdash/waitForTransactionToBeProvable/waitForTransactionToBeProvableFactory.js:52-71 | an outcome never changes |
| ProvableValues.OkNeedsNextBlock | lib/externalApis/tenderdash/waitForTransactionToBeProvable/waitForTransactionToBeProvableFactory.js:54-60 | an ok result of height h is returned only with an observed height of at least h+1 |
| ProvableValues.ErrorReturnsAtOnce | lib/externalApis/tenderdash/waitForTransactionToBeProvable/waitForTransactionToBeProvableFactory.js:54-60 | an error result settles the wait in the step that brings it |
| ProvableValues.TimerDetaches | lib/externalApis/tenderdash/waitForTransactionToBeProvable/waitForTransactionToBeProvableFactory.js:63-70 | after the timer the listener stays detached |
| ProvableValues.TimerRejects | lib/externalApis/tenderdash/waitForTransactionToBeProvable/waitForTransactionToBeProvableFactory.js:63-70 | the timer rejects a wait that has not settled, for good, and leaves a settled one as it is |
| ProvableValues.OkReturnsExactly | lib/externalApis/tenderdash/waitForTransactionToBeProvable/waitForTransactionToBeProvableFactory.js:54-60 | timer aside, a won ok result is returned exactly if a later block reaches its next height |
| ProvableValues.NoMissedWakeUp | lib/externalApis/tenderdash/waitForTransactionToBeProvable/waitForTransactionToBeProvableFactory.js:25-50 | with a truthful node, a committed transaction whose event is gone and whose query is answered or failed has won the race as one of the two routes reads it, or lost it to the error the query failed with, unless the timer fired |
| ProvableValues.CallerGetsResult | lib/externalApis/tenderdash/waitForTransactionToBeProvable/waitForTransactionToBeProvableFactory.js:52-71 | ... and if the query was answered, that reading, of that height and transaction, ok exactly for code 0 if a code is present: an error result has been returned, and an ok result is returned exactly when it has been already or a later block reaches its next height, timer aside |
| ProvableValues.QueryErrorRejects | lib/externalApis/tenderdash/waitForTransactionToBeProvable/waitForTransactionToBeProvableFactory.js:39-46 | while nothing is settled, an error with another code than -32603 or other data than "tx (hash) not found" rejects the wait with it, for good |
| ProvableValues.NotFoundKeepsListening | lib/externalApis/tenderdash/waitForTransactionToBeProvable/waitForTransactionToBeProvableFactory.js:39-46 | "not found" changes nothing, and the listener can still win |
| ProvableValues.CallerGetsErrorExactly | lib/externalApis/tenderdash/waitForTransactionToBeProvable/waitForTransactionToBeProvableFactory.js:34-71 | when the query fails otherwise, the caller gets that error if and only if by then the listener has not won and the timer has not fired; an error the caller gets is the one the query failed with |
| ProvableValues.ListenerMustComeFirst | lib/externalApis/tenderdash/waitForTransactionToBeProvable/waitForTransactionToBeProvableFactory.js:25-30 | attached after the query, the listener would miss a commit in between |
| Provable.ProvableWait.constructor | lib/externalApis/tenderdash/waitForTransactionToBeProvable/waitForTransactionToBeProvableFactory.js:25-30 | the wait starts with its listener attached and nothing settled |
| Provable.ProvableWait.OnTransactionEvent | lib/externalApis/tenderdash/waitForTransactionToBeProvable/waitForTransactionResult.js:19-42 | the one-shot listener detaches and tries to win the race |
| Provable.ProvableWait.OnReplyFound | lib/externalApis/tenderdash/waitForTransactionToBeProvable/waitForTransactionToBeProvableFactory.js:34-38 | a found result detaches the listener and tries to win the race |
| Provable.ProvableWait.OnReplyError | lib/externalApis/tenderdash/waitForTransactionToBeProvable/waitForTransactionToBeProvableFactory.js:39-46 | "not found" leaves the race open, any other error loses it |
| Provable.ProvableWait.OnNewBlock | lib/externalApis/tenderdash/waitForTransactionToBeProvable/waitForTransactionToBeProvableFactory.js:54-60 | the wait returns its result when its own height waiter resolves |
| Provable.ProvableWait.OnTimer | lib/externalApis/tenderdash/waitForTransactionToBeProvable/waitForTransactionToBeProvableFactory.js:63-70 | detaches the listener and rejects, if nothing was settled |
| WebSocketClient.WsClient.Subscribe | lib/externalApis/tenderdash/WsClient.js:162-178 | sends and counts one more subscription; throws, changing nothing, without a socket that can send |
| WebSocketClient.WsClient.Unsubscribe | lib/externalApis/tenderdash/WsClient.js:184-205 | lowers the count, or sends and forgets the query at the last one |
| WebSocketClient.WsClient.Resubscribe | lib/externalApis/tenderdash/WsClient.js:59-61 | the walk over the keys ends although it updates the map, sends each key once and raises each count by one; it throws at the first key if nothing can be sent |
| WebSocketClient.WsClient.Reconnect | lib/externalApis/tenderdash/WsClient.js:30-47 | schedules a reopen within the bound, else disconnects and reports, or throws without a socket |
| WebSocketClient.WsClient.OnSocketClosed | lib/externalApis/tenderdash/WsClient.js:64-72 | a normal close disconnects, any other reconnects |
| WebSocketClient.WsClient.OnSocketOpened | lib/externalApis/tenderdash/WsClient.js:49-62 | a connecting socket's open marks the client connected and resubscribes every key on it |
| WebSocketClient.WsClient.OnSocketError | lib/externalApis/tenderdash/WsClient.js:74-87 | the two retriable codes reconnect, any other error disconnects |
| WebSocketClient.WsClient.OnReopenTimer | lib/externalApis/tenderdash/WsClient.js:23-36 | a pending reopen replaces the socket by a new one, whatever happened to the client meanwhile |
| WebSocketClient.WsClient.Connect | lib/externalApis/tenderdash/WsClient.js:109-126 | resets bound, retries and queries and opens a new socket |
| WebSocketClient.WsClient.Close | lib/externalApis/tenderdash/WsClient.js:132-145 | gives up the socket and the queries, if there was a socket; one given up while connecting, and not closed yet, keeps its listeners |
| WebSocketClient.WsClient.OnOrphanOpened | lib/externalApis/tenderdash/WsClient.js:49-62 | the open listener of a socket given up while connecting marks the client connected and resubscribes over the current socket, throwing if there is none to send over |
| WebSocketClient.WsClient.OnOrphanClosed | lib/externalApis/tenderdash/WsClient.js:64-72 | its close listener, which is then heard no more, disconnects the current socket or schedules a reopen of the client |
| WebSocketClient.WsClient.OnOrphanError | lib/externalApis/tenderdash/WsClient.js:74-87 | its error listener schedules a reopen or disconnects the current socket |
| WsValues.ReopenAgrees | lib/externalApis/tenderdash/WsClient.js:49-62 | after the open handler the queries subscribed on the new socket are the map's keys; keys are unchanged, counts are one higher |
| Subscriptions.SubscribedExactly | lib/externalApis/tenderdash/WsClient.js:162-205 | from any state with an open socket, after any calls the node is subscribed to a query exactly if more subscriptions of it were asked for than given up |
| Subscriptions.CallIsSent | lib/externalApis/tenderdash/WsClient.js:162-205 | every subscription is sent, and giving one up with the last one only |
| Subscriptions.CallIsRefused | lib/externalApis/tenderdash/WsClient.js:162-205 | without a socket, or while it connects, a call that would send changes nothing |
| Subscriptions.ReopensExactly | lib/externalApis/tenderdash/WsClient.js:30-47 | over every run after a connect: each failure schedules one reopen until there has been one more than the bound, later failures are reported; no bound and a bound of 0 never report |
| Subscriptions.EndIsFinal | lib/externalApis/tenderdash/WsClient.js:64-87 | a close with code 1000, and an error other than the two retriable ones, gives the socket up and schedules nothing |
| Subscriptions.FailureEnds | lib/externalApis/tenderdash/WsClient.js:30-47 | a failure that is reported gives the socket up; another leaves queries and connection to the reopen |
| Subscriptions.ConnectStartsOver | lib/externalApis/tenderdash/WsClient.js:109-126 | a connect opens a new socket and forgets queries and retries, but not the pending reopens |
| Subscriptions.CloseForgets | lib/externalApis/tenderdash/WsClient.js:132-145 | a close forgets socket and queries, but not the pending reopens, nor takes its listeners off a socket that never opened |
| Subscriptions.ReopenRestores | lib/externalApis/tenderdash/WsClient.js:30-62 | when a reopen has run and its socket opens, the client is connected and each query has been subscribed once, in the order of the map |
| Subscriptions.OrphanCountsAsCurrent | lib/externalApis/tenderdash/WsClient.js:64-87 | a socket given up while connecting that closes or fails does to the client what the same does on its current socket, which is given up with it |
| Subscriptions.OrphanWithoutCurrent | lib/externalApis/tenderdash/WsClient.js:30-47 | without a current socket it schedules a reopen within the bound, and nothing else |
| Subscriptions.OrphanOpens | lib/externalApis/tenderdash/WsClient.js:49-62 | when it opens, the client is marked connected and its queries are subscribed over the current socket, each count one higher |
| WsValues.AlwaysAgrees | lib/externalApis/tenderdash/WsClient.js:30-205 | over every run, sockets given up while connecting included, an open socket is subscribed to exactly the map's keys, and a positive bound n allows at most n+1 reopens per connect |
| WsValues.StaysClosedExactly | lib/externalApis/tenderdash/WsClient.js:30-36 | a closed client stays closed until the next connect if and only if no reopen is pending and no given-up socket that has not closed yet can still schedule one |
| WsValues.ReopensAfterClose | lib/externalApis/tenderdash/WsClient.js:132-145 | connect, close while connecting, the socket fails, the timer fires: the closed client has a socket again |
| WsValues.ZeroIsUnbounded | lib/externalApis/tenderdash/WsClient.js:111-112 | a bound of 0 schedules a reopen for every failure |

## Left out

- gRPC and protobuf conversion, response building, acknowledgement of writes, real sockets, ZMQ and timers; writes are taken to keep their order.
- dashcore-lib: murmur hashing, transaction and block parsing, script classification, `MerkleBlock.build`, hex conversion and the byte reversal of merkle hashes are not part of this model.
- The empty filter, for which the library's `contains` is always false.
- Transactions whose `inputs` or `outputs` are not arrays; the source treats them like empty ones.
- Requests with a positive count, which write the historical pairs and end; only their scan is modelled, in `History`.
- Core errors in the middle of a scan, and a chain that is reorganised during one.
- A cancellation that arrives before the handler listens for it, and promise ordering below the level of events.
- Cache entries are replaced in their sequence where the source sets a flag on a shared entry object; no other alias of an entry exists there.
- A given-up WebSocket may open or fail more than once in the model before it closes; what such a socket receives as messages is left out.
- What an exception does to the process: nothing in scripts/tx-filter-stream.js catches one of a ZMQ listener, so a broadcast that throws there would end it. Only the mempool loop runs under an error handler, and the laws about broadcasts that throw speak of the sessions' states.
- Listeners of the WebSocket client's connect event that subscribe before the handler's own loop.
- Whether a transaction precedes its instant lock: in the live phase a lock is forwarded at once while transactions wait for the loop's next turn, so no such order is claimed.
- RPC commands, configuration, logging, Drive and Core clients and the platform query handlers, each settled by reading one branch.
