/** De-duplication: how often items are sent, and what a block already sent as history no longer adds. */
module Deduplication {
  import opened Common
  import opened BloomFilters
  import opened CacheValues
  import opened SessionValues
  import opened Counting
  import opened SessionInvariants
  import opened SessionTheorems
  import opened Alignment

  // ----- how often a merkle block can be sent -----

  function DeliveryOf(h: Hash): Event -> bool {
    (e: Event) => e.NewBlock? && e.block.hash == h
  }

  /** The notes of items that enter the cache; the others belong to removal and expiry. */
  predicate Entering(n: Note) {
    n.Appended? || n.ProofAppended?
  }

  lemma RemovalNote(c: State, b: Block, n: Note)
    requires Entering(n)
    ensures RemoveDataByBlock(c, b).history[n] == c.history[n]
  {
    RemovalNotesCount(c, b, n.hash);
    assert RemovalNotes(c, b)[n] == 0;
  }

  lemma RemovalByHashNote(c: State, hash: Hash, n: Note)
    requires Entering(n)
    ensures RemoveDataByBlockHash(c, hash).history[n] == c.history[n]
  {
    var found := FindBlock(c.blocks, hash);
    if found.Some? {
      RemovalNote(c, found.value, n);
    }
  }

  lemma CountBlockNote(c: State, n: Note)
    requires Entering(n)
    ensures CountBlock(c).history[n] == c.history[n]
  {
    assert ExpiryNotes(Overdue(c))[n] == 0;
  }

  lemma StoreNote(c: State, b: Block, n: Note)
    requires Entering(n)
    ensures StoreBlock(c, b).history[n] == c.history[n] + if n == ProofAppended(b.hash) then 1 else 0
  {
    var p := PushBlock(c, b);
    if |p.blocks| > CACHE_SIZE {
      RemovalNote(p.(blocks := p.blocks[1..]), p.blocks[0], n);
    }
  }

  /** A stored block appends its own merkle block and nothing else. */
  lemma AddBlockNote(c: State, b: Block, n: Note)
    requires Entering(n)
    ensures AddBlock(c, b).history[n]
            == c.history[n] + if HasMatch(c, b) && n == ProofAppended(b.hash) then 1 else 0
  {
    CountBlockNote(c, n);
    if HasMatch(CountBlock(c), b) {
      StoreNote(CountBlock(c), b, n);
    }
  }

  lemma {:induction false} TestsAppendNoProof(s: SessionState, txs: seq<Transaction>, h: Hash)
    ensures TestTransactions(s, txs).state.cache.history[ProofAppended(h)] == s.cache.history[ProofAppended(h)]
    decreases txs
  {
    if txs != [] {
      var s1 := TestTransaction(s, txs[0]).state;
      assert s1.cache.history[ProofAppended(h)] == s.cache.history[ProofAppended(h)];
      TestsAppendNoProof(s1, txs[1..], h);
    }
  }

  lemma BlockProofs(s: SessionState, b: Block, h: Hash)
    ensures OnBlock(s, b).state.cache.history[ProofAppended(h)]
            <= s.cache.history[ProofAppended(h)] + if b.hash == h then 1 else 0
  {
    TestsAppendNoProof(s, b.transactions, h);
    var e := if |s.cache.blocks| == 0 then TestTransactions(s, b.transactions) else Effect(s, false);
    AddBlockNote(e.state.cache, b, ProofAppended(h));
  }

  /** Only a delivered block of that hash can put a merkle block of it into the cache, and only one. */
  lemma StepProofs(s: SessionState, e: Event, h: Hash)
    requires Phased(s)
    ensures Step(s, e).state.cache.history[ProofAppended(h)]
            <= s.cache.history[ProofAppended(h)] + if DeliveryOf(h)(e) then 1 else 0
  {
    match e
    case NewTransaction(tx) =>
    case NewBlock(b) => BlockProofs(s, b, h);
    case NewInstantLock(lock, tx) => LockReaches(s, lock, tx);
    case HistoricalBlockSent(hash) => RemovalByHashNote(s.cache, hash, ProofAppended(h));
    case MempoolDataSent => TurnLoopSends(StartForwarding(s), h);
    case LoopTurn => TurnLoopSends(s, h);
    case ClientDisconnected =>
  }

  lemma {:induction false} RunProofs(s: SessionState, es: seq<Event>, h: Hash)
    requires Inv(s, h)
    ensures Run(s, es).cache.history[ProofAppended(h)] <= s.cache.history[ProofAppended(h)] + Count(es, DeliveryOf(h))
    decreases es
  {
    if es != [] {
      StepProofs(s, es[0], h);
      StepKeeps(s, es[0], h);
      RunProofs(Step(s, es[0]).state, es[1..], h);
    }
  }

  /** In every run a client gets no more merkle blocks of a hash than blocks of that hash were delivered. */
  lemma ProofsBoundedByDeliveries(f: Filter, es: seq<Event>, h: Hash)
    ensures Count(Run(Subscribe(f), es).sent, ProofOf(h)) <= Count(es, DeliveryOf(h))
  {
    Starts(f, h);
    Reachable(f, es, h);
    RunProofs(Subscribe(f), es, h);
  }

  // ----- how often a transaction can be sent -----

  /** The event carries the transaction: by itself or in a block. */
  function CarrierOf(h: Hash): Event -> bool {
    (e: Event) => (e.NewTransaction? && e.transaction.hash == h) || (e.NewBlock? && h in TxIds(e.block))
  }

  function CachedHashes(s: SessionState): set<Hash> {
    TxHashes(s.cache.transactions)
  }

  lemma AddAppends(c: State, tx: Transaction, h: Hash)
    ensures AddTransaction(c, tx).history[Appended(h)]
            == c.history[Appended(h)] + (if h == tx.hash && h !in TxHashes(c.transactions) then 1 else 0)
  {
  }

  lemma TestAppends(s: SessionState, tx: Transaction, h: Hash)
    ensures var t := TestTransaction(s, tx).state;
            && CachedHashes(s) <= CachedHashes(t) <= CachedHashes(s) + {tx.hash}
            && t.cache.history[Appended(h)]
               == s.cache.history[Appended(h)] + (if h in CachedHashes(t) - CachedHashes(s) then 1 else 0)
  {
    AddedHashes(s.cache, tx);
    AddAppends(s.cache, tx, h);
  }

  /** Testing the transactions of a block appends exactly what it newly caches. */
  lemma {:induction false} TestsAppend(s: SessionState, txs: seq<Transaction>, h: Hash)
    ensures var t := TestTransactions(s, txs).state;
            && CachedHashes(s) <= CachedHashes(t)
            && t.cache.history[Appended(h)]
               == s.cache.history[Appended(h)] + (if h in CachedHashes(t) - CachedHashes(s) then 1 else 0)
            && (h in CachedHashes(t) - CachedHashes(s) ==> exists x :: x in txs && x.hash == h)
    decreases txs
  {
    if txs != [] {
      TestAppends(s, txs[0], h);
      TestsAppend(TestTransaction(s, txs[0]).state, txs[1..], h);
      assert txs[0] in txs && forall x :: x in txs[1..] ==> x in txs;
    }
  }

  lemma BlockAppends(s: SessionState, b: Block, h: Hash)
    ensures OnBlock(s, b).state.cache.history[Appended(h)]
            <= s.cache.history[Appended(h)] + if h in TxIds(b) then 1 else 0
  {
    TestsAppend(s, b.transactions, h);
    var e := if |s.cache.blocks| == 0 then TestTransactions(s, b.transactions) else Effect(s, false);
    AddBlockNote(e.state.cache, b, Appended(h));
  }

  /** Only an event that carries a transaction can put it into the cache, and only once. */
  lemma StepAppends(s: SessionState, e: Event, h: Hash)
    requires Phased(s)
    ensures Step(s, e).state.cache.history[Appended(h)]
            <= s.cache.history[Appended(h)] + if CarrierOf(h)(e) then 1 else 0
  {
    match e
    case NewTransaction(tx) => TestAppends(s, tx, h);
    case NewBlock(b) => BlockAppends(s, b, h);
    case NewInstantLock(lock, tx) => LockReaches(s, lock, tx);
    case HistoricalBlockSent(hash) => RemovalByHashNote(s.cache, hash, Appended(h));
    case MempoolDataSent => TurnLoopSends(StartForwarding(s), h);
    case LoopTurn => TurnLoopSends(s, h);
    case ClientDisconnected =>
  }

  lemma {:induction false} RunAppends(s: SessionState, es: seq<Event>, h: Hash)
    requires Inv(s, h)
    ensures Run(s, es).cache.history[Appended(h)] <= s.cache.history[Appended(h)] + Count(es, CarrierOf(h))
    decreases es
  {
    if es != [] {
      StepAppends(s, es[0], h);
      StepKeeps(s, es[0], h);
      RunAppends(Step(s, es[0]).state, es[1..], h);
    }
  }

  /** In every run a client gets a transaction no more often than events carried it. */
  lemma TransactionsBoundedByCarriers(f: Filter, es: seq<Event>, h: Hash)
    ensures Count(Run(Subscribe(f), es).sent, TransactionOf(h)) <= Count(es, CarrierOf(h))
  {
    Starts(f, h);
    Reachable(f, es, h);
    RunAppends(Subscribe(f), es, h);
  }

  // ----- historical blocks and the live suffix -----

  /** The appends of a transaction or merkle block over a run, at most one for each event that carries it. */
  lemma LaterAppends(s: SessionState, later: seq<Event>, h: Hash)
    requires Inv(s, h)
    ensures 0 <= Appends(s, later, h) <= Count(later, CarrierOf(h))
    ensures 0 <= ProofAppends(s, later, h) <= Count(later, DeliveryOf(h))
  {
    RunGrows(s, later, h);
    RunAppends(s, later, h);
    RunProofs(s, later, h);
  }

  function Appends(s: SessionState, later: seq<Event>, h: Hash): int {
    Run(s, later).cache.history[Appended(h)] as int - s.cache.history[Appended(h)] as int
  }

  function ProofAppends(s: SessionState, later: seq<Event>, h: Hash): int {
    Run(s, later).cache.history[ProofAppended(h)] as int - s.cache.history[ProofAppended(h)] as int
  }

  /** Later deliveries are paid for by what is still to be sent and by later appends. */
  lemma LaterDeliveries(s: SessionState, later: seq<Event>, h: Hash)
    requires Inv(s, h)
    ensures Count(Run(s, later).sent, TransactionOf(h))
            <= Count(s.sent, TransactionOf(h)) + Count(s.cache.transactions, UnsentTransaction(h))
               + Appends(s, later, h)
    ensures Count(Run(s, later).sent, ProofOf(h))
            <= Count(s.sent, ProofOf(h)) + Count(s.cache.merkleBlocks, UnsentProof(h)) + ProofAppends(s, later, h)
  {
    RunKeeps(s, later, h);
    RunGrows(s, later, h);
    NotesGrow(s.cache.history, Run(s, later).cache.history, h);
  }

  lemma NotesGrow(before: multiset<Note>, after: multiset<Note>, h: Hash)
    requires before <= after
    ensures before[DroppedUnsent(h)] <= after[DroppedUnsent(h)]
    ensures before[ProofDroppedUnsent(h)] <= after[ProofDroppedUnsent(h)]
  {
  }

  /** A subscribed session has a block cached under that hash. */
  predicate Caches(s: SessionState, hash: Hash) {
    s.subscribed && FindBlock(s.cache.blocks, hash).Some?
  }

  function CachedBlock(s: SessionState, hash: Hash): Block
    requires Caches(s, hash)
  {
    FindBlock(s.cache.blocks, hash).value
  }

  /** A session right after a cached block has been handled as sent. */
  function AfterSent(f: Filter, es: seq<Event>, hash: Hash): SessionState {
    Step(Run(Subscribe(f), es), HistoricalBlockSent(hash)).state
  }

  lemma HandledAsSent(s: SessionState, hash: Hash, h: Hash)
    requires Inv(s, h) && Caches(s, hash)
    ensures var t := Step(s, HistoricalBlockSent(hash)).state;
            Inv(t, h) && t == s.(cache := RemoveDataByBlock(s.cache, CachedBlock(s, hash)))
  {
    StepKeeps(s, HistoricalBlockSent(hash), h);
  }

  lemma SentIsRemoved(f: Filter, es: seq<Event>, hash: Hash, h: Hash)
    requires Caches(Run(Subscribe(f), es), hash)
    ensures Inv(AfterSent(f, es, hash), h) && Inv(Run(Subscribe(f), es), h)
    ensures var s := Run(Subscribe(f), es);
            AfterSent(f, es, hash) == s.(cache := RemoveDataByBlock(s.cache, CachedBlock(s, hash)))
  {
    Reachable(f, es, h);
    HandledAsSent(Run(Subscribe(f), es), hash, h);
  }

  lemma RemovedIsNotPending(c: State, b: Block, h: Hash)
    requires h in TxIds(b)
    ensures Count(Keep(c.transactions, TxIds(b)), UnsentTransaction(h)) == 0
  {
    forall e | e in Keep(c.transactions, TxIds(b)) ensures !UnsentTransaction(h)(e) {
      KeepMembers(c.transactions, TxIds(b), e);
    }
    CountNone(Keep(c.transactions, TxIds(b)), UnsentTransaction(h));
  }

  /**
   * Once a cached block has been handled as sent, its transactions are delivered again no more often
   * than they are appended again, which takes a later event that carries them.
   */
  lemma SentBlockIsNotRepeated(f: Filter, es: seq<Event>, hash: Hash, later: seq<Event>, h: Hash)
    requires Caches(Run(Subscribe(f), es), hash) && h in TxIds(CachedBlock(Run(Subscribe(f), es), hash))
    ensures var s := AfterSent(f, es, hash);
            && s.sent == Run(Subscribe(f), es).sent
            && Count(Run(s, later).sent, TransactionOf(h)) as int - Count(s.sent, TransactionOf(h))
               <= Appends(s, later, h) <= Count(later, CarrierOf(h))
  {
    var s := Run(Subscribe(f), es);
    SentIsRemoved(f, es, hash, h);
    RemovedIsNotPending(s.cache, CachedBlock(s, hash), h);
    LaterDeliveries(AfterSent(f, es, hash), later, h);
    LaterAppends(AfterSent(f, es, hash), later, h);
  }

  lemma {:induction false} UnsentAmongIds(ms: seq<MerkleEntry>, h: Hash)
    ensures Count(ms, UnsentProof(h)) <= multiset(ProofIds(ms))[h]
  {
    if ms != [] {
      UnsentAmongIds(ms[1..], h);
      assert ProofIds(ms) == [ms[0].merkleBlock.headerHash] + ProofIds(ms[1..]);
    }
  }

  lemma FoundIsCounted(bs: seq<Block>, hash: Hash)
    requires FindBlock(bs, hash).Some?
    ensures multiset(BlockIds(bs))[hash] >= 1
  {
    var k :| 0 <= k < |bs| && bs[k] == FindBlock(bs, hash).value;
    assert BlockIds(bs)[k] == hash;
  }

  /** The merkle blocks cached under a hash. */
  function Copies(s: SessionState, hash: Hash): nat {
    multiset(ProofIds(s.cache.merkleBlocks))[hash]
  }

  /**
   * The same for its merkle block, re-deliveries included: beyond later deliveries of the hash, only
   * the other merkle blocks cached under it can still be sent.
   */
  lemma SentProofIsNotRepeated(f: Filter, es: seq<Event>, hash: Hash, later: seq<Event>)
    requires Caches(Run(Subscribe(f), es), hash)
    ensures var s, s0 := AfterSent(f, es, hash), Run(Subscribe(f), es);
            && s.sent == s0.sent && Copies(s, hash) + 1 == Copies(s0, hash)
            && Count(Run(s, later).sent, ProofOf(hash)) as int - Count(s.sent, ProofOf(hash)) - Copies(s, hash)
               <= ProofAppends(s, later, hash) <= Count(later, DeliveryOf(hash))
  {
    var s := Run(Subscribe(f), es);
    SentIsRemoved(f, es, hash, hash);
    FoundIsCounted(s.cache.blocks, hash);
    WithoutProofCount(s.cache.merkleBlocks, hash, hash);
    UnsentAmongIds(AfterSent(f, es, hash).cache.merkleBlocks, hash);
    LaterDeliveries(AfterSent(f, es, hash), later, hash);
    LaterAppends(AfterSent(f, es, hash), later, hash);
  }

  lemma {:induction false} CountedOnce(ids: seq<Hash>, hash: Hash)
    requires NoRepeats(ids)
    ensures multiset(ids)[hash] <= 1
  {
    if ids != [] {
      CountedOnce(ids[1..], hash);
      assert ids == [ids[0]] + ids[1..];
    }
  }

  /**
   * De-duplication of merkle blocks. If no hash was added while still cached, the merkle block of a
   * block handled as sent is sent afterwards no more often than the block is delivered again.
   */
  lemma SentProofStaysSilent(f: Filter, es: seq<Event>, hash: Hash, later: seq<Event>)
    requires NeverAgain(Subscribe(f), es)
    requires Caches(Run(Subscribe(f), es), hash)
    ensures var s := AfterSent(f, es, hash);
            Count(Run(s, later).sent, ProofOf(hash)) as int - Count(s.sent, ProofOf(hash))
            <= ProofAppends(s, later, hash) <= Count(later, DeliveryOf(hash))
  {
    AlignedExactly(f, es);
    assert es[..|es|] == es;
    CountedOnce(BlockIds(Run(Subscribe(f), es).cache.blocks), hash);
    SentProofIsNotRepeated(f, es, hash, later);
  }
}
