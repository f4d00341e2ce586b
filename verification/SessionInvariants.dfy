/** What every step of a session keeps, and what it means over whole runs. */
module SessionInvariants {
  import opened Common
  import opened BloomFilters
  import opened CacheValues
  import opened SessionValues
  import opened Counting

  // ----- the invariants, per hash -----

  /** Appended transactions are sent, dropped undelivered, or still to be sent. */
  ghost predicate TransactionBalance(s: SessionState, h: Hash) {
    s.cache.history[Appended(h)]
    == Count(s.sent, TransactionOf(h)) + s.cache.history[DroppedUnsent(h)]
       + Count(s.cache.transactions, UnsentTransaction(h))
  }

  /** The same account for merkle blocks. */
  ghost predicate ProofBalance(s: SessionState, h: Hash) {
    s.cache.history[ProofAppended(h)]
    == Count(s.sent, ProofOf(h)) + s.cache.history[ProofDroppedUnsent(h)]
       + Count(s.cache.merkleBlocks, UnsentProof(h))
  }

  /** Registrations in the waiting list end in a forwarded lock or in expiry, or are still open. */
  ghost predicate LockBalance(s: SessionState, h: Hash) {
    s.cache.history[Registered(h)]
    == Count(s.sent, LockOf(h, false)) + s.cache.history[Expired(h)] + if h in s.cache.waiting then 1 else 0
  }

  /** A collected lock is sent, or still collected, at most once per transaction. */
  ghost predicate CollectedOnce(s: SessionState, h: Hash) {
    Count(s.sent, LockOf(h, true)) + Count(s.cache.locks, LockFor(h)) <= 1
  }

  ghost predicate ProofsCoverBlocks(c: State, h: Hash) {
    multiset(BlockIds(c.blocks))[h] <= multiset(ProofIds(c.merkleBlocks))[h]
  }

  ghost predicate InWindow(c: State, h: Hash) {
    h in c.waiting ==>
      c.blocksProcessed - BLOCKS_TO_STAY_IN_INSTANT_LOCK_CACHE <= c.waiting[h] <= c.blocksProcessed
  }

  /** The phases: collecting, forwarding, disconnected. */
  ghost predicate Phased(s: SessionState) {
    && (s.subscribed <==> s.isClientConnected)
    && (s.mempoolListenerArmed ==> s.subscribed && !s.looping && s.sent == [] && s.lockListeners == [Collecting])
    && (s.subscribed && !s.mempoolListenerArmed ==>
          s.looping && s.cache.locks == [] && s.lockListeners == [Forwarding])
    && (!s.subscribed ==> s.lockListeners == [])
  }

  ghost predicate Balanced(s: SessionState, h: Hash) {
    TransactionBalance(s, h) && ProofBalance(s, h) && LockBalance(s, h)
  }

  ghost predicate Inv(s: SessionState, h: Hash) {
    && Balanced(s, h) && CollectedOnce(s, h)
    && ProofsCoverBlocks(s.cache, h) && |s.cache.blocks| <= CACHE_SIZE
    && Distinct(s.cache.transactions) && InWindow(s.cache, h)
    && Phased(s)
  }

  // ----- one operation at a time -----

  lemma SentCounts(s: SessionState, more: seq<Message>, h: Hash)
    ensures Count(s.sent + more, TransactionOf(h)) == Count(s.sent, TransactionOf(h)) + Count(more, TransactionOf(h))
    ensures Count(s.sent + more, ProofOf(h)) == Count(s.sent, ProofOf(h)) + Count(more, ProofOf(h))
    ensures Count(s.sent + more, LockOf(h, true)) == Count(s.sent, LockOf(h, true)) + Count(more, LockOf(h, true))
    ensures Count(s.sent + more, LockOf(h, false)) == Count(s.sent, LockOf(h, false)) + Count(more, LockOf(h, false))
  {
    CountConcat(s.sent, more, TransactionOf(h));
    CountConcat(s.sent, more, ProofOf(h));
    CountConcat(s.sent, more, LockOf(h, true));
    CountConcat(s.sent, more, LockOf(h, false));
  }

  lemma AppendDistinct(ts: seq<TxEntry>, e: TxEntry)
    requires Distinct(ts) && e.transaction.hash !in TxHashes(ts)
    ensures Distinct(ts + [e])
  {
    forall i | 0 <= i < |ts| ensures EntryIds(ts)[i] != e.transaction.hash {
      assert ts[i] in ts;
    }
    assert EntryIds(ts + [e]) == EntryIds(ts) + [e.transaction.hash];
    NoRepeatsConcat(EntryIds(ts), [e.transaction.hash]);
  }

  lemma AppendKeeps(s: SessionState, tx: Transaction, h: Hash)
    requires Inv(s, h)
    ensures Inv(s.(cache := AppendIfNew(s.cache, tx)), h)
  {
    if tx.hash !in TxHashes(s.cache.transactions) {
      CountConcat(s.cache.transactions, [TxEntry(tx, false)], UnsentTransaction(h));
      AppendDistinct(s.cache.transactions, TxEntry(tx, false));
    }
  }

  lemma AddTransactionKeeps(s: SessionState, tx: Transaction, h: Hash)
    requires Inv(s, h)
    ensures Inv(s.(cache := AddTransaction(s.cache, tx)), h)
  {
    AppendKeeps(s, tx, h);
    var c := AppendIfNew(s.cache, tx);
    assert Inv(s.(cache := RegisterIfNew(c, tx.hash)), h);
  }

  lemma TestKeeps(s: SessionState, tx: Transaction, h: Hash)
    requires Inv(s, h)
    ensures Inv(TestTransaction(s, tx).state, h)
    ensures TestTransaction(s, tx).state
            == s.(cache := TestTransaction(s, tx).state.cache, filter := TestTransaction(s, tx).state.filter)
  {
    var s1 := s.(filter := Test(s.filter, tx).1);
    assert Inv(s1, h);
    AddTransactionKeeps(s1, tx, h);
  }

  lemma {:induction false} TestsKeep(s: SessionState, txs: seq<Transaction>, h: Hash)
    requires Inv(s, h)
    ensures Inv(TestTransactions(s, txs).state, h)
    decreases txs
  {
    if txs != [] {
      TestKeeps(s, txs[0], h);
      TestsKeep(TestTransaction(s, txs[0]).state, txs[1..], h);
    }
  }

  lemma CountBlockKeeps(s: SessionState, h: Hash)
    requires Inv(s, h)
    ensures Inv(s.(cache := CountBlock(s.cache)), h)
  {
    var notes := ExpiryNotes(Overdue(s.cache));
    assert forall n :: n in notes ==> n.Expired?;
    assert notes[Expired(h)] == if h in Overdue(s.cache) then 1 else 0;
  }

  /** The notes of a removal, kind by kind. */
  lemma RemovalNotesCount(c: State, b: Block, h: Hash)
    ensures Count(c.transactions, UnsentTransaction(h))
            == Count(Keep(c.transactions, TxIds(b)), UnsentTransaction(h)) + RemovalNotes(c, b)[DroppedUnsent(h)]
    ensures Count(c.merkleBlocks, UnsentProof(h))
            == Count(WithoutProof(c.merkleBlocks, b.hash), UnsentProof(h)) + RemovalNotes(c, b)[ProofDroppedUnsent(h)]
    ensures forall n :: n in RemovalNotes(c, b) ==> n.DroppedUnsent? || n.ProofDroppedUnsent?
  {
    var m := LastIndex(ProofIds(c.merkleBlocks), b.hash);
    var txNotes, proofNotes := DropNotes(c.transactions, TxIds(b)), ProofDropNotes(c.merkleBlocks, m);
    KeepCount(c.transactions, TxIds(b), h);
    CountRemoveAt(c.merkleBlocks, m, UnsentProof(h));
    assert proofNotes[DroppedUnsent(h)] == 0 && txNotes[ProofDroppedUnsent(h)] == 0;
  }

  /** Removal settles the accounts of what it takes away. */
  lemma RemovalBalances(s: SessionState, b: Block, h: Hash)
    requires Balanced(s, h)
    ensures Balanced(s.(cache := RemoveDataByBlock(s.cache, b)), h)
  {
    RemovalNotesCount(s.cache, b, h);
    var notes := RemovalNotes(s.cache, b);
    assert notes[Appended(h)] == 0 && notes[ProofAppended(h)] == 0;
    assert notes[Registered(h)] == 0 && notes[Expired(h)] == 0;
  }

  lemma WithoutProofIds(ms: seq<MerkleEntry>, hash: Hash)
    ensures ProofIds(WithoutProof(ms, hash)) == RemoveAt(ProofIds(ms), LastIndex(ProofIds(ms), hash))
  {
    ProofIdsRemoveAt(ms, LastIndex(ProofIds(ms), hash));
  }

  lemma ProofIdsRemoveAt(ms: seq<MerkleEntry>, k: int)
    requires -1 <= k < |ms|
    ensures ProofIds(RemoveAt(ms, k)) == RemoveAt(ProofIds(ms), k)
  {
  }

  lemma WithoutBlockIds(bs: seq<Block>, hash: Hash)
    ensures BlockIds(WithoutBlock(bs, hash)) == RemoveAt(BlockIds(bs), LastIndex(BlockIds(bs), hash))
  {
    BlockIdsRemoveAt(bs, LastIndex(BlockIds(bs), hash));
  }

  lemma BlockIdsRemoveAt(bs: seq<Block>, k: int)
    requires -1 <= k < |bs|
    ensures BlockIds(RemoveAt(bs, k)) == RemoveAt(BlockIds(bs), k)
  {
  }

  lemma WithoutProofCount(ms: seq<MerkleEntry>, hash: Hash, h: Hash)
    ensures multiset(ProofIds(WithoutProof(ms, hash)))[h]
            == multiset(ProofIds(ms))[h] - if h == hash && hash in ProofIds(ms) then 1 else 0
  {
    WithoutProofIds(ms, hash);
    RemoveLastCount(ProofIds(ms), hash, h);
  }

  lemma WithoutBlockCount(bs: seq<Block>, hash: Hash, h: Hash)
    ensures multiset(BlockIds(WithoutBlock(bs, hash)))[h]
            == multiset(BlockIds(bs))[h] - if h == hash && hash in BlockIds(bs) then 1 else 0
  {
    WithoutBlockIds(bs, hash);
    RemoveLastCount(BlockIds(bs), hash, h);
  }

  lemma RemoveByHashKeeps(s: SessionState, hash: Hash, h: Hash)
    requires Inv(s, h)
    ensures Inv(s.(cache := RemoveDataByBlockHash(s.cache, hash)), h)
  {
    var found := FindBlock(s.cache.blocks, hash);
    if found.Some? {
      RemovalBalances(s, found.value, h);
      KeepDistinct(s.cache.transactions, TxIds(found.value));
      WithoutProofCount(s.cache.merkleBlocks, hash, h);
      WithoutBlockCount(s.cache.blocks, hash, h);
      var k :| 0 <= k < |s.cache.blocks| && s.cache.blocks[k] == found.value;
      assert BlockIds(s.cache.blocks)[k] == hash;
    }
  }

  lemma PushBalances(s: SessionState, b: Block, h: Hash)
    requires Balanced(s, h)
    ensures Balanced(s.(cache := PushBlock(s.cache, b)), h)
  {
    CountConcat(s.cache.merkleBlocks, [MerkleEntry(BuildMerkleBlock(s.cache, b), false)], UnsentProof(h));
  }

  lemma EvictBalances(s: SessionState, h: Hash)
    requires Balanced(s, h) && s.cache.blocks != []
    ensures Balanced(s.(cache := EvictFirst(s.cache)), h)
  {
    var s1 := s.(cache := s.cache.(blocks := s.cache.blocks[1..]));
    assert Balanced(s1, h);
    RemovalBalances(s1, s.cache.blocks[0], h);
  }

  lemma PushCovers(c: State, b: Block, h: Hash)
    requires ProofsCoverBlocks(c, h)
    ensures ProofsCoverBlocks(PushBlock(c, b), h)
  {
    assert BlockIds(PushBlock(c, b).blocks) == BlockIds(c.blocks) + [b.hash];
    assert ProofIds(PushBlock(c, b).merkleBlocks) == ProofIds(c.merkleBlocks) + [b.hash];
  }

  /** Eviction may take two equal blocks out, but never more blocks than proofs stay behind. */
  lemma EvictCovers(c: State, h: Hash)
    requires ProofsCoverBlocks(c, h) && c.blocks != []
    ensures ProofsCoverBlocks(EvictFirst(c), h)
  {
    var hash, c1 := c.blocks[0].hash, c.(blocks := c.blocks[1..]);
    assert BlockIds(c.blocks) == [hash] + BlockIds(c1.blocks);
    WithoutProofCount(c1.merkleBlocks, hash, h);
    WithoutBlockCount(c1.blocks, hash, h);
  }

  lemma StoreBlockKeeps(s: SessionState, b: Block, h: Hash)
    requires Inv(s, h)
    ensures Inv(s.(cache := StoreBlock(s.cache, b)), h)
  {
    var c := PushBlock(s.cache, b);
    PushBalances(s, b, h);
    PushCovers(s.cache, b, h);
    if |c.blocks| > CACHE_SIZE {
      EvictBalances(s.(cache := c), h);
      EvictCovers(c, h);
      KeepDistinct(c.transactions, TxIds(c.blocks[0]));
    }
  }

  lemma StoreNewBlockKeeps(s: SessionState, b: Block, h: Hash)
    requires Inv(s, h)
    ensures Inv(StoreNewBlock(s, b), h)
  {
    CountBlockKeeps(s, h);
    var s1 := s.(cache := CountBlock(s.cache));
    if HasMatch(s1.cache, b) {
      StoreBlockKeeps(s1, b, h);
    }
  }

  lemma OnBlockKeeps(s: SessionState, b: Block, h: Hash)
    requires Inv(s, h)
    ensures Inv(OnBlock(s, b).state, h)
  {
    var e := if |s.cache.blocks| == 0 then TestTransactions(s, b.transactions) else Effect(s, false);
    TestsKeep(s, b.transactions, h);
    if !e.threw {
      StoreNewBlockKeeps(e.state, b, h);
    }
  }

  lemma CollectingKeeps(s: SessionState, lock: InstantLock, tx: Transaction, h: Hash)
    requires Inv(s, h) && s.lockListeners == [Collecting]
    ensures Inv(OnLock(s, Collecting, lock, tx).state, h)
  {
    PutLockCount(s.cache.locks, lock, h);
  }

  lemma ForwardingKeeps(s: SessionState, lock: InstantLock, tx: Transaction, h: Hash)
    requires Inv(s, h) && s.lockListeners == [Forwarding]
    ensures Inv(OnLock(s, Forwarding, lock, tx).state, h)
  {
    SentCounts(s, [LockMsg(lock, false)], h);
  }

  lemma LockEventKeeps(s: SessionState, lock: InstantLock, tx: Transaction, h: Hash)
    requires Inv(s, h)
    ensures Inv(CallLockListeners(s, s.lockListeners, lock, tx).state, h)
  {
    if s.lockListeners != [] {
      assert s.lockListeners[1..] == [];
      if s.lockListeners[0].Collecting? {
        CollectingKeeps(s, lock, tx, h);
      } else {
        ForwardingKeeps(s, lock, tx, h);
      }
    }
  }

  // ----- the drain loop -----

  /** Everything but the phase, which the drain loop leaves to its caller. */
  ghost predicate Accounts(s: SessionState, h: Hash) {
    && Balanced(s, h) && CollectedOnce(s, h)
    && ProofsCoverBlocks(s.cache, h) && |s.cache.blocks| <= CACHE_SIZE
    && Distinct(s.cache.transactions) && InWindow(s.cache, h)
  }

  lemma DrainTransactionsKeeps(s: SessionState, h: Hash)
    requires Accounts(s, h)
    ensures Accounts(DrainTransactions(s), h)
  {
    var more := TransactionMsgs(UnretrievedTransactions(s.cache.transactions));
    SentCounts(s, more, h);
    UnretrievedCount(s.cache.transactions, h);
    TransactionMsgsOnly(UnretrievedTransactions(s.cache.transactions), h);
    TakenTransactions(s.cache, h);
  }

  lemma TransactionMsgsOnly(txs: seq<Transaction>, h: Hash)
    ensures Count(TransactionMsgs(txs), ProofOf(h)) == 0
    ensures Count(TransactionMsgs(txs), LockOf(h, true)) == 0
    ensures Count(TransactionMsgs(txs), LockOf(h, false)) == 0
  {
    CountNone(TransactionMsgs(txs), ProofOf(h));
    CountNone(TransactionMsgs(txs), LockOf(h, true));
    CountNone(TransactionMsgs(txs), LockOf(h, false));
  }

  lemma TakenTransactions(c: State, h: Hash)
    ensures Count(TakeTransactions(c).transactions, UnsentTransaction(h)) == 0
    ensures EntryIds(TakeTransactions(c).transactions) == EntryIds(c.transactions)
  {
    CountNone(TakeTransactions(c).transactions, UnsentTransaction(h));
  }

  lemma DrainLocksKeeps(s: SessionState, h: Hash)
    requires Accounts(s, h)
    ensures Accounts(DrainLocks(s), h)
  {
    var more := LockMsgs(s.cache.locks, s.cache.waiting.Keys);
    SentCounts(s, more, h);
    LockMsgsCount(s.cache.locks, s.cache.waiting.Keys, h);
    CountNone(more, TransactionOf(h));
    CountNone(more, ProofOf(h));
    CountNone(more, LockOf(h, false));
  }

  lemma DrainProofsKeeps(s: SessionState, h: Hash)
    requires Accounts(s, h)
    ensures Accounts(DrainProofs(s), h)
  {
    var more := ProofMsgs(UnretrievedMerkleBlocks(s.cache.merkleBlocks));
    SentCounts(s, more, h);
    UnretrievedProofCount(s.cache.merkleBlocks, h);
    CountNone(TakeMerkleBlocks(s.cache).merkleBlocks, UnsentProof(h));
    CountNone(more, TransactionOf(h));
    CountNone(more, LockOf(h, true));
    CountNone(more, LockOf(h, false));
    assert ProofIds(TakeMerkleBlocks(s.cache).merkleBlocks) == ProofIds(s.cache.merkleBlocks);
  }

  lemma DrainKeeps(s: SessionState, h: Hash)
    requires Accounts(s, h)
    ensures Accounts(DrainProofs(DrainLocks(DrainTransactions(s))), h)
  {
    DrainTransactionsKeeps(s, h);
    DrainLocksKeeps(DrainTransactions(s), h);
    DrainProofsKeeps(DrainLocks(DrainTransactions(s)), h);
  }

  lemma TurnLoopKeeps(s: SessionState, h: Hash)
    requires Accounts(s, h)
    ensures Accounts(TurnLoop(s), h)
  {
    DrainKeeps(s, h);
    var d := DrainProofs(DrainLocks(DrainTransactions(s)));
    assert Accounts(d.(looping := true), h);
  }

  lemma StartForwardingKeeps(s: SessionState, h: Hash)
    requires Inv(s, h) && s.mempoolListenerArmed
    ensures Inv(TurnLoop(StartForwarding(s)), h)
  {
    var s1 := StartForwarding(s);
    assert s1.lockListeners == [Forwarding];
    assert Accounts(s1, h);
    TurnLoopKeeps(s1, h);
  }

  lemma LoopTurnKeeps(s: SessionState, h: Hash)
    requires Inv(s, h)
    ensures Inv(Step(s, LoopTurn).state, h)
  {
    if s.looping {
      TurnLoopKeeps(s, h);
    }
  }

  lemma DisconnectKeeps(s: SessionState, h: Hash)
    requires Inv(s, h)
    ensures Inv(Step(s, ClientDisconnected).state, h)
  {
    assert Accounts(s, h);
  }

  // ----- every step, every run -----

  lemma StepKeeps(s: SessionState, e: Event, h: Hash)
    requires Inv(s, h)
    ensures Inv(Step(s, e).state, h)
  {
    match e
    case NewTransaction(tx) => if s.subscribed { TestKeeps(s, tx, h); }
    case NewBlock(b) => if s.subscribed { OnBlockKeeps(s, b, h); }
    case NewInstantLock(lock, tx) => LockEventKeeps(s, lock, tx, h);
    case HistoricalBlockSent(hash) => if s.subscribed { RemoveByHashKeeps(s, hash, h); }
    case MempoolDataSent => if s.mempoolListenerArmed { StartForwardingKeeps(s, h); }
    case LoopTurn => LoopTurnKeeps(s, h);
    case ClientDisconnected => DisconnectKeeps(s, h);
  }

  lemma {:induction false} RunKeeps(s: SessionState, es: seq<Event>, h: Hash)
    requires Inv(s, h)
    ensures Inv(Run(s, es), h)
    decreases es
  {
    if es != [] {
      StepKeeps(s, es[0], h);
      RunKeeps(Step(s, es[0]).state, es[1..], h);
    }
  }

  lemma Starts(f: Filter, h: Hash)
    ensures Inv(Subscribe(f), h)
  {
  }

  lemma Reachable(f: Filter, es: seq<Event>, h: Hash)
    ensures Inv(Run(Subscribe(f), es), h)
  {
    Starts(f, h);
    RunKeeps(Subscribe(f), es, h);
  }
}
