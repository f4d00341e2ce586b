/** What the invariants say about the messages a client receives, over every run of a session. */
module SessionTheorems {
  import opened Common
  import opened BloomFilters
  import opened CacheValues
  import opened SessionValues
  import opened Counting
  import opened SessionInvariants

  /** In every run, each append of a transaction is one delivery, one undelivered removal, or still pending. */
  lemma TransactionsConserved(f: Filter, es: seq<Event>, h: Hash)
    ensures var s := Run(Subscribe(f), es);
            && Distinct(s.cache.transactions)
            && s.cache.history[Appended(h)]
               == Count(s.sent, TransactionOf(h)) + s.cache.history[DroppedUnsent(h)]
                  + if exists e :: e in s.cache.transactions && e.transaction.hash == h && !e.isRetrieved then 1 else 0
  {
    Reachable(f, es, h);
    DistinctCount(Run(Subscribe(f), es).cache.transactions, h);
  }

  /**
   * In every run, registrations in the waiting list are forwarded locks, expiries, or still open;
   * the collected locks add at most one more lock message per transaction.
   */
  lemma LocksConserved(f: Filter, es: seq<Event>, h: Hash)
    ensures var s := Run(Subscribe(f), es);
            && LockBalance(s, h)
            && Count(s.sent, LockOf(h, true)) <= 1
            && Count(s.sent, LockOf(h, false)) + Count(s.sent, LockOf(h, true)) <= s.cache.history[Registered(h)] + 1
  {
    Reachable(f, es, h);
  }

  /** In every run, re-deliveries included, no hash has more cached blocks than cached merkle blocks. */
  lemma BlocksNeverOutnumberProofs(f: Filter, es: seq<Event>, h: Hash)
    ensures var c := Run(Subscribe(f), es).cache;
            && multiset(BlockIds(c.blocks))[h] <= multiset(ProofIds(c.merkleBlocks))[h]
            && |c.blocks| <= CACHE_SIZE
  {
    Reachable(f, es, h);
  }

  // ----- phases -----

  /** In every phase a lock reaches the one attached listener, or none. */
  lemma LockReaches(s: SessionState, lock: InstantLock, tx: Transaction)
    requires Phased(s)
    ensures CallLockListeners(s, s.lockListeners, lock, tx)
            == if s.lockListeners == [] then Effect(s, false) else OnLock(s, s.lockListeners[0], lock, tx)
  {
    if s.lockListeners != [] {
      assert s.lockListeners[1..] == [];
      var e := OnLock(s, s.lockListeners[0], lock, tx);
      assert CallLockListeners(e.state, [], lock, tx) == Effect(e.state, false);
    }
  }

  /** While the client is subscribed exactly one listener, the one of the current phase, gets each lock. */
  lemma OneLockListener(f: Filter, es: seq<Event>, lock: InstantLock, tx: Transaction)
    ensures var s := Run(Subscribe(f), es);
            Step(s, NewInstantLock(lock, tx))
            == if s.subscribed
               then OnLock(s, if s.mempoolListenerArmed then Collecting else Forwarding, lock, tx)
               else Effect(s, false)
  {
    Reachable(f, es, lock.txid);
    LockReaches(Run(Subscribe(f), es), lock, tx);
  }

  /** What one step does to the phase. */
  lemma StepPhase(s: SessionState, e: Event)
    requires Phased(s)
    ensures var t := Step(s, e).state;
            && t.subscribed == (s.subscribed && e != ClientDisconnected)
            && t.mempoolListenerArmed
               == (s.mempoolListenerArmed && e != MempoolDataSent && e != ClientDisconnected)
  {
    match e
    case NewTransaction(tx) =>
    case NewBlock(b) => TestsTouchOnlyCacheAndFilter(s, b.transactions);
    case NewInstantLock(lock, tx) => LockReaches(s, lock, tx);
    case HistoricalBlockSent(hash) =>
    case MempoolDataSent =>
    case LoopTurn =>
    case ClientDisconnected =>
  }

  lemma {:induction false} RunPhase(s: SessionState, es: seq<Event>)
    requires Inv(s, [])
    ensures var t := Run(s, es);
            && t.subscribed == (s.subscribed && ClientDisconnected !in es)
            && t.mempoolListenerArmed
               == (s.mempoolListenerArmed && MempoolDataSent !in es && ClientDisconnected !in es)
    decreases es
  {
    if es != [] {
      StepPhase(s, es[0]);
      StepKeeps(s, es[0], []);
      RunPhase(Step(s, es[0]).state, es[1..]);
      assert es == [es[0]] + es[1..];
    }
  }

  /** A session hears broadcasts until its client disconnects, and collects until the mempool data have been sent. */
  lemma PhaseByEvents(f: Filter, es: seq<Event>)
    ensures var s := Run(Subscribe(f), es);
            && (s.subscribed <==> ClientDisconnected !in es)
            && (s.mempoolListenerArmed <==> ClientDisconnected !in es && MempoolDataSent !in es)
  {
    Starts(f, []);
    RunPhase(Subscribe(f), es);
  }

  /** A step other than "mempool data sent" leaves a collecting session silent. */
  lemma {:induction false} SilentWhileCollecting(s: SessionState, es: seq<Event>)
    requires Phased(s) && (s.mempoolListenerArmed || !s.subscribed) && !s.looping && s.sent == []
    requires MempoolDataSent !in es
    ensures Run(s, es).sent == []
    decreases es
  {
    if es != [] {
      var t := Step(s, es[0]).state;
      assert es[0] in es;
      match es[0] {
        case NewTransaction(tx) =>
        case NewBlock(b) => TestsTouchOnlyCacheAndFilter(s, b.transactions);
        case NewInstantLock(lock, tx) => LockReaches(s, lock, tx);
        case HistoricalBlockSent(hash) =>
        case MempoolDataSent =>
        case LoopTurn =>
        case ClientDisconnected =>
      }
      assert forall e :: e in es[1..] ==> e in es;
      SilentWhileCollecting(t, es[1..]);
    }
  }

  /** Nothing live reaches the client before the historical and mempool data have been sent. */
  lemma NothingBeforeMempoolDataSent(f: Filter, es: seq<Event>)
    requires MempoolDataSent !in es
    ensures Run(Subscribe(f), es).sent == []
  {
    SilentWhileCollecting(Subscribe(f), es);
  }

  /** `d` is `c` with transactions added: nothing is forgotten, and no block is counted. */
  ghost predicate Grown(c: State, d: State) {
    && d == c.(transactions := d.transactions, waiting := d.waiting, history := d.history)
    && c.history <= d.history
    && forall h :: h in c.waiting ==> h in d.waiting && d.waiting[h] == c.waiting[h]
  }

  lemma AddTransactionGrows(c: State, tx: Transaction)
    ensures Grown(c, AddTransaction(c, tx))
  {
  }

  lemma GrownTransitive(c: State, d: State, e: State)
    requires Grown(c, d) && Grown(d, e)
    ensures Grown(c, e)
  {
  }

  lemma {:induction false} TestsTouchOnlyCacheAndFilter(s: SessionState, txs: seq<Transaction>)
    ensures var t := TestTransactions(s, txs).state;
            t == s.(cache := t.cache, filter := t.filter) && Grown(s.cache, t.cache)
    decreases txs
  {
    if txs != [] {
      var s1 := TestTransaction(s, txs[0]).state;
      AddTransactionGrows(s.cache, txs[0]);
      TestsTouchOnlyCacheAndFilter(s1, txs[1..]);
      GrownTransitive(s.cache, s1.cache, TestTransactions(s1, txs[1..]).state.cache);
    }
  }

  /** A disconnected session neither sends nor changes its cache or filter, whatever arrives. */
  lemma {:induction false} SilentAfterDisconnect(s: SessionState, es: seq<Event>)
    requires Phased(s) && !s.subscribed
    ensures Run(s, es) == s.(looping := Run(s, es).looping)
    decreases es
  {
    if es != [] {
      SilentAfterDisconnect(Step(s, es[0]).state, es[1..]);
    }
  }

  /** From any reachable state, disconnecting freezes what was sent, the cache and the filter. */
  lemma DisconnectIsFinal(f: Filter, es: seq<Event>, later: seq<Event>)
    ensures var s := Run(Subscribe(f), es);
            var t := Run(Subscribe(f), es + [ClientDisconnected] + later);
            t.sent == s.sent && t.cache == s.cache && t.filter == s.filter
  {
    var s := Run(Subscribe(f), es);
    Reachable(f, es, []);
    RunConcat(Subscribe(f), es + [ClientDisconnected], later);
    RunConcat(Subscribe(f), es, [ClientDisconnected]);
    assert [ClientDisconnected][1..] == [];
    SilentAfterDisconnect(Step(s, ClientDisconnected).state, later);
  }

  // ----- the waiting list -----

  /** The messages of one turn of the drain loop. */
  function Drained(s: SessionState): seq<Message> {
    TransactionMsgs(UnretrievedTransactions(s.cache.transactions))
    + LockMsgs(s.cache.locks, s.cache.waiting.Keys)
    + ProofMsgs(UnretrievedMerkleBlocks(s.cache.merkleBlocks))
  }

  lemma TurnLoopAppends(s: SessionState)
    ensures TurnLoop(s).sent == s.sent + if s.isClientConnected then Drained(s) else []
  {
    var a := TransactionMsgs(UnretrievedTransactions(s.cache.transactions));
    var b := LockMsgs(s.cache.locks, s.cache.waiting.Keys);
    var c := ProofMsgs(UnretrievedMerkleBlocks(s.cache.merkleBlocks));
    assert s.sent + a + b + c == s.sent + (a + b + c);
  }

  /** A step never takes back what was sent. */
  lemma StepSends(s: SessionState, e: Event)
    requires Phased(s)
    ensures s.sent <= Step(s, e).state.sent
  {
    match e
    case NewTransaction(tx) =>
    case NewBlock(b) => TestsTouchOnlyCacheAndFilter(s, b.transactions);
    case NewInstantLock(lock, tx) => LockReaches(s, lock, tx);
    case HistoricalBlockSent(hash) =>
    case MempoolDataSent => TurnLoopAppends(StartForwarding(s));
    case LoopTurn => TurnLoopAppends(s);
    case ClientDisconnected =>
  }

  /** The drained locks are all collected ones, and still waited for. */
  lemma DrainedLocks(s: SessionState, m: Message)
    requires m in Drained(s) && m.LockMsg?
    ensures m.collected && m.lock.txid in s.cache.waiting
  {
    LockMsgsCount(s.cache.locks, s.cache.waiting.Keys, m.lock.txid);
  }

  /** One turn of the loop forwards no lock and leaves the waiting list alone. */
  lemma TurnLoopSends(s: SessionState, h: Hash)
    ensures TurnLoop(s).cache
            == s.cache.(transactions := TurnLoop(s).cache.transactions,
                        merkleBlocks := TurnLoop(s).cache.merkleBlocks, locks := TurnLoop(s).cache.locks)
    ensures Count(TurnLoop(s).sent, LockOf(h, false)) == Count(s.sent, LockOf(h, false))
  {
    TurnLoopAppends(s);
    if s.isClientConnected {
      SentCounts(s, Drained(s), h);
      forall m | m in Drained(s) ensures !LockOf(h, false)(m) {
        if m.LockMsg? {
          DrainedLocks(s, m);
        }
      }
      CountNone(Drained(s), LockOf(h, false));
    }
  }

  /** What one step can do to an open registration: nothing, expire it, or forward its lock. */
  ghost predicate WaitingStep(s: SessionState, t: SessionState, h: Hash) {
    && s.cache.blocksProcessed <= t.cache.blocksProcessed <= s.cache.blocksProcessed + 1
    && Count(s.sent, LockOf(h, false)) <= Count(t.sent, LockOf(h, false))
    && s.cache.history <= t.cache.history
    && (h in s.cache.waiting ==>
          || (h in t.cache.waiting && t.cache.waiting[h] == s.cache.waiting[h])
          || (t.cache.blocksProcessed == s.cache.blocksProcessed + 1
              && s.cache.waiting[h] + BLOCKS_TO_STAY_IN_INSTANT_LOCK_CACHE < t.cache.blocksProcessed)
          || Count(s.sent, LockOf(h, false)) < Count(t.sent, LockOf(h, false)))
  }

  /** Processing a block counts it and expires exactly what is overdue; the rest is untouched by it. */
  lemma AddBlockCounts(c: State, b: Block)
    ensures var d := AddBlock(c, b);
            d.blocksProcessed == c.blocksProcessed + 1 && d.waiting == c.waiting - Overdue(c) && c.history <= d.history
  {
    var c1 := CountBlock(c);
    assert c.history <= c1.history <= PushBlock(c1, b).history;
  }

  lemma GrownWaiting(s: SessionState, t: SessionState, h: Hash)
    requires Grown(s.cache, t.cache) && t.sent == s.sent
    ensures WaitingStep(s, t, h)
  {
  }

  lemma StoredWaiting(s: SessionState, t: SessionState, b: Block, h: Hash)
    requires Grown(s.cache, t.cache) && t.sent == s.sent
    ensures WaitingStep(s, StoreNewBlock(t, b), h)
  {
    AddBlockCounts(t.cache, b);
  }

  lemma BlockWaiting(s: SessionState, b: Block, h: Hash)
    ensures WaitingStep(s, OnBlock(s, b).state, h)
  {
    TestsTouchOnlyCacheAndFilter(s, b.transactions);
    var e := if |s.cache.blocks| == 0 then TestTransactions(s, b.transactions) else Effect(s, false);
    GrownWaiting(s, e.state, h);
    StoredWaiting(s, e.state, b, h);
  }

  lemma LockWaiting(s: SessionState, lock: InstantLock, tx: Transaction, h: Hash)
    requires Phased(s)
    ensures WaitingStep(s, CallLockListeners(s, s.lockListeners, lock, tx).state, h)
  {
    LockReaches(s, lock, tx);
    SentCounts(s, [LockMsg(lock, false)], h);
  }

  lemma TestWaiting(s: SessionState, tx: Transaction, h: Hash)
    ensures WaitingStep(s, TestTransaction(s, tx).state, h)
  {
    AddTransactionGrows(s.cache, tx);
  }

  lemma RemovalWaiting(s: SessionState, hash: Hash, h: Hash)
    ensures WaitingStep(s, s.(cache := RemoveDataByBlockHash(s.cache, hash)), h)
  {
  }

  lemma StepWaiting(s: SessionState, e: Event, h: Hash)
    requires Phased(s)
    ensures WaitingStep(s, Step(s, e).state, h)
  {
    match e
    case NewTransaction(tx) => TestWaiting(s, tx, h);
    case NewBlock(b) => BlockWaiting(s, b, h);
    case NewInstantLock(lock, tx) => LockWaiting(s, lock, tx, h);
    case HistoricalBlockSent(hash) => RemovalWaiting(s, hash, h);
    case MempoolDataSent => TurnLoopSends(StartForwarding(s), h);
    case LoopTurn => TurnLoopSends(s, h);
    case ClientDisconnected =>
  }

  /**
   * A registration that no forwarded lock closes survives, with its original count, every run that
   * processes no more than ten blocks after it; adding the transaction again changes nothing.
   */
  lemma {:induction false} WaitsTenBlocks(s: SessionState, es: seq<Event>, h: Hash)
    requires Inv(s, h) && h in s.cache.waiting
    requires Run(s, es).cache.blocksProcessed <= s.cache.waiting[h] + BLOCKS_TO_STAY_IN_INSTANT_LOCK_CACHE
    requires Count(Run(s, es).sent, LockOf(h, false)) == Count(s.sent, LockOf(h, false))
    ensures h in Run(s, es).cache.waiting && Run(s, es).cache.waiting[h] == s.cache.waiting[h]
    decreases es
  {
    if es != [] {
      var t := Step(s, es[0]).state;
      StepWaiting(s, es[0], h);
      StepKeeps(s, es[0], h);
      RunGrows(t, es[1..], h);
      WaitsTenBlocks(t, es[1..], h);
    }
  }

  lemma {:induction false} RunGrows(s: SessionState, es: seq<Event>, h: Hash)
    requires Inv(s, h)
    ensures s.cache.blocksProcessed <= Run(s, es).cache.blocksProcessed
    ensures Count(s.sent, LockOf(h, false)) <= Count(Run(s, es).sent, LockOf(h, false))
    ensures s.cache.history <= Run(s, es).cache.history
    decreases es
  {
    if es != [] {
      StepWaiting(s, es[0], h);
      StepKeeps(s, es[0], h);
      RunGrows(Step(s, es[0]).state, es[1..], h);
    }
  }

  /** The block that is the eleventh after a registration ends it, and no earlier one does. */
  lemma ExpiresAtEleventhBlock(s: SessionState, b: Block, h: Hash)
    requires s.subscribed && h in s.cache.waiting && !Step(s, NewBlock(b)).threw
    ensures var t := Step(s, NewBlock(b)).state;
            && t.cache.blocksProcessed == s.cache.blocksProcessed + 1
            && (h in t.cache.waiting
                <==> t.cache.blocksProcessed - s.cache.waiting[h] <= BLOCKS_TO_STAY_IN_INSTANT_LOCK_CACHE)
            && (h in t.cache.waiting ==> t.cache.waiting[h] == s.cache.waiting[h])
  {
    TestsTouchOnlyCacheAndFilter(s, b.transactions);
    var e := if |s.cache.blocks| == 0 then TestTransactions(s, b.transactions) else Effect(s, false);
    AddBlockCounts(e.state.cache, b);
  }

  lemma TurnLoopLock(s: SessionState, k: nat)
    requires |s.sent| <= k < |TurnLoop(s).sent| && TurnLoop(s).sent[k].LockMsg?
    ensures TurnLoop(s).sent[k].lock.txid in s.cache.waiting
  {
    TurnLoopAppends(s);
    assert TurnLoop(s).sent[k] == Drained(s)[k - |s.sent|];
    DrainedLocks(s, TurnLoop(s).sent[k]);
  }

  lemma SentLockWaits(s: SessionState, e: Event, k: nat)
    requires Phased(s) && |s.sent| <= k < |Step(s, e).state.sent| && Step(s, e).state.sent[k].LockMsg?
    ensures Step(s, e).state.sent[k].lock.txid in s.cache.waiting
  {
    match e
    case NewTransaction(tx) =>
    case NewBlock(b) => TestsTouchOnlyCacheAndFilter(s, b.transactions);
    case NewInstantLock(lock, tx) => LockReaches(s, lock, tx);
    case HistoricalBlockSent(hash) =>
    case MempoolDataSent => TurnLoopLock(StartForwarding(s), k);
    case LoopTurn => TurnLoopLock(s, k);
    case ClientDisconnected =>
  }

  /** Every lock sent, from either source, is for a transaction registered within the last ten blocks. */
  lemma SentLocksAreRecent(f: Filter, es: seq<Event>, e: Event, k: nat)
    requires var s := Run(Subscribe(f), es);
             |s.sent| <= k < |Step(s, e).state.sent| && Step(s, e).state.sent[k].LockMsg?
    ensures var c, m := Run(Subscribe(f), es).cache, Step(Run(Subscribe(f), es), e).state.sent[k];
            m.lock.txid in c.waiting
            && c.blocksProcessed - BLOCKS_TO_STAY_IN_INSTANT_LOCK_CACHE <= c.waiting[m.lock.txid] <= c.blocksProcessed
  {
    var s := Run(Subscribe(f), es);
    Reachable(f, es, Step(s, e).state.sent[k].lock.txid);
    SentLockWaits(s, e, k);
  }
}
