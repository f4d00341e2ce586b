/** The subscription itself: its filter and cache objects, its listeners and its drain loop. */
module Session {
  import opened Common
  import opened BloomFilters
  import opened CacheValues
  import opened SessionValues
  import opened Cache

  class LiveSession {
    const filter: BloomFilter
    const cache: TransactionHashesCache
    var isClientConnected: bool
    var subscribed: bool
    var lockListeners: seq<LockListener>
    var mempoolListenerArmed: bool
    var looping: bool
    var sent: seq<Message>

    constructor (filter: BloomFilter)
      ensures this.filter == filter && fresh(cache)
      ensures Value() == SessionValues.Subscribe(filter.Value())
    {
      this.filter := filter;
      cache := new TransactionHashesCache();
      isClientConnected, subscribed, mempoolListenerArmed, looping := true, true, true, false;
      lockListeners, sent := [Collecting], [];
    }

    ghost function Repr(): set<object> {
      {this, filter, cache}
    }

    ghost function Value(): SessionState
      reads Repr()
    {
      SessionState(cache.Value(), filter.Value(), isClientConnected, subscribed, lockListeners,
                   mempoolListenerArmed, looping, sent)
    }

    /** The emitter's `test`, with the listener of the match event. */
    method TestTransaction(tx: Transaction) returns (threw: bool)
      modifies filter, cache
      ensures Effect(Value(), threw) == SessionValues.TestTransaction(old(Value()), tx)
    {
      var v := TestTransactionAgainstFilter(filter, tx);
      if v.Match? {
        var _ := cache.AddTransaction(tx);
      }
      return v.Throws?;
    }

    method OnNewTransaction(tx: Transaction) returns (threw: bool)
      modifies Repr()
      ensures Effect(Value(), threw) == Step(old(Value()), NewTransaction(tx))
    {
      threw := false;
      if subscribed {
        threw := TestTransaction(tx);
      }
    }

    method OnNewBlock(block: Block) returns (threw: bool)
      modifies Repr()
      ensures Effect(Value(), threw) == Step(old(Value()), NewBlock(block))
    {
      if !subscribed {
        return false;
      }
      var count := cache.GetBlockCount();
      if count == 0 {
        ghost var s := Value();
        for i := 0 to |block.transactions|
          invariant Value() == s.(cache := Value().cache, filter := Value().filter)
          invariant SessionValues.TestTransactions(s, block.transactions)
                    == SessionValues.TestTransactions(Value(), block.transactions[i..])
        {
          assert block.transactions[i..][1..] == block.transactions[i + 1..];
          threw := TestTransaction(block.transactions[i]);
          if threw {
            return true;
          }
        }
      }
      cache.AddBlock(block);
      return false;
    }

    method CallLockListener(listener: LockListener, lock: InstantLock, tx: Transaction) returns (threw: bool)
      modifies Repr()
      ensures Effect(Value(), threw) == OnLock(old(Value()), listener, lock, tx)
    {
      threw := false;
      match listener
      case Collecting =>
        var v := TestTransactionAgainstFilter(filter, tx);
        if v.Match? {
          cache.AddInstantLock(lock);
        }
        threw := v.Throws?;
      case Forwarding =>
        if cache.IsInInstantLockCache(lock.txid) {
          cache.RemoveTransactionHashFromInstantSendLockWaitingList(lock.txid);
          sent := sent + [LockMsg(lock, false)];
        }
    }

    method OnNewInstantLock(lock: InstantLock, tx: Transaction) returns (threw: bool)
      modifies Repr()
      ensures Effect(Value(), threw) == Step(old(Value()), NewInstantLock(lock, tx))
    {
      var ls := lockListeners;
      for i := 0 to |ls|
        invariant CallLockListeners(old(Value()), ls, lock, tx) == CallLockListeners(Value(), ls[i..], lock, tx)
      {
        assert ls[i..][1..] == ls[i + 1..];
        threw := CallLockListener(ls[i], lock, tx);
        if threw {
          return true;
        }
      }
      return false;
    }

    method OnHistoricalBlockSent(blockHash: Hash)
      modifies Repr()
      ensures Effect(Value(), false) == Step(old(Value()), HistoricalBlockSent(blockHash))
    {
      if subscribed {
        cache.RemoveDataByBlockHash(blockHash);
      }
    }

    method SendTransactions()
      modifies cache, this`sent
      ensures Value() == DrainTransactions(old(Value()))
    {
      var unsent := cache.GetUnretrievedTransactions();
      ghost var s := Value();
      for i := 0 to |unsent|
        modifies this`sent
        invariant sent == s.sent + TransactionMsgs(unsent)[..i]
      {
        sent := sent + [TransactionMsg(unsent[i])];
      }
    }

    method SendLocks()
      modifies cache, this`sent
      ensures Value() == DrainLocks(old(Value()))
    {
      var locks := cache.GetUnretrievedInstantLocks();
      ghost var s := Value();
      for i := 0 to |locks|
        modifies this`sent
        invariant sent + LockMsgs(locks[i..], s.cache.waiting.Keys)
                  == s.sent + LockMsgs(locks, s.cache.waiting.Keys)
      {
        assert locks[i..][1..] == locks[i + 1..];
        if cache.IsInInstantLockCache(locks[i].txid) {
          sent := sent + [LockMsg(locks[i], true)];
        }
      }
    }

    method SendProofs()
      modifies cache, this`sent
      ensures Value() == DrainProofs(old(Value()))
    {
      var unsent := cache.GetUnretrievedMerkleBlocks();
      ghost var s := Value();
      for i := 0 to |unsent|
        modifies this`sent
        invariant sent == s.sent + ProofMsgs(unsent)[..i]
      {
        sent := sent + [ProofMsg(unsent[i])];
      }
    }

    method TurnLoop()
      modifies Repr()
      ensures Value() == SessionValues.TurnLoop(old(Value()))
    {
      looping := isClientConnected;
      if isClientConnected {
        SendTransactions();
        SendLocks();
        SendProofs();
      }
    }

    method OnMempoolDataSent()
      modifies Repr()
      ensures Effect(Value(), false) == Step(old(Value()), MempoolDataSent)
    {
      if mempoolListenerArmed {
        mempoolListenerArmed := false;
        lockListeners := RemoveAt(lockListeners, LastIndex(lockListeners, Collecting)) + [Forwarding];
        TurnLoop();
      }
    }

    /** The loop wakes from its wait. */
    method OnLoopTurn()
      modifies Repr()
      ensures Effect(Value(), false) == Step(old(Value()), LoopTurn)
    {
      if looping {
        TurnLoop();
      }
    }

    method OnClientDisconnected()
      modifies Repr()
      ensures Effect(Value(), false) == Step(old(Value()), ClientDisconnected)
    {
      if subscribed {
        isClientConnected, subscribed, mempoolListenerArmed, lockListeners := false, false, false, [];
      }
    }
  }
}
