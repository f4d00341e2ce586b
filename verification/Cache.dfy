/** The cache object, updated in place: each method is proved against its operation on values. */
module Cache {
  import opened Common
  import opened BloomFilters
  import opened CacheValues

  // The state of the retrieval loops: what they have marked, and what is left to collect.

  ghost function MarkedUpToTransactions(ts: seq<TxEntry>, n: nat): seq<TxEntry> {
    seq(|ts|, i requires 0 <= i < |ts| => if i < n then ts[i].(isRetrieved := true) else ts[i])
  }

  ghost function MarkedUpToMerkleBlocks(ms: seq<MerkleEntry>, n: nat): seq<MerkleEntry> {
    seq(|ms|, i requires 0 <= i < |ms| => if i < n then ms[i].(isRetrieved := true) else ms[i])
  }

  lemma UnretrievedTransactionsStep(ts: seq<TxEntry>, i: nat)
    requires i < |ts|
    ensures UnretrievedTransactions(ts[i..])
            == (if ts[i].isRetrieved then [] else [ts[i].transaction]) + UnretrievedTransactions(ts[i + 1..])
    ensures MarkedUpToTransactions(ts, i)[i] == ts[i]
    ensures MarkedUpToTransactions(ts, i + 1) == MarkedUpToTransactions(ts, i)[i := ts[i].(isRetrieved := true)]
  {
    assert ts[i..][1..] == ts[i + 1..];
  }

  lemma UnretrievedMerkleBlocksStep(ms: seq<MerkleEntry>, i: nat)
    requires i < |ms|
    ensures UnretrievedMerkleBlocks(ms[i..])
            == (if ms[i].isRetrieved then [] else [ms[i].merkleBlock]) + UnretrievedMerkleBlocks(ms[i + 1..])
    ensures MarkedUpToMerkleBlocks(ms, i)[i] == ms[i]
    ensures MarkedUpToMerkleBlocks(ms, i + 1) == MarkedUpToMerkleBlocks(ms, i)[i := ms[i].(isRetrieved := true)]
  {
    assert ms[i..][1..] == ms[i + 1..];
  }

  /** One turn of the backward removal loop, with `now` the transactions it finds. */
  lemma KeepStep(ts: seq<TxEntry>, i: nat, drop: set<Hash>, now: seq<TxEntry>)
    requires i < |ts| && now == ts[..i + 1] + Keep(ts[i + 1..], drop)
    ensures now[i] == ts[i]
    ensures (if ts[i].transaction.hash in drop then now[..i] + now[i + 1..] else now)
            == ts[..i] + Keep(ts[i..], drop)
  {
    assert ts[i..][1..] == ts[i + 1..];
    assert now[i + 1..] == Keep(ts[i + 1..], drop);
  }

  /** The lock goes to the first place of its txid, or to the end. */
  lemma {:induction false} PutLockAt(locks: seq<InstantLock>, lock: InstantLock, i: nat)
    requires i <= |locks| && forall k :: 0 <= k < i ==> locks[k].txid != lock.txid
    requires i < |locks| ==> locks[i].txid == lock.txid
    ensures PutLock(locks, lock) == if i < |locks| then locks[i := lock] else locks + [lock]
    decreases locks
  {
    if i > 0 {
      PutLockAt(locks[1..], lock, i - 1);
    }
  }

  class TransactionHashesCache {
    var transactions: seq<TxEntry>
    var merkleBlocks: seq<MerkleEntry>
    var blocks: seq<Block>
    var transactionHashesMap: map<Hash, nat>
    var blocksProcessed: nat
    var unretrievedInstantLocks: seq<InstantLock>
    ghost var history: multiset<Note>

    constructor ()
      ensures Value() == EMPTY
    {
      transactions, merkleBlocks, blocks := [], [], [];
      transactionHashesMap, blocksProcessed, unretrievedInstantLocks := map[], 0, [];
      history := multiset{};
    }

    ghost function Value(): State
      reads this
    {
      State(transactions, merkleBlocks, blocks, transactionHashesMap, blocksProcessed,
            unretrievedInstantLocks, history)
    }

    predicate IsInInstantLockCache(hash: Hash)
      reads this
      ensures IsInInstantLockCache(hash) <==> hash in Value().waiting
    {
      hash in transactionHashesMap
    }

    method HasTransaction(hash: Hash) returns (r: bool)
      ensures r <==> hash in TxHashes(transactions)
    {
      for i := 0 to |transactions|
        invariant forall k :: 0 <= k < i ==> transactions[k].transaction.hash != hash
      {
        if transactions[i].transaction.hash == hash {
          return true;
        }
      }
      return false;
    }

    method AddTransaction(tx: Transaction) returns (added: bool)
      modifies this
      ensures Value() == CacheValues.AddTransaction(old(Value()), tx)
      ensures added <==> tx.hash !in TxHashes(old(transactions))
    {
      var isAdded := HasTransaction(tx.hash);
      if !isAdded {
        transactions := transactions + [TxEntry(tx, false)];
        history := history + multiset{Appended(tx.hash)};
      }
      if !IsInInstantLockCache(tx.hash) {
        transactionHashesMap := transactionHashesMap[tx.hash := blocksProcessed];
        history := history + multiset{Registered(tx.hash)};
      }
      return !isAdded;
    }

    method RemoveTransactionHashFromInstantSendLockWaitingList(hash: Hash)
      modifies this`transactionHashesMap
      ensures Value() == RemoveFromWaitingList(old(Value()), hash)
    {
      if IsInInstantLockCache(hash) {
        transactionHashesMap := transactionHashesMap - {hash};
      }
    }

    /** The first part of `addBlock`: counts the block and expires what has waited too long. */
    method ProcessWaitingList()
      modifies this`blocksProcessed, this`transactionHashesMap, this`history
      ensures Value() == CountBlock(old(Value()))
    {
      ghost var c := Value();
      blocksProcessed := blocksProcessed + 1;
      var removeAfterHeight := blocksProcessed - BLOCKS_TO_STAY_IN_INSTANT_LOCK_CACHE;
      var keys := transactionHashesMap.Keys;
      while keys != {}
        invariant Value() == c.(blocksProcessed := c.blocksProcessed + 1, waiting := transactionHashesMap)
        invariant keys <= transactionHashesMap.Keys <= c.waiting.Keys
        invariant forall h :: h in c.waiting && h !in keys ==> (h in transactionHashesMap <==> h !in Overdue(c))
        invariant forall h :: h in transactionHashesMap ==> transactionHashesMap[h] == c.waiting[h]
        decreases keys
      {
        var hash :| hash in keys;
        keys := keys - {hash};
        if transactionHashesMap[hash] < removeAfterHeight {
          RemoveTransactionHashFromInstantSendLockWaitingList(hash);
        }
      }
      assert transactionHashesMap == c.waiting - Overdue(c);
      history := history + ExpiryNotes(Overdue(c));
    }

    /** The flags of a block's transactions, and whether any of them is set. */
    method MatchBlock(block: Block) returns (hashes: seq<Hash>, flags: seq<bool>, haveMatching: bool)
      ensures MerkleBlock(block.hash, hashes, flags) == BuildMerkleBlock(Value(), block)
      ensures haveMatching <==> HasMatch(Value(), block)
    {
      hashes, flags, haveMatching := [], [], false;
      for i := 0 to |block.transactions|
        invariant |hashes| == |flags| == i
        invariant forall k :: 0 <= k < i ==> hashes[k] == block.transactions[k].hash
        invariant forall k :: 0 <= k < i ==> (flags[k] <==> hashes[k] in TxHashes(transactions))
        invariant haveMatching <==> exists k :: 0 <= k < i && flags[k]
      {
        var isIncluded := HasTransaction(block.transactions[i].hash);
        haveMatching := haveMatching || isIncluded;
        hashes, flags := hashes + [block.transactions[i].hash], flags + [isIncluded];
      }
      if haveMatching {
        var k :| 0 <= k < |flags| && flags[k];
        assert block.transactions[k].hash in TxHashes(transactions);
      }
    }

    method AddBlock(block: Block)
      modifies this
      ensures Value() == CacheValues.AddBlock(old(Value()), block)
    {
      ProcessWaitingList();
      var hashes, flags, haveMatching := MatchBlock(block);
      if !haveMatching {
        return;
      }
      merkleBlocks := merkleBlocks + [MerkleEntry(MerkleBlock(block.hash, hashes, flags), false)];
      blocks := blocks + [block];
      history := history + multiset{ProofAppended(block.hash)};
      if |blocks| > CACHE_SIZE {
        var firstBlock := blocks[0];
        blocks := blocks[1..];
        RemoveDataByBlock(firstBlock);
      }
    }

    method RemoveTransactionsOf(block: Block)
      modifies this`transactions
      ensures transactions == Keep(old(transactions), TxIds(block))
    {
      ghost var ts := transactions;
      var i := |transactions| - 1;
      while i >= 0
        invariant -1 <= i < |ts|
        invariant transactions == ts[..i + 1] + Keep(ts[i + 1..], TxIds(block))
      {
        KeepStep(ts, i, TxIds(block), transactions);
        var included := BlockIncludes(block, transactions[i].transaction.hash);
        if included {
          transactions := transactions[..i] + transactions[i + 1..];
        }
        i := i - 1;
      }
      assert ts[0..] == ts;
    }

    static method BlockIncludes(block: Block, hash: Hash) returns (r: bool)
      ensures r <==> hash in TxIds(block)
    {
      for i := 0 to |block.transactions|
        invariant forall k :: 0 <= k < i ==> block.transactions[k].hash != hash
      {
        if block.transactions[i].hash == hash {
          return true;
        }
      }
      return false;
    }

    method RemoveMerkleBlockOf(block: Block)
      modifies this`merkleBlocks
      ensures merkleBlocks == WithoutProof(old(merkleBlocks), block.hash)
    {
      var i := |merkleBlocks| - 1;
      while i >= 0 && merkleBlocks[i].merkleBlock.headerHash != block.hash
        invariant -1 <= i < |merkleBlocks|
        invariant forall k :: i < k < |merkleBlocks| ==> ProofIds(merkleBlocks)[k] != block.hash
      {
        i := i - 1;
      }
      LastIndexIs(ProofIds(merkleBlocks), block.hash, i);
      if i >= 0 {
        merkleBlocks := merkleBlocks[..i] + merkleBlocks[i + 1..];
      }
    }

    method RemoveCachedBlock(block: Block)
      modifies this`blocks
      ensures blocks == WithoutBlock(old(blocks), block.hash)
    {
      var i := |blocks| - 1;
      while i >= 0 && blocks[i].hash != block.hash
        invariant -1 <= i < |blocks|
        invariant forall k :: i < k < |blocks| ==> BlockIds(blocks)[k] != block.hash
      {
        i := i - 1;
      }
      LastIndexIs(BlockIds(blocks), block.hash, i);
      if i >= 0 {
        blocks := blocks[..i] + blocks[i + 1..];
      }
    }

    method RemoveDataByBlock(block: Block)
      modifies this
      ensures Value() == CacheValues.RemoveDataByBlock(old(Value()), block)
    {
      ghost var notes := RemovalNotes(Value(), block);
      RemoveTransactionsOf(block);
      RemoveMerkleBlockOf(block);
      RemoveCachedBlock(block);
      history := history + notes;
    }

    method RemoveDataByBlockHash(blockHash: Hash)
      modifies this
      ensures Value() == CacheValues.RemoveDataByBlockHash(old(Value()), blockHash)
    {
      var i := 0;
      while i < |blocks| && blocks[i].hash != blockHash
        invariant 0 <= i <= |blocks|
        invariant FindBlock(blocks, blockHash) == FindBlock(blocks[i..], blockHash)
      {
        i := i + 1;
      }
      if i < |blocks| {
        RemoveDataByBlock(blocks[i]);
      }
    }

    method GetBlockCount() returns (n: nat)
      ensures n == |blocks|
    {
      n := |blocks|;
    }

    method GetUnretrievedTransactions() returns (unretrieved: seq<Transaction>)
      modifies this`transactions
      ensures unretrieved == UnretrievedTransactions(old(transactions))
      ensures Value() == TakeTransactions(old(Value()))
    {
      ghost var ts := transactions;
      unretrieved := [];
      for i := 0 to |transactions|
        invariant transactions == MarkedUpToTransactions(ts, i)
        invariant unretrieved + UnretrievedTransactions(ts[i..]) == UnretrievedTransactions(ts)
      {
        UnretrievedTransactionsStep(ts, i);
        if !transactions[i].isRetrieved {
          unretrieved := unretrieved + [transactions[i].transaction];
          transactions := transactions[i := transactions[i].(isRetrieved := true)];
        }
      }
    }

    method GetUnretrievedMerkleBlocks() returns (unretrieved: seq<MerkleBlock>)
      modifies this`merkleBlocks
      ensures unretrieved == UnretrievedMerkleBlocks(old(merkleBlocks))
      ensures Value() == TakeMerkleBlocks(old(Value()))
    {
      ghost var ms := merkleBlocks;
      unretrieved := [];
      for i := 0 to |merkleBlocks|
        invariant merkleBlocks == MarkedUpToMerkleBlocks(ms, i)
        invariant unretrieved + UnretrievedMerkleBlocks(ms[i..]) == UnretrievedMerkleBlocks(ms)
      {
        UnretrievedMerkleBlocksStep(ms, i);
        if !merkleBlocks[i].isRetrieved {
          unretrieved := unretrieved + [merkleBlocks[i].merkleBlock];
          merkleBlocks := merkleBlocks[i := merkleBlocks[i].(isRetrieved := true)];
        }
      }
    }

    method AddInstantLock(lock: InstantLock)
      modifies this`unretrievedInstantLocks
      ensures Value() == CacheValues.AddInstantLock(old(Value()), lock)
    {
      var i := 0;
      while i < |unretrievedInstantLocks| && unretrievedInstantLocks[i].txid != lock.txid
        invariant 0 <= i <= |unretrievedInstantLocks|
        invariant forall k :: 0 <= k < i ==> unretrievedInstantLocks[k].txid != lock.txid
      {
        i := i + 1;
      }
      PutLockAt(unretrievedInstantLocks, lock, i);
      if i < |unretrievedInstantLocks| {
        unretrievedInstantLocks := unretrievedInstantLocks[i := lock];
      } else {
        unretrievedInstantLocks := unretrievedInstantLocks + [lock];
      }
    }

    method GetUnretrievedInstantLocks() returns (locks: seq<InstantLock>)
      modifies this`unretrievedInstantLocks
      ensures locks == old(unretrievedInstantLocks)
      ensures Value() == TakeInstantLocks(old(Value()))
    {
      locks := unretrievedInstantLocks;
      unretrievedInstantLocks := [];
    }
  }
}
