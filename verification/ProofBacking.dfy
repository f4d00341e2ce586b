/** Every transaction a cached merkle block proves is still cached, if arriving blocks are unrelated to cached ones. */
module ProofBacking {
  import opened Common
  import opened BloomFilters
  import opened CacheValues
  import opened SessionValues
  import opened Counting
  import opened SessionInvariants
  import opened SessionTheorems
  import opened Alignment

  /** Each merkle block proves cached transactions of its own block, and none of another cached block. */
  ghost predicate Backed(c: State)
    requires Aligned(c)
  {
    assert |BlockIds(c.blocks)| == |ProofIds(c.merkleBlocks)|;
    && (forall i :: 0 <= i < |c.blocks| ==>
                      Matched(c.merkleBlocks[i].merkleBlock) <= TxIds(c.blocks[i]) * TxHashes(c.transactions))
    && (forall i, j :: 0 <= i < |c.blocks| && 0 <= j < |c.blocks| && i != j ==>
                         Matched(c.merkleBlocks[i].merkleBlock) !! TxIds(c.blocks[j]))
  }

  ghost predicate CacheSound(c: State) {
    Aligned(c) && Backed(c)
  }

  /** The block matches nothing cached, or shares neither its hash nor a cached transaction with a cached block. */
  predicate Unrelated(c: State, b: Block) {
    HasMatch(c, b) ==>
      && b.hash !in BlockIds(c.blocks)
      && forall k :: 0 <= k < |c.blocks| ==> TxIds(b) * TxIds(c.blocks[k]) * TxHashes(c.transactions) == {}
  }

  predicate UnrelatedRun(s: SessionState, es: seq<Event>)
    decreases es
  {
    es == []
    || ((es[0].NewBlock? && s.subscribed ==> Unrelated(s.cache, es[0].block))
        && UnrelatedRun(Step(s, es[0]).state, es[1..]))
  }

  // ----- the cache operations -----

  /** Without the block at `k`, its merkle block and its transactions the rest stays backed. */
  lemma DropBacked(c: State, k: nat, d: State)
    requires CacheSound(c) && k < |c.blocks|
    requires d.transactions == Keep(c.transactions, TxIds(c.blocks[k]))
    requires d.blocks == RemoveAt(c.blocks, k) && d.merkleBlocks == RemoveAt(c.merkleBlocks, k) && Aligned(d)
    ensures CacheSound(d)
  {
    KeepHashes(c.transactions, TxIds(c.blocks[k]));
    forall i | 0 <= i < |d.blocks|
      ensures d.blocks[i] == c.blocks[Origin(i, k)] && d.merkleBlocks[i] == c.merkleBlocks[Origin(i, k)]
      ensures Matched(d.merkleBlocks[i].merkleBlock) <= TxIds(d.blocks[i]) * TxHashes(d.transactions)
    {
      assert Matched(c.merkleBlocks[Origin(i, k)].merkleBlock) !! TxIds(c.blocks[k]);
    }
  }

  lemma FoundAt(c: State, hash: Hash) returns (k: nat)
    requires Aligned(c) && FindBlock(c.blocks, hash).Some?
    ensures k < |c.blocks| && FindBlock(c.blocks, hash) == Some(c.blocks[k])
    ensures LastIndex(BlockIds(c.blocks), hash) == LastIndex(ProofIds(c.merkleBlocks), hash) == k
  {
    k :| 0 <= k < |c.blocks| && c.blocks[k] == FindBlock(c.blocks, hash).value;
    assert BlockIds(c.blocks)[k] == hash;
    LastIndexIs(BlockIds(c.blocks), hash, k);
  }

  lemma RemoveBacked(c: State, hash: Hash)
    requires CacheSound(c)
    ensures CacheSound(RemoveDataByBlockHash(c, hash))
  {
    RemoveAligned(c, hash);
    if FindBlock(c.blocks, hash).Some? {
      var k := FoundAt(c, hash);
      DropBacked(c, k, RemoveDataByBlock(c, c.blocks[k]));
    }
  }

  lemma PushBacked(c: State, b: Block)
    requires CacheSound(c) && HasMatch(c, b) && Unrelated(c, b)
    ensures CacheSound(PushBlock(c, b))
  {
    MatchedByBuild(c, b);
    PushIds(c, b);
    forall k | 0 <= k < |c.blocks|
      ensures Matched(BuildMerkleBlock(c, b)) !! TxIds(c.blocks[k])
      ensures Matched(c.merkleBlocks[k].merkleBlock) !! TxIds(b)
    {
      var shared := TxIds(b) * TxIds(c.blocks[k]) * TxHashes(c.transactions);
      assert forall h :: h in Matched(BuildMerkleBlock(c, b)) && h in TxIds(c.blocks[k]) ==> h in shared;
      assert forall h :: h in Matched(c.merkleBlocks[k].merkleBlock) && h in TxIds(b) ==> h in shared;
    }
  }

  lemma EvictValues(c: State)
    requires Aligned(c) && c.blocks != []
    ensures EvictFirst(c).blocks == RemoveAt(c.blocks, 0) && EvictFirst(c).merkleBlocks == RemoveAt(c.merkleBlocks, 0)
    ensures Aligned(EvictFirst(c))
  {
    OldestIsUnique(c);
    assert RemoveAt(c.blocks, 0) == c.blocks[1..];
    ProofIdsRemoveAt(c.merkleBlocks, 0);
    BlockIdsRemoveAt(c.blocks, 0);
    NoRepeatsRemoveAt(BlockIds(c.blocks), 0);
  }

  lemma OldestIsUnique(c: State)
    requires Aligned(c) && c.blocks != []
    ensures LastIndex(ProofIds(c.merkleBlocks), c.blocks[0].hash) == 0
    ensures LastIndex(BlockIds(c.blocks[1..]), c.blocks[0].hash) == -1
  {
    var ids, x := BlockIds(c.blocks), c.blocks[0].hash;
    assert BlockIds(c.blocks[1..]) == ids[1..];
    LastIndexIs(ids, x, 0);
    LastIndexIs(ids[1..], x, -1);
  }

  lemma EvictFirstKeeps(c: State)
    requires c.blocks != []
    ensures EvictFirst(c).transactions == Keep(c.transactions, TxIds(c.blocks[0]))
  {
  }

  lemma EvictBacked(c: State)
    requires CacheSound(c) && c.blocks != []
    ensures CacheSound(EvictFirst(c))
  {
    EvictValues(c);
    EvictFirstKeeps(c);
    DropBacked(c, 0, EvictFirst(c));
  }

  lemma StoreBacked(c: State, b: Block)
    requires CacheSound(c) && HasMatch(c, b) && Unrelated(c, b)
    ensures CacheSound(StoreBlock(c, b))
  {
    PushBacked(c, b);
    if |PushBlock(c, b).blocks| > CACHE_SIZE {
      EvictBacked(PushBlock(c, b));
    }
  }

  // ----- steps and runs -----

  /** More transactions, and merkle blocks marked as retrieved, change nothing about what is backed. */
  lemma SameBlocksBacked(c: State, d: State)
    requires CacheSound(c) && d.blocks == c.blocks && TxHashes(c.transactions) <= TxHashes(d.transactions)
    requires |d.merkleBlocks| == |c.merkleBlocks|
    requires forall i :: 0 <= i < |c.merkleBlocks| ==> d.merkleBlocks[i].merkleBlock == c.merkleBlocks[i].merkleBlock
    ensures CacheSound(d)
  {
    assert ProofIds(d.merkleBlocks) == ProofIds(c.merkleBlocks);
  }

  lemma OnBlockBacked(s: SessionState, b: Block)
    requires CacheSound(s.cache) && Unrelated(s.cache, b)
    ensures CacheSound(OnBlock(s, b).state.cache)
  {
    TestsTouchOnlyCacheAndFilter(s, b.transactions);
    var e := if |s.cache.blocks| == 0 then TestTransactions(s, b.transactions) else Effect(s, false);
    assert CacheSound(e.state.cache);
    if !e.threw {
      var c := CountBlock(e.state.cache);
      assert CacheSound(c);
      if HasMatch(c, b) {
        assert Unrelated(c, b);
        StoreBacked(c, b);
      }
    }
  }

  lemma StepBacked(s: SessionState, e: Event)
    requires CacheSound(s.cache) && Phased(s) && (e.NewBlock? && s.subscribed ==> Unrelated(s.cache, e.block))
    ensures CacheSound(Step(s, e).state.cache)
  {
    match e
    case NewTransaction(tx) =>
      AddedHashes(s.cache, tx);
      SameBlocksBacked(s.cache, AddTransaction(s.cache, tx));
    case NewBlock(b) => if s.subscribed { OnBlockBacked(s, b); }
    case NewInstantLock(lock, tx) => LockReaches(s, lock, tx);
    case HistoricalBlockSent(hash) => RemoveBacked(s.cache, hash);
    case MempoolDataSent => TurnLoopBacked(StartForwarding(s));
    case LoopTurn => TurnLoopBacked(s);
    case ClientDisconnected =>
  }

  lemma TurnLoopBacked(s: SessionState)
    requires CacheSound(s.cache)
    ensures CacheSound(TurnLoop(s).cache)
  {
    TakenHashes(s.cache);
    SameBlocksBacked(s.cache, TurnLoop(s).cache);
  }

  lemma {:induction false} RunBacked(s: SessionState, es: seq<Event>)
    requires CacheSound(s.cache) && Inv(s, []) && UnrelatedRun(s, es)
    ensures CacheSound(Run(s, es).cache)
    decreases es
  {
    if es != [] {
      StepBacked(s, es[0]);
      StepKeeps(s, es[0], []);
      RunBacked(Step(s, es[0]).state, es[1..]);
    }
  }

  /**
   * Over every run whose blocks are unrelated to what is cached when they arrive, through eviction
   * and historical removal: whatever a cached merkle block proves is still cached, and no other
   * cached block contains it.
   */
  lemma ProofsStayBacked(f: Filter, es: seq<Event>)
    requires UnrelatedRun(Subscribe(f), es)
    ensures CacheSound(Run(Subscribe(f), es).cache)
  {
    Starts(f, []);
    RunBacked(Subscribe(f), es);
  }

  // ----- a stream of distinct blocks -----

  /** No two delivered blocks share a hash or a transaction. */
  ghost predicate DistinctBlocks(bs: seq<Block>) {
    forall i, j :: 0 <= i < j < |bs| ==> bs[i].hash != bs[j].hash && TxIds(bs[i]) !! TxIds(bs[j])
  }

  lemma DistinctFromSeen(seen: seq<Block>, b: Block, all: seq<Block>, x: Block)
    requires DistinctBlocks(all) && seen + [b] <= all && x in seen
    ensures x.hash != b.hash && TxIds(x) !! TxIds(b)
  {
    var i :| 0 <= i < |seen| && seen[i] == x;
    assert all[i] == (seen + [b])[i] && all[|seen|] == (seen + [b])[|seen|];
  }

  lemma DistinctUnrelated(c: State, seen: seq<Block>, b: Block, all: seq<Block>)
    requires DistinctBlocks(all) && seen + [b] <= all && forall x :: x in c.blocks ==> x in seen
    ensures Unrelated(c, b)
  {
    forall k | 0 <= k < |c.blocks| ensures c.blocks[k].hash != b.hash && TxIds(c.blocks[k]) !! TxIds(b) {
      DistinctFromSeen(seen, b, all, c.blocks[k]);
    }
  }

  lemma {:induction false} DistinctRunUnrelated(s: SessionState, seen: seq<Block>, es: seq<Event>)
    requires Inv(s, []) && DistinctBlocks(seen + BlocksOf(es))
    requires forall b :: b in s.cache.blocks ==> b in seen
    ensures UnrelatedRun(s, es)
    decreases es
  {
    if es != [] {
      var rest, now := BlocksOf(es[1..]), seen + Delivered(es[0]);
      assert seen + (Delivered(es[0]) + rest) == now + rest;
      if es[0].NewBlock? {
        DistinctUnrelated(s.cache, seen, es[0].block, now + rest);
      }
      StepKeeps(s, es[0], []);
      StepBlocksSeen(s, es[0], seen);
      DistinctRunUnrelated(Step(s, es[0]).state, now, es[1..]);
    }
  }

  lemma DistinctStreamIsUnrelated(f: Filter, es: seq<Event>)
    requires DistinctBlocks(BlocksOf(es))
    ensures UnrelatedRun(Subscribe(f), es)
  {
    assert [] + BlocksOf(es) == BlocksOf(es);
    Starts(f, []);
    DistinctRunUnrelated(Subscribe(f), [], es);
  }

  /** In particular if the block stream repeats no hash and puts no transaction in two blocks. */
  lemma DistinctStreamIsBacked(f: Filter, es: seq<Event>)
    requires DistinctBlocks(BlocksOf(es))
    ensures CacheSound(Run(Subscribe(f), es).cache)
  {
    DistinctStreamIsUnrelated(f, es);
    ProofsStayBacked(f, es);
  }
}
