/**
 * Which arriving blocks keep the order of transactions and proofs, said of the block and the cache
 * it arrives at. While history may still be reported sent: exactly those without a conflict over a
 * transaction the client does not have yet. After that: exactly those whose storing evicts no such
 * transaction from under a merkle block that stays.
 */
module BlockConflicts {
  import opened Common
  import opened BloomFilters
  import opened CacheValues
  import opened SessionValues
  import opened Counting
  import opened SessionInvariants
  import opened SessionTheorems
  import opened Alignment
  import opened ProofOrder

  // ----- what a caller can check about an arriving block -----

  /** `h` is cached, and the client does not have it. */
  ghost predicate Pending(known: set<Hash>, s: SessionState, h: Hash) {
    h in TxHashes(s.cache.transactions) && !Has(known, s.sent, h)
  }

  /** The block shares a pending transaction with a cached block of another hash. */
  ghost predicate Shares(known: set<Hash>, s: SessionState, b: Block, h: Hash) {
    h in TxIds(b) && Pending(known, s, h) && exists x :: x in s.cache.blocks && x.hash != b.hash && h in TxIds(x)
  }

  /** The block repeats the hash of a merkle block that owes a transaction. */
  ghost predicate Repeats(known: set<Hash>, s: SessionState, b: Block, i: nat, h: Hash) {
    Owes(known, s, i, h) && s.cache.merkleBlocks[i].merkleBlock.headerHash == b.hash
  }

  /** Repeating the oldest hash of a full cache, the block is evicted again at once, with its merkle block. */
  predicate Displaced(c: State, b: Block) {
    |c.blocks| >= CACHE_SIZE && b.hash == c.blocks[0].hash
  }

  ghost predicate Conflicts(known: set<Hash>, s: SessionState, b: Block) {
    (!Displaced(s.cache, b) && exists h :: Shares(known, s, b, h)) || (exists i: nat, h :: Repeats(known, s, b, i, h))
  }

  /** The block itself would be stored with a merkle block that owes `h`. */
  ghost predicate WouldOwe(known: set<Hash>, s: SessionState, b: Block, h: Hash) {
    h in TxIds(b) && Pending(known, s, h)
  }

  /**
   * Storing the block evicts the oldest one, whose merkle block goes with it: the new one, if the
   * block repeats that hash, else the last one cached. It takes `h` from a merkle block that stays.
   */
  ghost predicate EvictsOwed(known: set<Hash>, s: SessionState, b: Block) {
    |s.cache.blocks| >= CACHE_SIZE &&
    var x := s.cache.blocks[0];
    exists h :: h in TxIds(x) &&
      if b.hash == x.hash then exists i: nat :: Owes(known, s, i, h)
      else WouldOwe(known, s, b, h)
           || exists i: nat :: Owes(known, s, i, h) && i != LastIndex(ProofIds(s.cache.merkleBlocks), x.hash)
  }

  ghost predicate Admissible(known: set<Hash>, s: SessionState, b: Block) {
    s.subscribed && HasMatch(s.cache, b) ==>
      if s.mempoolListenerArmed then !Conflicts(known, s, b) else !EvictsOwed(known, s, b)
  }

  /** A block's hash commits to its transactions. */
  ghost predicate Coherent(bs: seq<Block>) {
    forall x, y :: x in bs && y in bs && x.hash == y.hash ==> TxIds(x) == TxIds(y)
  }

  // ----- the invariant -----

  /** Subscribed, and history may still be reported sent. */
  predicate Collecting(s: SessionState) {
    s.subscribed && s.mempoolListenerArmed
  }

  /** Safe, and while history is sent every merkle block that owes a transaction has its own block cached with it. */
  ghost predicate Held(known: set<Hash>, s: SessionState) {
    && Safe(known, s)
    && (s.subscribed && s.mempoolListenerArmed ==> forall i: nat, h :: Owes(known, s, i, h) ==>
          Takes(s.cache.blocks, s.cache.merkleBlocks[i].merkleBlock.headerHash, h))
  }

  /** In coherent caches any block of a hash speaks for the first one. */
  lemma TakesAny(bs: seq<Block>, b: Block, h: Hash)
    requires Coherent(bs) && b in bs
    ensures Takes(bs, b.hash, h) <==> h in TxIds(b)
  {
  }

  /** The owner's own block is the only one that takes the transaction. */
  lemma OwnBlock(known: set<Hash>, s: SessionState, i: nat, h: Hash, y: Hash)
    requires Held(known, s) && Collecting(s) && Owes(known, s, i, h) && Takes(s.cache.blocks, y, h)
    ensures y == s.cache.merkleBlocks[i].merkleBlock.headerHash
    ensures LastIndex(ProofIds(s.cache.merkleBlocks), y) == i && h in TxHashes(s.cache.transactions)
  {
    assert ProofIds(s.cache.merkleBlocks)[i] == s.cache.merkleBlocks[i].merkleBlock.headerHash;
  }

  // ----- quiet steps -----

  lemma DroppedHeld(known: set<Hash>, s: SessionState, hash: Hash, t: SessionState)
    requires Held(known, s) && s.mempoolListenerArmed && Dropped(s, hash, t)
    ensures Held(known, t)
  {
    DroppedSafe(known, s, hash, t);
    if t.subscribed {
      forall j: nat, h | Owes(known, t, j, h)
        ensures Takes(t.cache.blocks, t.cache.merkleBlocks[j].merkleBlock.headerHash, h)
      {
        var i := Survivor(known, s, hash, t, j, h);
        OwnBlock(known, s, i, h, s.cache.merkleBlocks[i].merkleBlock.headerHash);
      }
    }
  }

  lemma RicherIsHeld(known: set<Hash>, s: SessionState, t: SessionState)
    requires Held(known, s) && Richer(s, t)
    ensures Held(known, t)
  {
    RicherIsSafe(known, s, t);
    RicherOwes(known, s, t);
  }

  lemma TestHeld(known: set<Hash>, s: SessionState, tx: Transaction)
    requires Held(known, s)
    ensures Held(known, TestTransaction(s, tx).state)
  {
    TestIsRicher(s, tx);
    RicherIsHeld(known, s, TestTransaction(s, tx).state);
  }

  lemma {:induction false} TestsHeld(known: set<Hash>, s: SessionState, txs: seq<Transaction>)
    requires Held(known, s)
    ensures Held(known, TestTransactions(s, txs).state)
    decreases txs
  {
    if txs != [] {
      TestHeld(known, s, txs[0]);
      TestsHeld(known, TestTransaction(s, txs[0]).state, txs[1..]);
    }
  }

  lemma RemovalHeld(known: set<Hash>, s: SessionState, hash: Hash)
    requires Held(known, s) && s.mempoolListenerArmed
    ensures Held(known, s.(cache := RemoveDataByBlockHash(s.cache, hash)))
  {
    if FindBlock(s.cache.blocks, hash).Some? {
      RemovalDrops(s, hash);
      DroppedHeld(known, s, hash, s.(cache := RemoveDataByBlockHash(s.cache, hash)));
    }
  }

  lemma TurnLoopHeld(known: set<Hash>, s: SessionState)
    requires s.isClientConnected == s.subscribed
    ensures Held(known, TurnLoop(s))
  {
    if s.isClientConnected {
      TurnLoopOwesNothing(known, s);
    }
  }

  lemma QuietHeld(known: set<Hash>, s: SessionState, e: Event)
    requires Held(known, s) && Phased(s) && !e.NewBlock? && Mediated(s, e)
    ensures Held(known, Step(s, e).state)
  {
    match e
    case NewTransaction(tx) => TestHeld(known, s, tx);
    case NewInstantLock(lock, tx) =>
      LockIsRicher(s, lock, tx);
      RicherIsHeld(known, s, Step(s, e).state);
    case HistoricalBlockSent(hash) => if s.subscribed { RemovalHeld(known, s, hash); }
    case MempoolDataSent => if s.mempoolListenerArmed { TurnLoopHeld(known, StartForwarding(s)); }
    case LoopTurn => if s.looping { TurnLoopHeld(known, s); }
    case ClientDisconnected =>
  }

  // ----- pushing a block -----

  /** The session just after a block has been pushed onto the arrays. */
  function Pushed(s: SessionState, b: Block): SessionState {
    s.(cache := PushBlock(s.cache, b))
  }

  /** What pushing changes: one more merkle block, about what is cached, and one more block. */
  lemma PushedFacts(known: set<Hash>, s: SessionState, b: Block)
    ensures var n, t := |s.cache.merkleBlocks|, Pushed(s, b);
            && Matched(t.cache.merkleBlocks[n].merkleBlock) == TxIds(b) * TxHashes(s.cache.transactions)
            && (forall i: nat, h :: i != n ==> (Owes(known, t, i, h) <==> Owes(known, s, i, h)))
            && (forall h :: Owes(known, t, n, h) <==> WouldOwe(known, s, b, h))
  {
    MatchedByBuild(s.cache, b);
  }

  lemma {:induction false} FindAppended(bs: seq<Block>, b: Block, y: Hash)
    ensures FindBlock(bs + [b], y)
            == if FindBlock(bs, y).Some? then FindBlock(bs, y) else if y == b.hash then Some(b) else None
  {
    if bs != [] {
      assert (bs + [b])[1..] == bs[1..] + [b];
      FindAppended(bs[1..], b, y);
    } else {
      assert [] + [b] == [b];
      assert [b][1..] == [];
    }
  }

  lemma LastAppended(ids: seq<Hash>, x: Hash, y: Hash)
    ensures LastIndex(ids + [x], y) == if y == x then |ids| else LastIndex(ids, y)
  {
    assert (ids + [x])[..|ids|] == ids;
  }

  /** An owner from before the push is covered after it, exactly if there is no conflict about its transaction. */
  lemma OldOwner(known: set<Hash>, s: SessionState, b: Block, i: nat, h: Hash)
    requires Held(known, s) && Collecting(s) && Owes(known, s, i, h)
    requires !Repeats(known, s, b, i, h) && !Shares(known, s, b, h)
    ensures Covered(Pushed(s, b).cache, i, h)
    ensures Takes(Pushed(s, b).cache.blocks, s.cache.merkleBlocks[i].merkleBlock.headerHash, h)
  {
    var own := s.cache.merkleBlocks[i].merkleBlock.headerHash;
    FindAppended(s.cache.blocks, b, own);
    OwnBlock(known, s, i, h, own);
    assert b.hash != own;
    var x := FindBlock(s.cache.blocks, own).value;
    assert x in s.cache.blocks && h in TxIds(x) && h !in TxIds(b);
    PushIds(s.cache, b);
    forall y | Takes(Pushed(s, b).cache.blocks, y, h)
      ensures LastIndex(ProofIds(Pushed(s, b).cache.merkleBlocks), y) == i
    {
      FindAppended(s.cache.blocks, b, y);
      LastAppended(ProofIds(s.cache.merkleBlocks), b.hash, y);
      if FindBlock(s.cache.blocks, y).Some? {
        OwnBlock(known, s, i, h, y);
      }
    }
  }

  lemma NewOwner(known: set<Hash>, s: SessionState, b: Block, h: Hash)
    requires Coherent(s.cache.blocks + [b]) && h in TxIds(b) && Pending(known, s, h) && !Shares(known, s, b, h)
    ensures Covered(Pushed(s, b).cache, |s.cache.merkleBlocks|, h) && Takes(Pushed(s, b).cache.blocks, b.hash, h)
  {
    var bs := s.cache.blocks + [b];
    assert bs[|s.cache.blocks|] == b;
    TakesAny(bs, b, h);
    PushIds(s.cache, b);
    forall y | Takes(bs, y, h)
      ensures LastIndex(ProofIds(Pushed(s, b).cache.merkleBlocks), y) == |s.cache.merkleBlocks|
    {
      LastAppended(ProofIds(s.cache.merkleBlocks), b.hash, y);
      var x := FindBlock(bs, y).value;
      assert x in s.cache.blocks || x == b;
    }
  }

  lemma PushedHeld(known: set<Hash>, s: SessionState, b: Block)
    requires Held(known, s) && Collecting(s) && Coherent(s.cache.blocks + [b])
    requires forall h :: !Shares(known, s, b, h)
    requires forall i: nat, h :: !Repeats(known, s, b, i, h)
    ensures Held(known, Pushed(s, b))
  {
    var n, t := |s.cache.merkleBlocks|, Pushed(s, b);
    PushedFacts(known, s, b);
    forall i: nat, h | Owes(known, t, i, h)
      ensures Covered(t.cache, i, h) && Takes(t.cache.blocks, t.cache.merkleBlocks[i].merkleBlock.headerHash, h)
    {
      if i == n {
        NewOwner(known, s, b, h);
      } else {
        OldOwner(known, s, b, i, h);
      }
    }
  }

  // ----- evicting the oldest block -----

  /** The session once the oldest block has been shifted out with its data. */
  function Evicted(s: SessionState): SessionState
    requires s.cache.blocks != []
  {
    s.(cache := EvictFirst(s.cache))
  }

  lemma CoherentPart(bs: seq<Block>, ds: seq<Block>, y: Hash, h: Hash)
    requires Coherent(bs) && (forall x :: x in ds ==> x in bs) && Takes(ds, y, h)
    ensures Takes(bs, y, h)
  {
    TakesAny(bs, FindBlock(ds, y).value, h);
  }

  lemma EvictionDrops(s: SessionState)
    requires Coherent(s.cache.blocks) && s.cache.blocks != []
    ensures Dropped(s, s.cache.blocks[0].hash, Evicted(s))
  {
    var bs, x := s.cache.blocks, s.cache.blocks[0].hash;
    var ds := WithoutBlock(bs[1..], x);
    forall y, h | Takes(ds, y, h) ensures Takes(bs, y, h) {
      CoherentPart(bs, ds, y, h);
    }
    forall y, h | y != x && Takes(bs, y, h) ensures Takes(ds, y, h) {
      FindAfterRemoval(bs[1..], x, y);
    }
  }

  // ----- an admissible block -----

  lemma DisplacedOwner(known: set<Hash>, s: SessionState, b: Block, i: nat, h: Hash)
    requires Held(known, s) && Collecting(s) && Coherent(s.cache.blocks + [b]) && s.cache.blocks != []
    requires b.hash == s.cache.blocks[0].hash && Owes(known, s, i, h) && !Repeats(known, s, b, i, h)
    ensures h in TxHashes(Keep(s.cache.transactions, TxIds(s.cache.blocks[0])))
    ensures Takes(s.cache.blocks[1..], s.cache.merkleBlocks[i].merkleBlock.headerHash, h)
    ensures forall y :: Takes(s.cache.blocks[1..], y, h) ==> LastIndex(ProofIds(s.cache.merkleBlocks), y) == i
  {
    var bs, own := s.cache.blocks, s.cache.merkleBlocks[i].merkleBlock.headerHash;
    OwnBlock(known, s, i, h, own);
    KeepHashes(s.cache.transactions, TxIds(bs[0]));
    if h in TxIds(bs[0]) {
      OwnBlock(known, s, i, h, bs[0].hash);
    }
    forall y | Takes(bs[1..], y, h) ensures LastIndex(ProofIds(s.cache.merkleBlocks), y) == i {
      CoherentPart(bs, bs[1..], y, h);
      OwnBlock(known, s, i, h, y);
    }
  }

  /** Repeating the oldest hash of a full cache without owing anything leaves the owners alone. */
  lemma DisplacedHeld(known: set<Hash>, s: SessionState, b: Block)
    requires Held(known, s) && Collecting(s) && Coherent(s.cache.blocks + [b]) && s.cache.blocks != []
    requires b.hash == s.cache.blocks[0].hash && forall i: nat, h :: !Repeats(known, s, b, i, h)
    ensures Held(known, Evicted(Pushed(s, b)))
  {
    var t := Evicted(Pushed(s, b));
    DisplacedValues(s, b);
    forall i: nat, h | Owes(known, t, i, h)
      ensures Covered(t.cache, i, h) && Takes(t.cache.blocks, t.cache.merkleBlocks[i].merkleBlock.headerHash, h)
    {
      assert Owes(known, s, i, h) && !Repeats(known, s, b, i, h);
      DisplacedOwner(known, s, b, i, h);
    }
  }

  lemma DisplacedValues(s: SessionState, b: Block)
    requires s.cache.blocks != [] && b.hash == s.cache.blocks[0].hash
    ensures var c := Evicted(Pushed(s, b)).cache;
            && c.transactions == Keep(s.cache.transactions, TxIds(s.cache.blocks[0]))
            && c.merkleBlocks == s.cache.merkleBlocks && c.blocks == s.cache.blocks[1..]
  {
    var c, x := PushBlock(s.cache, b), b.hash;
    PushIds(s.cache, b);
    LastIndexIs(ProofIds(c.merkleBlocks), x, |s.cache.merkleBlocks|);
    assert c.blocks[1..] == s.cache.blocks[1..] + [b];
    LastIndexIs(BlockIds(c.blocks[1..]), x, |s.cache.blocks| - 1);
  }

  /** The session once the block has been stored, with room made for it. */
  function Stored(s: SessionState, b: Block): SessionState {
    s.(cache := StoreBlock(s.cache, b))
  }

  lemma StoredHeld(known: set<Hash>, s: SessionState, b: Block)
    requires Held(known, s) && Collecting(s) && Coherent(s.cache.blocks + [b]) && !Conflicts(known, s, b)
    ensures Held(known, Stored(s, b))
  {
    if Displaced(s.cache, b) {
      DisplacedHeld(known, s, b);
    } else {
      PushedHeld(known, s, b);
      if |Pushed(s, b).cache.blocks| > CACHE_SIZE {
        EvictionDrops(Pushed(s, b));
        DroppedHeld(known, Pushed(s, b), s.cache.blocks[0].hash, Evicted(Pushed(s, b)));
      }
    }
  }

  // ----- a block in conflict -----

  /** Either kind of conflict leaves an owner uncovered by the push, and the eviction does not take it away. */
  lemma ConflictUncovers(known: set<Hash>, s: SessionState, b: Block) returns (i: nat, h: Hash)
    requires Held(known, s) && Collecting(s) && Coherent(s.cache.blocks + [b]) && Conflicts(known, s, b)
    ensures Owes(known, Pushed(s, b), i, h) && !Covered(Pushed(s, b).cache, i, h)
    ensures Pushed(s, b).cache.merkleBlocks[i].merkleBlock.headerHash == b.hash
    ensures i == |s.cache.merkleBlocks| ==> !Displaced(s.cache, b)
  {
    PushedFacts(known, s, b);
    PushIds(s.cache, b);
    var ids := ProofIds(s.cache.merkleBlocks);
    if !Displaced(s.cache, b) && exists h :: Shares(known, s, b, h) {
      i, h := |s.cache.merkleBlocks|, (var h :| Shares(known, s, b, h); h);
      var x :| x in s.cache.blocks && x.hash != b.hash && h in TxIds(x);
      assert x in s.cache.blocks + [b];
      TakesAny(s.cache.blocks + [b], x, h);
      LastAppended(ids, b.hash, x.hash);
    } else {
      i, h :| Repeats(known, s, b, i, h);
      FindAppended(s.cache.blocks, b, b.hash);
      LastAppended(ids, b.hash, b.hash);
    }
  }

  lemma StoredUnsafe(known: set<Hash>, s: SessionState, b: Block)
    requires Held(known, s) && Collecting(s) && Coherent(s.cache.blocks + [b]) && Conflicts(known, s, b)
    ensures !Safe(known, Stored(s, b))
  {
    var p := Pushed(s, b);
    var i, h := ConflictUncovers(known, s, b);
    if |p.cache.blocks| > CACHE_SIZE {
      var x, ids := p.cache.blocks[0].hash, ProofIds(p.cache.merkleBlocks);
      PushIds(s.cache, b);
      LastAppended(ProofIds(s.cache.merkleBlocks), b.hash, b.hash);
      assert ids[i] == b.hash;
      assert LastIndex(ids, x) != i;
      EvictionDrops(p);
      DroppedUncovered(known, p, x, Evicted(p), i, h);
    }
  }

  // ----- after the hand-over -----

  /** An eviction leaves cached what is owed exactly if it takes nothing from under a merkle block that stays. */
  lemma EvictionOwes(known: set<Hash>, s: SessionState)
    requires s.cache.blocks != [] && OwedIsCached(known, s)
    ensures var x := s.cache.blocks[0];
            OwedIsCached(known, Evicted(s))
            <==> forall i: nat, h :: Owes(known, s, i, h) && i != LastIndex(ProofIds(s.cache.merkleBlocks), x.hash) ==>
                   h !in TxIds(x)
  {
    var x, t := s.cache.blocks[0], Evicted(s);
    var k := LastIndex(ProofIds(s.cache.merkleBlocks), x.hash);
    KeepHashes(s.cache.transactions, TxIds(x));
    forall i: nat, h | Owes(known, s, i, h) && i != k ensures Owes(known, t, Shifted(i, k), h) {
      RemoveAtShifts(s.cache.merkleBlocks, k, i);
    }
    forall j: nat, h | Owes(known, t, j, h) ensures Owes(known, s, Origin(j, k), h) && Origin(j, k) != k {
      assert t.cache.merkleBlocks[j] == s.cache.merkleBlocks[Origin(j, k)];
    }
  }

  /** What eviction finds once the block has been pushed. */
  lemma PushedOwes(known: set<Hash>, s: SessionState, b: Block)
    requires |s.cache.blocks| >= CACHE_SIZE
    ensures var x, p := s.cache.blocks[0], Pushed(s, b);
            EvictsOwed(known, s, b)
            <==> exists i: nat, h :: Owes(known, p, i, h) && h in TxIds(x)
                                     && i != LastIndex(ProofIds(p.cache.merkleBlocks), x.hash)
  {
    var x, n := s.cache.blocks[0], |s.cache.merkleBlocks|;
    PushedFacts(known, s, b);
    PushIds(s.cache, b);
    LastAppended(ProofIds(s.cache.merkleBlocks), b.hash, x.hash);
    var p := Pushed(s, b);
    if EvictsOwed(known, s, b) {
      var h :| h in TxIds(x) && if b.hash == x.hash then exists i: nat :: Owes(known, s, i, h)
                               else WouldOwe(known, s, b, h)
                                    || exists i: nat :: Owes(known, s, i, h)
                                         && i != LastIndex(ProofIds(s.cache.merkleBlocks), x.hash);
      if b.hash != x.hash && WouldOwe(known, s, b, h) {
        assert Owes(known, p, n, h);
      } else {
        var i: nat :| && Owes(known, s, i, h)
                      && (b.hash == x.hash || i != LastIndex(ProofIds(s.cache.merkleBlocks), x.hash));
        assert Owes(known, p, i, h);
      }
    }
  }

  lemma PushedCached(known: set<Hash>, s: SessionState, b: Block)
    requires OwedIsCached(known, s)
    ensures OwedIsCached(known, Pushed(s, b))
  {
    PushedFacts(known, s, b);
  }

  lemma StoredExactly(known: set<Hash>, s: SessionState, b: Block)
    requires OwedIsCached(known, s)
    ensures OwedIsCached(known, Stored(s, b)) <==> !EvictsOwed(known, s, b)
  {
    PushedCached(known, s, b);
    if |Pushed(s, b).cache.blocks| > CACHE_SIZE {
      PushedOwes(known, s, b);
      EvictionOwes(known, Pushed(s, b));
      assert Stored(s, b) == Evicted(Pushed(s, b));
      assert Pushed(s, b).cache.blocks[0] == s.cache.blocks[0];
    }
  }

  // ----- the exact condition -----

  /** Nothing changes what the conditions on a block depend on. */
  ghost predicate SameArrays(s: SessionState, t: SessionState) {
    && t.subscribed == s.subscribed && t.mempoolListenerArmed == s.mempoolListenerArmed && t.sent == s.sent
    && t.cache.blocks == s.cache.blocks && t.cache.merkleBlocks == s.cache.merkleBlocks
    && t.cache.transactions == s.cache.transactions
  }

  lemma SameOwes(known: set<Hash>, s: SessionState, t: SessionState)
    requires SameArrays(s, t)
    ensures forall i: nat, h :: Owes(known, t, i, h) <==> Owes(known, s, i, h)
    ensures Held(known, s) ==> Held(known, t)
    ensures OwedIsCached(known, s) ==> OwedIsCached(known, t)
  {
  }

  lemma SameAdmissible(known: set<Hash>, s: SessionState, t: SessionState, b: Block)
    requires SameArrays(s, t)
    ensures Conflicts(known, t, b) <==> Conflicts(known, s, b)
    ensures EvictsOwed(known, t, b) <==> EvictsOwed(known, s, b)
    ensures HasMatch(t.cache, b) <==> HasMatch(s.cache, b)
  {
    SameOwes(known, s, t);
    assert forall h :: Shares(known, t, b, h) <==> Shares(known, s, b, h);
    assert forall i: nat, h :: Repeats(known, t, b, i, h) <==> Repeats(known, s, b, i, h);
    assert forall h :: WouldOwe(known, t, b, h) <==> WouldOwe(known, s, b, h);
  }

  lemma CountedIsSame(s: SessionState)
    ensures SameArrays(s, s.(cache := CountBlock(s.cache)))
  {
  }

  /** With no block cached nothing can be in conflict. */
  lemma EmptyAdmits(known: set<Hash>, s: SessionState, b: Block)
    requires Held(known, s) && s.subscribed && s.cache.blocks == []
    ensures Admissible(known, s, b)
  {
    if s.mempoolListenerArmed {
      assert forall i: nat, h :: !Owes(known, s, i, h);
    }
  }

  lemma CollectedExactly(known: set<Hash>, s: SessionState, b: Block)
    requires Held(known, s) && Collecting(s) && Coherent(s.cache.blocks + [b])
    ensures Admissible(known, s, b) ==> Held(known, StoreNewBlock(s, b))
    ensures !Admissible(known, s, b) ==> !Safe(known, StoreNewBlock(s, b))
  {
    var t := s.(cache := CountBlock(s.cache));
    CountedIsSame(s);
    SameOwes(known, s, t);
    SameAdmissible(known, s, t, b);
    if HasMatch(t.cache, b) {
      if Conflicts(known, t, b) {
        StoredUnsafe(known, t, b);
      } else {
        StoredHeld(known, t, b);
      }
    }
  }

  /** What is owed stays cached exactly if the block is not stored, or evicts nothing owed. */
  lemma CachedExactly(known: set<Hash>, s: SessionState, b: Block)
    requires OwedIsCached(known, s)
    ensures OwedIsCached(known, StoreNewBlock(s, b)) <==> HasMatch(s.cache, b) ==> !EvictsOwed(known, s, b)
  {
    var t := s.(cache := CountBlock(s.cache));
    CountedIsSame(s);
    SameOwes(known, s, t);
    SameAdmissible(known, s, t, b);
    if HasMatch(t.cache, b) {
      StoredExactly(known, t, b);
      assert StoreNewBlock(s, b) == Stored(t, b);
    } else {
      assert StoreNewBlock(s, b) == t;
    }
  }

  lemma AddBlockExactly(known: set<Hash>, s: SessionState, b: Block)
    requires Held(known, s) && s.subscribed && (s.mempoolListenerArmed ==> Coherent(s.cache.blocks + [b]))
    ensures Admissible(known, s, b) ==> Held(known, StoreNewBlock(s, b))
    ensures !Admissible(known, s, b) ==> !Safe(known, StoreNewBlock(s, b))
  {
    if s.mempoolListenerArmed {
      CollectedExactly(known, s, b);
    } else {
      CachedExactly(known, s, b);
    }
  }

  /** The exact effect of a block: an admissible one leaves the session held, any other leaves it unsafe. */
  lemma BlockExactly(known: set<Hash>, s: SessionState, b: Block)
    requires Held(known, s) && (s.mempoolListenerArmed ==> Coherent(s.cache.blocks + [b]))
    ensures Admissible(known, s, b) ==> Held(known, Step(s, NewBlock(b)).state)
    ensures !Admissible(known, s, b) ==> !Safe(known, Step(s, NewBlock(b)).state)
  {
    if s.subscribed {
      if |s.cache.blocks| == 0 {
        var e := TestTransactions(s, b.transactions);
        TestsHeld(known, s, b.transactions);
        TestsTouchOnlyCacheAndFilter(s, b.transactions);
        EmptyAdmits(known, s, b);
        EmptyAdmits(known, e.state, b);
        AddBlockExactly(known, e.state, b);
      } else {
        AddBlockExactly(known, s, b);
      }
    }
  }
}
