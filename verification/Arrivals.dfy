/**
 * What each event makes of a session, in every run, said of the data it brings and of what the
 * session holds: which transactions are cached and waited for, and which blocks are proved.
 */
module Arrivals {
  import opened Common
  import opened BloomFilters
  import opened Bip37
  import opened FilterVerdict
  import opened CacheValues
  import opened SessionValues
  import opened Counting
  import opened SessionInvariants
  import opened SessionTheorems
  import opened Deduplication
  import opened Selections
  import opened Retrieval
  import opened BlockStorage

  // ----- a transaction -----

  /** A matched transaction is cached unless it is, and waited for from now on unless it already is. */
  ghost predicate Admitted(c: State, d: State, tx: Transaction) {
    && d.transactions == c.transactions + (if tx.hash in TxHashes(c.transactions) then [] else [TxEntry(tx, false)])
    && d.waiting == (if tx.hash in c.waiting then c.waiting else c.waiting[tx.hash := c.blocksProcessed])
    && d.merkleBlocks == c.merkleBlocks && d.blocks == c.blocks
    && d.blocksProcessed == c.blocksProcessed && d.locks == c.locks
  }

  lemma AddAdmits(c: State, tx: Transaction)
    ensures Admitted(c, AddTransaction(c, tx), tx)
  {
  }

  /** Everything but cache and filter is as it was. */
  ghost predicate OnlyCacheAndFilter(s: SessionState, t: SessionState) {
    t == s.(cache := t.cache, filter := t.filter)
  }

  lemma TestExactly(s: SessionState, tx: Transaction)
    ensures var e := TestTransaction(s, tx);
            && OnlyCacheAndFilter(s, e.state) && e.state.filter == Test(s.filter, tx).1
            && (e.threw <==> CutOff(s.filter, tx))
            && if !e.threw && Matches(s.filter, tx) then Admitted(s.cache, e.state.cache, tx)
               else e.state.cache == s.cache
  {
    VerdictExactly(s.filter, tx);
    AddAdmits(s.cache, tx);
  }

  /**
   * A broadcast transaction that matches the filter is cached and waited for, and one that does not
   * changes nothing; the listener throws exactly if an output without script cuts the test off.
   */
  lemma TransactionArrives(f: Filter, es: seq<Event>, tx: Transaction)
    requires Run(Subscribe(f), es).subscribed
    ensures var s := Run(Subscribe(f), es);
            var e := Step(s, NewTransaction(tx));
            && OnlyCacheAndFilter(s, e.state) && e.state.filter == Test(s.filter, tx).1
            && (e.threw <==> CutOff(s.filter, tx))
            && if !e.threw && Matches(s.filter, tx) then Admitted(s.cache, e.state.cache, tx)
               else e.state.cache == s.cache
  {
    TestExactly(Run(Subscribe(f), es), tx);
  }

  // ----- the transactions of a block -----

  /** The cache once these transactions have been tested: what is found is cached, behind what was, and waited for. */
  ghost predicate Tested(f: Filter, c: State, d: State, txs: seq<Transaction>) {
    && c.transactions <= d.transactions
    && (forall i :: |c.transactions| <= i < |d.transactions| ==> !d.transactions[i].isRetrieved)
    && (forall h :: h in TxHashes(d.transactions) <==> h in TxHashes(c.transactions) || Found(f, txs, h))
    && (forall h :: h in d.waiting <==> h in c.waiting || Found(f, txs, h))
    && (forall h :: h in d.waiting ==> d.waiting[h] == if h in c.waiting then c.waiting[h] else c.blocksProcessed)
    && d.merkleBlocks == c.merkleBlocks && d.blocks == c.blocks
    && d.blocksProcessed == c.blocksProcessed && d.locks == c.locks
  }

  lemma NoneTested(f: Filter, c: State)
    ensures Tested(f, c, c, [])
  {
  }

  lemma AddedWaiting(c: State, tx: Transaction)
    ensures var d := AddTransaction(c, tx);
            && d.waiting.Keys == c.waiting.Keys + {tx.hash}
            && forall h :: h in d.waiting ==> d.waiting[h] == if h in c.waiting then c.waiting[h] else c.blocksProcessed
  {
  }

  /** The first of the transactions tested, then the others. */
  lemma FirstTested(s: SessionState, txs: seq<Transaction>, d: State)
    requires txs != []
    requires var u := TestTransaction(s, txs[0]);
             !u.threw && Tested(u.state.filter, u.state.cache, d, txs[1..])
    ensures Tested(s.filter, s.cache, d, txs)
  {
    var c, c1 := s.cache, TestTransaction(s, txs[0]).state.cache;
    TestExactly(s, txs[0]);
    AddedHashes(c, txs[0]);
    AddedWaiting(c, txs[0]);
    forall h: Hash
      ensures Found(s.filter, txs, h)
              <==> (Matches(s.filter, txs[0]) && txs[0].hash == h)
                   || Found(TestTransaction(s, txs[0]).state.filter, txs[1..], h)
    {
      FoundFirst(s.filter, txs, h);
    }
  }

  lemma {:induction false} TestsExactly(s: SessionState, txs: seq<Transaction>)
    ensures var e := TestTransactions(s, txs);
            && OnlyCacheAndFilter(s, e.state)
            && (e.threw <==> exists k: nat :: CutOffAt(s.filter, txs, k))
            && (!e.threw ==> e.state.filter == TestAll(s.filter, txs) && Tested(s.filter, s.cache, e.state.cache, txs))
    decreases txs
  {
    if txs == [] {
      NoneTested(s.filter, s.cache);
    } else {
      var u := TestTransaction(s, txs[0]);
      TestExactly(s, txs[0]);
      CutOffFirst(s.filter, txs);
      if !u.threw {
        TestsExactly(u.state, txs[1..]);
        if !TestTransactions(s, txs).threw {
          FirstTested(s, txs, TestTransactions(s, txs).state.cache);
        }
      }
    }
  }

  // ----- a block -----

  /** The block's own transactions are looked at, because no block is cached yet. */
  predicate Looks(s: SessionState) {
    |s.cache.blocks| == 0
  }

  /** With no block cached the block's transactions are tested first; then it is stored if it shares one. */
  ghost predicate BlockTaken(s: SessionState, t: SessionState, b: Block) {
    if Looks(s)
    then t.filter == TestAll(s.filter, b.transactions)
         && exists c :: Tested(s.filter, s.cache, c, b.transactions)
                        && c.history[ProofAppended(b.hash)] == s.cache.history[ProofAppended(b.hash)]
                        && StoredIfShared(c, t.cache, b)
    else t.filter == s.filter && StoredIfShared(s.cache, t.cache, b)
  }

  lemma BlockTakes(s: SessionState, b: Block)
    requires |s.cache.blocks| <= 10
    ensures var e := OnBlock(s, b);
            && OnlyCacheAndFilter(s, e.state)
            && (e.threw <==> Looks(s) && exists k: nat :: CutOffAt(s.filter, b.transactions, k))
            && if e.threw then e.state.cache.blocks == s.cache.blocks
                               && e.state.cache.merkleBlocks == s.cache.merkleBlocks
                               && e.state.cache.blocksProcessed == s.cache.blocksProcessed
               else BlockTaken(s, e.state, b)
  {
    TestsExactly(s, b.transactions);
    TestsTouchOnlyCacheAndFilter(s, b.transactions);
    TestsAppendNoProof(s, b.transactions, b.hash);
    var e := if Looks(s) then TestTransactions(s, b.transactions) else Effect(s, false);
    AddBlockStores(e.state.cache, b);
  }

  /**
   * In every run: the block of a subscribed session is counted, and stored with its merkle block
   * exactly if it shares a transaction with the cache, in which, as long as no block is cached, the
   * block's own matching transactions are put first.
   */
  lemma BlockArrives(f: Filter, es: seq<Event>, b: Block)
    requires Run(Subscribe(f), es).subscribed
    ensures var s := Run(Subscribe(f), es);
            var e := Step(s, NewBlock(b));
            && OnlyCacheAndFilter(s, e.state)
            && (e.threw <==> Looks(s) && exists k: nat :: CutOffAt(s.filter, b.transactions, k))
            && if e.threw then e.state.cache.blocks == s.cache.blocks
                               && e.state.cache.merkleBlocks == s.cache.merkleBlocks
                               && e.state.cache.blocksProcessed == s.cache.blocksProcessed
               else BlockTaken(s, e.state, b)
  {
    Reachable(f, es, b.hash);
    BlockTakes(Run(Subscribe(f), es), b);
  }

  /** A transaction that the session has, or finds in a block while none is cached. */
  ghost predicate HasOrFinds(s: SessionState, b: Block, h: Hash) {
    h in TxHashes(s.cache.transactions) || (Looks(s) && Found(s.filter, b.transactions, h))
  }

  /** Block and merkle block are stored last, the merkle block still to be sent. */
  ghost predicate StoredLast(c: State, d: State, b: Block, m: MerkleBlock) {
    m.headerHash == b.hash && d.blocks == c.blocks + [b] && d.merkleBlocks == c.merkleBlocks + [MerkleEntry(m, false)]
  }

  lemma SharedIsStored(c: State, d: State, b: Block) returns (m: MerkleBlock)
    requires StoredIfShared(c, d, b) && Shared(c, b) != {} && |c.blocks| < 10
    ensures StoredLast(c, d, b, m) && Matched(m) == Shared(c, b)
  {
    m :| Proves(m, b, TxHashes(c.transactions)) && d.merkleBlocks == c.merkleBlocks + [MerkleEntry(m, false)];
  }

  lemma TestedIsShared(s: SessionState, c: State, b: Block)
    requires Looks(s) && Tested(s.filter, s.cache, c, b.transactions)
    ensures forall x :: x in Shared(c, b) <==> x in TxIds(b) && HasOrFinds(s, b, x)
  {
  }

  /**
   * So a block is proved for whichever of its transactions the session has: while there is room, it
   * is stored with a merkle block, still to be sent, that proves them all.
   */
  lemma BlockIsProved(f: Filter, es: seq<Event>, b: Block, h: Hash) returns (m: MerkleBlock)
    requires var s := Run(Subscribe(f), es);
             && s.subscribed && |s.cache.blocks| < 10 && !Step(s, NewBlock(b)).threw
             && h in TxIds(b) && HasOrFinds(s, b, h)
    ensures var s := Run(Subscribe(f), es);
            && StoredLast(s.cache, Step(s, NewBlock(b)).state.cache, b, m)
            && forall x :: x in Matched(m) <==> x in TxIds(b) && HasOrFinds(s, b, x)
  {
    var s := Run(Subscribe(f), es);
    var d := Step(s, NewBlock(b)).state.cache;
    BlockArrives(f, es, b);
    if Looks(s) {
      var c :| Tested(s.filter, s.cache, c, b.transactions) && StoredIfShared(c, d, b);
      TestedIsShared(s, c, b);
      assert h in Shared(c, b);
      m := SharedIsStored(c, d, b);
    } else {
      assert h in Shared(s.cache, b);
      m := SharedIsStored(s.cache, d, b);
    }
  }

  // ----- a block that has been sent as history -----

  /** The first block cached under the hash stands at `k`. */
  ghost predicate FirstUnder(bs: seq<Block>, hash: Hash, k: nat) {
    k < |bs| && bs[k].hash == hash && forall i :: 0 <= i < k ==> bs[i].hash != hash
  }

  lemma {:induction false} FindsFirst(bs: seq<Block>, hash: Hash, k: nat)
    requires FirstUnder(bs, hash, k)
    ensures FindBlock(bs, hash) == Some(bs[k])
  {
    if k > 0 {
      assert forall i :: 0 <= i < |bs[1..]| ==> bs[1..][i] == bs[i + 1];
      FindsFirst(bs[1..], hash, k - 1);
    }
  }

  /** The data of a block handled as sent: its transactions, and the last block and merkle block of its hash. */
  ghost predicate Taken(c: State, d: State, b: Block) {
    && Selected(d.transactions, c.transactions, Stays(TxIds(b)))
    && d.blocks == RemoveAt(c.blocks, LastIndex(BlockIds(c.blocks), b.hash))
    && d.merkleBlocks == RemoveAt(c.merkleBlocks, LastIndex(ProofIds(c.merkleBlocks), b.hash))
    && d.waiting == c.waiting && d.blocksProcessed == c.blocksProcessed && d.locks == c.locks
  }

  /** In every run: what a block sent as history takes out of the cache, if it is cached, and otherwise nothing. */
  lemma HistoryArrives(f: Filter, es: seq<Event>, hash: Hash)
    requires Run(Subscribe(f), es).subscribed
    ensures var s := Run(Subscribe(f), es);
            var e := Step(s, HistoricalBlockSent(hash));
            && !e.threw && e.state == s.(cache := e.state.cache)
            && (forall k: nat :: FirstUnder(s.cache.blocks, hash, k) ==>
                                   Taken(s.cache, e.state.cache, s.cache.blocks[k]))
            && ((forall b :: b in s.cache.blocks ==> b.hash != hash) ==> e.state.cache == s.cache)
  {
    var s := Run(Subscribe(f), es);
    forall k: nat | FirstUnder(s.cache.blocks, hash, k)
      ensures Taken(s.cache, Step(s, HistoricalBlockSent(hash)).state.cache, s.cache.blocks[k])
    {
      FindsFirst(s.cache.blocks, hash, k);
      KeptInOrder(s.cache.transactions, TxIds(s.cache.blocks[k]));
    }
  }
}
