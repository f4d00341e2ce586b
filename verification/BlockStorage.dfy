/**
 * What an arriving block leaves in the cache, said of the block's transactions and of what is cached:
 * when its merkle block is stored, what that says, and what has to give way to it.
 */
module BlockStorage {
  import opened Common
  import opened CacheValues
  import opened Counting
  import opened SessionTheorems
  import opened Deduplication
  import opened Selections
  import opened Retrieval

  // ----- the waiting list -----

  /** A block is counted, and only registrations more than ten blocks old are forgotten. */
  ghost predicate Counted(c: State, d: State) {
    && d.blocksProcessed == c.blocksProcessed + 1 && d.locks == c.locks
    && (forall h :: h in d.waiting <==> h in c.waiting && c.blocksProcessed + 1 - c.waiting[h] <= 10)
    && (forall h :: h in d.waiting ==> d.waiting[h] == c.waiting[h])
  }

  // ----- the merkle block -----

  /** One entry for each transaction of the block, in block order, flagged exactly if its hash is among these. */
  ghost predicate Proves(m: MerkleBlock, b: Block, known: set<Hash>) {
    && m.headerHash == b.hash && |m.txHashes| == |m.flags| == |b.transactions|
    && (forall k :: 0 <= k < |b.transactions| ==> m.txHashes[k] == b.transactions[k].hash)
    && (forall k :: 0 <= k < |b.transactions| ==> (m.flags[k] <==> b.transactions[k].hash in known))
    && Matched(m) == TxIds(b) * known
  }

  /** What the block shares with the cache. */
  function Shared(c: State, b: Block): set<Hash> {
    TxIds(b) * TxHashes(c.transactions)
  }

  lemma SharedIsMatch(c: State, b: Block)
    ensures HasMatch(c, b) <==> Shared(c, b) != {}
  {
    if HasMatch(c, b) {
      var t :| t in b.transactions && t.hash in TxHashes(c.transactions);
      assert t.hash in Shared(c, b);
    }
    if h :| h in Shared(c, b) {
      var t :| t in b.transactions && t.hash == h;
      assert HasMatch(c, b);
    }
  }

  lemma BuiltProves(c: State, b: Block)
    ensures Proves(BuildMerkleBlock(c, b), b, TxHashes(c.transactions))
  {
    MatchedByBuild(c, b);
  }

  // ----- storing -----

  /** Block and merkle block go last, and nothing else changes. */
  ghost predicate Added(c: State, d: State, b: Block) {
    && d.transactions == c.transactions && d.blocks == c.blocks + [b]
    && exists m :: Proves(m, b, TxHashes(c.transactions)) && d.merkleBlocks == c.merkleBlocks + [MerkleEntry(m, false)]
  }

  /** The first block goes, and with it the transactions it has and one merkle block and block of its hash, if any. */
  ghost predicate Replaced(c: State, d: State, b: Block)
    requires c.blocks != []
  {
    var oldest, rest := c.blocks[0], c.blocks[1..] + [b];
    && Selected(d.transactions, c.transactions, Stays(TxIds(oldest)))
    && d.blocks == RemoveAt(rest, LastIndex(BlockIds(rest), oldest.hash))
    && exists m, ms ::
         && Proves(m, b, TxHashes(c.transactions)) && ms == c.merkleBlocks + [MerkleEntry(m, false)]
         && d.merkleBlocks == RemoveAt(ms, LastIndex(ProofIds(ms), oldest.hash))
  }

  lemma PushAdds(c: State, b: Block)
    ensures Added(c, PushBlock(c, b), b)
  {
    BuiltProves(c, b);
  }

  lemma EvictReplaces(c: State, b: Block)
    requires |c.blocks| == 10
    ensures Replaced(c, StoreBlock(c, b), b)
  {
    var p := PushBlock(c, b);
    BuiltProves(c, b);
    assert p.blocks[0] == c.blocks[0] && p.blocks[1..] == c.blocks[1..] + [b];
    KeptInOrder(c.transactions, TxIds(c.blocks[0]));
    StoredProofs(c, b);
  }

  lemma StoredProofs(c: State, b: Block)
    requires |c.blocks| == 10
    ensures var ms := c.merkleBlocks + [MerkleEntry(BuildMerkleBlock(c, b), false)];
            StoreBlock(c, b).merkleBlocks == RemoveAt(ms, LastIndex(ProofIds(ms), c.blocks[0].hash))
  {
    assert PushBlock(c, b).blocks[0] == c.blocks[0];
  }

  /** A block is stored, with one more merkle block of its hash, exactly if it shares a transaction with the cache. */
  ghost predicate StoredIfShared(c: State, d: State, b: Block) {
    && Counted(c, d)
    && d.history[ProofAppended(b.hash)] == c.history[ProofAppended(b.hash)] + (if Shared(c, b) != {} then 1 else 0)
    && (Shared(c, b) != {} ==> if |c.blocks| < 10 then Added(c, d, b) else Replaced(c, d, b))
    && (Shared(c, b) == {} ==>
          d.transactions == c.transactions && d.blocks == c.blocks && d.merkleBlocks == c.merkleBlocks)
  }

  lemma AddBlockStores(c: State, b: Block)
    requires |c.blocks| <= 10
    ensures StoredIfShared(c, AddBlock(c, b), b)
  {
    var c1 := CountBlock(c);
    AddBlockCounts(c, b);
    SharedIsMatch(c, b);
    AddBlockNote(c, b, ProofAppended(b.hash));
    if HasMatch(c1, b) {
      if |c.blocks| < 10 {
        PushAdds(c1, b);
      } else {
        EvictReplaces(c1, b);
      }
    }
  }
}
