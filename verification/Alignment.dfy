/** The two cached arrays side by side: aligned by header hash exactly as long as no cached hash is added again. */
module Alignment {
  import opened Common
  import opened BloomFilters
  import opened CacheValues
  import opened SessionValues
  import opened SessionInvariants
  import opened SessionTheorems

  /** Blocks and merkle blocks stand in the same order, and no hash is cached twice. */
  ghost predicate Aligned(c: State) {
    ProofIds(c.merkleBlocks) == BlockIds(c.blocks) && NoRepeats(BlockIds(c.blocks))
  }

  /** The block would be stored under a hash that is still cached. */
  predicate AddsAgain(c: State, b: Block) {
    HasMatch(c, b) && b.hash in BlockIds(c.blocks)
  }

  predicate AddsAgainAt(s: SessionState, e: Event) {
    e.NewBlock? && s.subscribed && AddsAgain(s.cache, e.block)
  }

  /** No block of the run is added under a hash that is still cached. */
  predicate NeverAgain(s: SessionState, es: seq<Event>)
    decreases es
  {
    es == [] || (!AddsAgainAt(s, es[0]) && NeverAgain(Step(s, es[0]).state, es[1..]))
  }

  // ----- the cache operations -----

  lemma RemoveAligned(c: State, hash: Hash)
    requires Aligned(c)
    ensures Aligned(RemoveDataByBlockHash(c, hash))
  {
    var ids := BlockIds(c.blocks);
    WithoutProofIds(c.merkleBlocks, hash);
    WithoutBlockIds(c.blocks, hash);
    NoRepeatsRemoveAt(ids, LastIndex(ids, hash));
  }

  lemma PushIds(c: State, b: Block)
    ensures ProofIds(PushBlock(c, b).merkleBlocks) == ProofIds(c.merkleBlocks) + [b.hash]
    ensures BlockIds(PushBlock(c, b).blocks) == BlockIds(c.blocks) + [b.hash]
  {
  }

  lemma EvictIds(c: State)
    requires c.blocks != []
    ensures var ids, x, d := BlockIds(c.blocks), c.blocks[0].hash, EvictFirst(c);
            && ProofIds(d.merkleBlocks) == RemoveAt(ProofIds(c.merkleBlocks), LastIndex(ProofIds(c.merkleBlocks), x))
            && BlockIds(d.blocks) == RemoveAt(ids[1..], LastIndex(ids[1..], x))
  {
    WithoutProofIds(c.merkleBlocks, c.blocks[0].hash);
    WithoutBlockIds(c.blocks[1..], c.blocks[0].hash);
    assert BlockIds(c.blocks[1..]) == BlockIds(c.blocks)[1..];
  }

  /** What eviction makes of two equal arrays that were extended by `x`. */
  lemma EvictedIds(ids: seq<Hash>, x: Hash)
    requires NoRepeats(ids) && ids != []
    ensures var p := ids + [x];
            var proofs, blocks := RemoveAt(p, LastIndex(p, p[0])), RemoveAt(p[1..], LastIndex(p[1..], p[0]));
            proofs == blocks && NoRepeats(blocks) <==> x !in ids
  {
    var p := ids + [x];
    var rest := p[1..];
    assert rest == ids[1..] + [x];
    if x == ids[0] {
      LastIndexIs(p, x, |ids|);
      LastIndexIs(rest, x, |ids| - 1);
    } else {
      LastIndexIs(p, p[0], 0);
      LastIndexIs(rest, p[0], -1);
      if x in ids {
        var k :| 0 <= k < |ids| && ids[k] == x;
        assert rest[k - 1] == rest[|ids| - 1];
      }
    }
  }

  lemma StoreAligned(c: State, b: Block)
    requires Aligned(c)
    ensures Aligned(StoreBlock(c, b)) <==> b.hash !in BlockIds(c.blocks)
  {
    var ids, p := BlockIds(c.blocks), PushBlock(c, b);
    PushIds(c, b);
    if |p.blocks| > CACHE_SIZE {
      EvictIds(p);
      EvictedIds(ids, b.hash);
    } else if b.hash in ids {
      var k :| 0 <= k < |ids| && ids[k] == b.hash;
      assert BlockIds(p.blocks)[k] == BlockIds(p.blocks)[|ids|];
    }
  }

  lemma OnBlockAligned(s: SessionState, b: Block)
    requires Aligned(s.cache)
    ensures Aligned(OnBlock(s, b).state.cache) <==> !AddsAgain(s.cache, b)
  {
    TestsTouchOnlyCacheAndFilter(s, b.transactions);
    var e := if |s.cache.blocks| == 0 then TestTransactions(s, b.transactions) else Effect(s, false);
    if !e.threw {
      var c := CountBlock(e.state.cache);
      if HasMatch(c, b) {
        StoreAligned(c, b);
      }
    }
  }

  // ----- steps and runs -----

  lemma TurnLoopIds(s: SessionState)
    ensures ProofIds(TurnLoop(s).cache.merkleBlocks) == ProofIds(s.cache.merkleBlocks)
    ensures TurnLoop(s).cache.blocks == s.cache.blocks
  {
  }

  lemma StepAligned(s: SessionState, e: Event)
    requires Aligned(s.cache) && Phased(s)
    ensures Aligned(Step(s, e).state.cache) <==> !AddsAgainAt(s, e)
  {
    match e
    case NewTransaction(tx) => AddTransactionGrows(s.cache, tx);
    case NewBlock(b) => if s.subscribed { OnBlockAligned(s, b); }
    case NewInstantLock(lock, tx) => LockReaches(s, lock, tx);
    case HistoricalBlockSent(hash) => RemoveAligned(s.cache, hash);
    case MempoolDataSent => TurnLoopIds(StartForwarding(s));
    case LoopTurn => TurnLoopIds(s);
    case ClientDisconnected =>
  }

  lemma {:induction false} RunAligned(s: SessionState, es: seq<Event>)
    requires Aligned(s.cache) && Inv(s, [])
    ensures NeverAgain(s, es) <==> forall k :: 0 <= k <= |es| ==> Aligned(Run(s, es[..k]).cache)
    decreases es
  {
    assert es[..0] == [];
    if es != [] {
      var t, rest := Step(s, es[0]).state, es[1..];
      StepAligned(s, es[0]);
      StepKeeps(s, es[0], []);
      forall k | 0 < k <= |es| ensures Run(s, es[..k]) == Run(t, rest[..k - 1]) {
        RunPrefix(s, es, k);
      }
      assert Run(t, rest[..0]) == t;
      if !AddsAgainAt(s, es[0]) {
        RunAligned(t, rest);
        forall k | 0 <= k <= |rest| ensures Run(t, rest[..k]) == Run(s, es[..k + 1]) {
        }
      } else {
        assert Run(s, es[..1]) == t;
      }
    }
  }

  /**
   * After every prefix of a run the arrays of blocks and merkle blocks agree in their header hashes,
   * none of them twice, if and only if the run adds no hash that is still cached.
   */
  lemma AlignedExactly(f: Filter, es: seq<Event>)
    ensures NeverAgain(Subscribe(f), es) <==> forall k :: 0 <= k <= |es| ==> Aligned(Run(Subscribe(f), es[..k]).cache)
  {
    Starts(f, []);
    RunAligned(Subscribe(f), es);
  }

  // ----- what a block stream must be for that -----

  function Delivered(e: Event): seq<Block> {
    if e.NewBlock? then [e.block] else []
  }

  function BlocksOf(es: seq<Event>): seq<Block> {
    if es == [] then [] else Delivered(es[0]) + BlocksOf(es[1..])
  }

  lemma RemovalBlocks(c: State, b: Block, x: Block)
    ensures x in RemoveDataByBlock(c, b).blocks ==> x in c.blocks
  {
  }

  lemma AddBlockBlocks(c: State, b: Block, x: Block)
    requires x in AddBlock(c, b).blocks
    ensures x in c.blocks || x == b
  {
    var p := PushBlock(CountBlock(c), b);
    RemovalBlocks(p.(blocks := p.blocks[1..]), p.blocks[0], x);
  }

  /** A step caches no block but the one it delivers. */
  lemma StepBlocks(s: SessionState, e: Event, b: Block)
    requires Phased(s) && b in Step(s, e).state.cache.blocks
    ensures b in s.cache.blocks || e == NewBlock(b)
  {
    match e
    case NewTransaction(tx) => AddTransactionGrows(s.cache, tx);
    case NewBlock(b1) =>
      TestsTouchOnlyCacheAndFilter(s, b1.transactions);
      var e := if |s.cache.blocks| == 0 then TestTransactions(s, b1.transactions) else Effect(s, false);
      if s.subscribed && !e.threw {
        AddBlockBlocks(e.state.cache, b1, b);
      }
    case NewInstantLock(lock, tx) => LockReaches(s, lock, tx);
    case HistoricalBlockSent(hash) =>
      var found := FindBlock(s.cache.blocks, hash);
      if found.Some? {
        RemovalBlocks(s.cache, found.value, b);
      }
    case MempoolDataSent => TurnLoopSends(StartForwarding(s), []);
    case LoopTurn => TurnLoopSends(s, []);
    case ClientDisconnected =>
  }

  lemma StepBlocksSeen(s: SessionState, e: Event, seen: seq<Block>)
    requires Phased(s) && forall b :: b in s.cache.blocks ==> b in seen
    ensures forall b :: b in Step(s, e).state.cache.blocks ==> b in seen + Delivered(e)
  {
    forall b | b in Step(s, e).state.cache.blocks ensures b in seen + Delivered(e) {
      StepBlocks(s, e, b);
    }
  }

  /** No two delivered blocks share a hash. */
  ghost predicate DistinctHashes(bs: seq<Block>) {
    NoRepeats(BlockIds(bs))
  }

  lemma NotSeen(c: State, seen: seq<Block>, b: Block, all: seq<Block>)
    requires DistinctHashes(all) && seen + [b] <= all && forall x :: x in c.blocks ==> x in seen
    ensures b.hash !in BlockIds(c.blocks)
  {
    forall k | 0 <= k < |c.blocks| ensures c.blocks[k].hash != b.hash {
      assert c.blocks[k] in seen;
      var i :| 0 <= i < |seen| && seen[i] == c.blocks[k];
      assert all[i] == (seen + [b])[i] && all[|seen|] == (seen + [b])[|seen|];
      assert BlockIds(all)[i] != BlockIds(all)[|seen|];
    }
  }

  lemma {:induction false} DistinctNeverAgain(s: SessionState, seen: seq<Block>, es: seq<Event>)
    requires Inv(s, []) && DistinctHashes(seen + BlocksOf(es))
    requires forall b :: b in s.cache.blocks ==> b in seen
    ensures NeverAgain(s, es)
    decreases es
  {
    if es != [] {
      var rest, now := BlocksOf(es[1..]), seen + Delivered(es[0]);
      assert seen + (Delivered(es[0]) + rest) == now + rest;
      if es[0].NewBlock? {
        NotSeen(s.cache, seen, es[0].block, now + rest);
      }
      StepKeeps(s, es[0], []);
      StepBlocksSeen(s, es[0], seen);
      DistinctNeverAgain(Step(s, es[0]).state, now, es[1..]);
    }
  }

  /** A stream of distinct block hashes keeps the arrays aligned throughout. */
  lemma DistinctHashesAligned(f: Filter, es: seq<Event>)
    requires DistinctHashes(BlocksOf(es))
    ensures NeverAgain(Subscribe(f), es) && Aligned(Run(Subscribe(f), es).cache)
  {
    assert [] + BlocksOf(es) == BlocksOf(es);
    Starts(f, []);
    DistinctNeverAgain(Subscribe(f), [], es);
    AlignedExactly(f, es);
    assert es[..|es|] == es;
  }
}
