/**
 * Which arriving blocks put the order on the wire at risk, over the handler's runs: exactly, once all
 * history has been written, and exactly while the rest of history is not known yet.
 */
module StreamBlocks {
  import opened Common
  import opened BloomFilters
  import opened CacheValues
  import opened SessionValues
  import opened SessionTheorems
  import opened Alignment
  import opened ProofOrder
  import opened BlockConflicts
  import opened ProofOrderExact
  import opened History
  import opened ClientStream
  import opened StreamOrder

  // ----- arriving blocks -----

  lemma BlockHeard(st: Stream, b: Block)
    ensures Act(st, Broadcast(NewBlock(b))).session == Step(st.session, NewBlock(b)).state
    ensures Act(st, Broadcast(NewBlock(b))).todo == st.todo
    ensures Act(st, Broadcast(NewBlock(b))).progress == st.progress
    ensures Step(st.session, NewBlock(b)).state.sent == st.session.sent
  {
    RunOne(st.session, NewBlock(b));
    OnBlockSends(st.session, b);
  }

  /** What a block does to a session that has nothing left to remove. */
  lemma BlockKeepsOwedCached(known: set<Hash>, s: SessionState, b: Block)
    requires s.subscribed && OwedIsCached(known, s)
    ensures OwedIsCached(known, Step(s, NewBlock(b)).state) <==> HasMatch(s.cache, b) ==> !EvictsOwed(known, s, b)
  {
    if |s.cache.blocks| == 0 {
      var e := TestTransactions(s, b.transactions);
      TestsAreRicher(s, b.transactions);
      RicherOwes(known, s, e.state);
      CachedExactly(known, e.state, b);
    } else {
      CachedExactly(known, s, b);
    }
  }

  lemma {:induction false} TestsAreRicher(s: SessionState, txs: seq<Transaction>)
    ensures Richer(s, TestTransactions(s, txs).state)
    decreases txs
  {
    if txs != [] {
      TestIsRicher(s, txs[0]);
      TestsAreRicher(TestTransaction(s, txs[0]).state, txs[1..]);
    }
  }

  /**
   * With all history written, before the hand-over or after: a block can lead to a wire out of order,
   * without further blocks, exactly if storing it evicts a transaction the client does not have from
   * under a merkle block that is still to be sent.
   */
  lemma LateBlockExactly(f: Filter, items: seq<Item>, acts: seq<Action>, b: Block)
    requires Carried(items)
    requires var st := Acts(Open(f, items), acts);
             st.todo == [] && st.progress != Aborted && st.session.subscribed
             && StreamSafe(HistoryOf(items), st) && WireProofsFollow(st.wire)
    ensures var st := Acts(Open(f, items), acts);
            (HasMatch(st.session.cache, b) ==> !EvictsOwed(HistoryOf(items), st.session, b))
            <==> StaysOrdered(Act(st, Broadcast(NewBlock(b))))
  {
    var st := Acts(Open(f, items), acts);
    var t := Act(st, Broadcast(NewBlock(b)));
    OpenReached(f, items, acts);
    ActReached(st, Broadcast(NewBlock(b)), items);
    BlockHeard(st, b);
    WireIffSent(st, items);
    WireIffSent(t, items);
    BlockKeepsOwedCached(HistoryOf(items), st.session, b);
    BlockKeepsSubscribed(st.session, b);
    SafeStreamFrom(t, items);
  }

  lemma BlockKeepsSubscribed(s: SessionState, b: Block)
    ensures Step(s, NewBlock(b)).state.subscribed == s.subscribed
    ensures Step(s, NewBlock(b)).state.mempoolListenerArmed == s.mempoolListenerArmed
  {
    TestsTouchOnlyCacheAndFilter(s, b.transactions);
  }

  // ----- while history is written -----

  lemma MoreKnown(known: set<Hash>, more: set<Hash>, s: SessionState)
    requires Safe(known, s) && known <= more
    ensures Safe(more, s)
  {
    assert forall i: nat, h :: Owes(more, s, i, h) ==> Owes(known, s, i, h);
  }

  /** Whatever history is still reported sent, a safe session keeps what it owes. */
  lemma {:induction false} RemoveAllSafe(known: set<Hash>, s: SessionState, rest: seq<Item>)
    requires Safe(known, s) && s.mempoolListenerArmed
    ensures Safe(known, s.(cache := RemoveAll(s.cache, rest)))
    decreases rest
  {
    if rest != [] {
      var hash := rest[0].merkleBlock.headerHash;
      RemovalSafe(known, s, hash);
      RemoveAllSafe(known, s.(cache := RemoveDataByBlockHash(s.cache, hash)), rest[1..]);
    }
  }

  /** The stream with its history to come replaced. */
  function Resumed(st: Stream, rest: seq<Item>): Stream {
    st.(todo := rest)
  }

  lemma ResumedReached(st: Stream, items: seq<Item>, rest: seq<Item>)
    requires Reached(st, items) && st.progress == Scanning
    ensures Reached(Resumed(st, rest), st.done + rest)
  {
  }

  lemma HistoryConcat(a: seq<Item>, b: seq<Item>)
    ensures HistoryOf(a + b) == HistoryOf(a) + HistoryOf(b)
  {
    assert forall i :: i in a + b <==> i in a || i in b;
  }

  lemma SafeResumes(st: Stream, items: seq<Item>, rest: seq<Item>)
    requires Reached(st, items) && Carried(st.done) && st.progress == Scanning
    requires Safe(HistoryOf(st.done), st.session) && Carried(rest)
    ensures StaysOrdered(Resumed(st, rest))
  {
    var known, t := HistoryOf(st.done + rest), Resumed(st, rest);
    ResumedReached(st, items, rest);
    HistoryConcat(st.done, rest);
    MoreKnown(HistoryOf(st.done), known, st.session);
    RemoveAllSafe(known, st.session, rest);
    SafeIsCached(known, AfterHistory(t));
    assert forall i :: i in st.done + rest ==> i in st.done || i in rest;
    WireIffSent(t, st.done + rest);
    SafeStreamFrom(t, st.done + rest);
  }

  /** A history that consists of this block, of which it proves nothing. */
  function Bare(hash: Hash): seq<Item> {
    [Item(MerkleBlock(hash, [], []), [], 0)]
  }

  lemma BareHistory(done: seq<Item>, rest: seq<Item>, hash: Hash)
    requires rest == [] || rest == Bare(hash)
    ensures HistoryOf(done + rest) == HistoryOf(done) && Carried(rest)
  {
    HistoryConcat(done, rest);
    assert HistoryOf(rest) == {};
  }

  /** Some history to come leaves an unsafe session owing what it no longer caches. */
  lemma UnsafeResumes(known: set<Hash>, s: SessionState) returns (rest: seq<Item>, hash: Hash)
    requires !Safe(known, s) && s.mempoolListenerArmed
    ensures rest == [] || rest == Bare(hash)
    ensures !OwedIsCached(known, s.(cache := RemoveAll(s.cache, rest)))
  {
    var i: nat, h :| Owes(known, s, i, h) && !Covered(s.cache, i, h);
    rest, hash := [], [];
    if h in TxHashes(s.cache.transactions) {
      hash :| Takes(s.cache.blocks, hash, h) && LastIndex(ProofIds(s.cache.merkleBlocks), hash) != i;
      rest := Bare(hash);
      RemovalDrops(s, hash);
      DroppedUncovered(known, s, hash, s.(cache := RemoveDataByBlockHash(s.cache, hash)), i, h);
      assert RemoveAll(s.cache, rest) == RemoveDataByBlockHash(s.cache, hash);
    }
  }

  lemma UnsafeShowsOnWire(st: Stream, items: seq<Item>) returns (rest: seq<Item>)
    requires Reached(st, items) && Carried(st.done) && st.progress == Scanning
    requires !Safe(HistoryOf(st.done), st.session)
    ensures Carried(rest) && !StaysOrdered(Resumed(st, rest))
  {
    var hash;
    rest, hash := UnsafeResumes(HistoryOf(st.done), st.session);
    BareHistory(st.done, rest, hash);
    ResumedReached(st, items, rest);
    assert forall i :: i in st.done + rest ==> i in st.done || i in rest;
    SafeStreamFrom(Resumed(st, rest), st.done + rest);
  }

  /** The law at a scanning stream whose session is held. */
  lemma CollectingBlockFrom(st: Stream, items: seq<Item>, b: Block)
    requires Reached(st, items) && Carried(st.done) && st.progress == Scanning
    requires Held(HistoryOf(st.done), st.session) && Coherent(st.session.cache.blocks + [b])
    ensures Admissible(HistoryOf(st.done), st.session, b)
            <==> forall rest: seq<Item> :: Carried(rest) ==>
                   StaysOrdered(Resumed(Act(st, Broadcast(NewBlock(b))), rest))
  {
    var t := Act(st, Broadcast(NewBlock(b)));
    BlockExactly(HistoryOf(st.done), st.session, b);
    ActReached(st, Broadcast(NewBlock(b)), items);
    BlockHeard(st, b);
    assert t.done == st.done;
    if Admissible(HistoryOf(st.done), st.session, b) {
      forall rest: seq<Item> | Carried(rest) ensures StaysOrdered(Resumed(t, rest)) {
        SafeResumes(t, items, rest);
      }
    } else {
      var rest := UnsafeShowsOnWire(t, items);
    }
  }

  /**
   * While history is written, after blocks that were admissible: a block is admissible, that is, has
   * no conflict over a cached transaction that has not been written, exactly if no history still to
   * come and no later action, blocks aside, leads to a wire out of order.
   */
  lemma CollectingBlockExactly(f: Filter, items: seq<Item>, acts: seq<Action>, b: Block)
    requires Carried(items) && Acts(Open(f, items), acts).progress == Scanning
    requires var heard := AllHeard(Open(f, items), acts);
             && Coherent(BlocksOf(heard) + [b])
             && AdmissibleRun(HistoryOf(Acts(Open(f, items), acts).done), Subscribe(f), heard)
    ensures var st := Acts(Open(f, items), acts);
            Admissible(HistoryOf(st.done), st.session, b)
            <==> forall rest: seq<Item> :: Carried(rest) ==>
                   StaysOrdered(Resumed(Act(st, Broadcast(NewBlock(b))), rest))
  {
    var st, heard := Acts(Open(f, items), acts), AllHeard(Open(f, items), acts);
    OpenReached(f, items, acts);
    SessionHears(Open(f, items), acts);
    assert forall x :: x in BlocksOf(heard) ==> x in BlocksOf(heard) + [b];
    FromSubscription(HistoryOf(st.done), f, heard);
    assert forall i :: i in st.done ==> i in st.done + st.todo;
    assert forall x :: x in st.session.cache.blocks + [b] ==> x in BlocksOf(heard) + [b];
    CollectingBlockFrom(st, items, b);
  }

  // ----- over whole runs -----

  /** If the blocks heard are admissible when they arrive, the whole wire is in order. */
  lemma AdmissibleWireIsOrdered(f: Filter, items: seq<Item>, acts: seq<Action>)
    requires Carried(items)
    requires var heard := AllHeard(Open(f, items), acts);
             Coherent(BlocksOf(heard)) && AdmissibleRun(HistoryOf(items), Subscribe(f), heard)
    ensures WireProofsFollow(Acts(Open(f, items), acts).wire)
  {
    OpenReached(f, items, acts);
    SessionHears(Open(f, items), acts);
    TransactionsBeforeProofs(HistoryOf(items), f, AllHeard(Open(f, items), acts));
    WireIffSent(Acts(Open(f, items), acts), items);
  }
}
