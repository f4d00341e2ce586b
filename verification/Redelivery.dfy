/** A block that is delivered twice, as a concrete run: the inputs on which two laws fail. */
module Redelivery {
  import opened Common
  import opened BloomFilters
  import opened CacheValues
  import opened SessionValues
  import opened Counting
  import opened SessionTheorems
  import opened Alignment
  import opened ProofOrder
  import opened CollectionValues
  import opened History
  import opened ClientStream
  import opened StreamOrder

  // ----- the data -----

  const HASH0 := HashOf(1)
  const HASH1 := HashOf(2)
  const BLOCK_HASH := HashOf(3)
  const PARENT_HASH := HashOf(4)

  const PAYS := Output(Some(Script([Chunk(1, Some([7]))], false, false)))

  /** An earlier transaction, and a block in which another one pays and the last spends the earlier one. */
  const PARENT := Transaction(PARENT_HASH, [], [PAYS])
  const TX0 := Transaction(HASH0, [], [PAYS])
  const TX1 := Transaction(HASH1, [Input(Some(PARENT_HASH), 0, None)], [])
  const BLOCK := Block(BLOCK_HASH, [TX0, TX1])

  /** Short data, hashes, and outpoints by their first byte, have positions of their own. */
  const SPREAD: Bytes -> set<nat> :=
    (d: Bytes) => if |d| < 4 then {0} else if |d| == 32 then {1} else {2 + d[0] as int}
  const PAYMENTS := Filter({0}, BLOOM_UPDATE_ALL, SPREAD)

  /** The run as the session hears it: the earlier transaction, and twice the block. */
  const TWICE: seq<Event> := [NewTransaction(PARENT), NewBlock(BLOCK), NewBlock(BLOCK)]

  /** The merkle block of that block, with both transactions cached. */
  const PROOF := MerkleBlock(BLOCK_HASH, [HASH0, HASH1], [true, true])

  lemma HashesDiffer()
    ensures HASH0 != HASH1 && PARENT_HASH !in {HASH0, HASH1}
    ensures TxIds(BLOCK) == {HASH0, HASH1} && Matched(PROOF) == {HASH0, HASH1}
  {
    assert HASH0[0] != HASH1[0] && PARENT_HASH[0] != HASH0[0] && PARENT_HASH[0] != HASH1[0];
    assert BLOCK.transactions[0] == TX0 && BLOCK.transactions[1] == TX1;
    assert PROOF.flags[0] && PROOF.txHashes[0] == HASH0 && PROOF.flags[1] && PROOF.txHashes[1] == HASH1;
  }

  lemma Payment(f: Filter, tx: Transaction)
    requires f.index == SPREAD && f.nFlags == BLOOM_UPDATE_ALL && 0 in f.bits && 1 !in f.bits
    requires |tx.hash| == 32 && tx.outputs == [PAYS]
    ensures Test(f, tx) == (Match, f.(bits := f.bits + {2 + tx.hash[0] as int}))
  {
    assert 1 in SPREAD(tx.hash);
    assert ChunkHit(f, PAYS.script.value.chunks[0]);
    assert StopAt(f, tx.outputs) == 0;
    assert Outpoint(tx.hash, 0)[0] == tx.hash[0];
  }

  lemma Spend(f: Filter)
    requires f.index == SPREAD && 1 !in f.bits
    ensures Test(f, TX1) == (if 6 in f.bits then Match else NoMatch, f)
  {
    assert 1 in SPREAD(HASH1);
    assert Outpoint(PARENT_HASH, 0)[0] == 4;
    assert InputHit(f, TX1.inputs[0]) <==> 6 in f.bits;
  }

  lemma MatchIsAdded(s: SessionState, tx: Transaction, f: Filter)
    requires Test(s.filter, tx) == (Match, f)
    ensures TestTransaction(s, tx) == Effect(s.(filter := f, cache := AddTransaction(s.cache, tx)), false)
  {
  }

  lemma ProofIsBuilt(c: State)
    requires TxHashes(c.transactions) == {PARENT_HASH, HASH0, HASH1}
    ensures BuildMerkleBlock(c, BLOCK) == PROOF && HasMatch(c, BLOCK)
  {
    HashesDiffer();
    assert TX0 in BLOCK.transactions;
  }

  /** Storing the block while there is room. */
  lemma BlockIsStored(c: State)
    requires TxHashes(c.transactions) == {PARENT_HASH, HASH0, HASH1} && |c.blocks| < CACHE_SIZE
    ensures var d := AddBlock(c, BLOCK);
            && d.transactions == c.transactions && d.blocks == c.blocks + [BLOCK]
            && d.merkleBlocks == c.merkleBlocks + [MerkleEntry(PROOF, false)]
  {
    ProofIsBuilt(CountBlock(c));
  }

  // ----- the session, event by event -----

  ghost predicate Announced(s: SessionState) {
    && s.filter == PAYMENTS.(bits := {0, 6}) && s.subscribed && s.sent == []
    && TxHashes(s.cache.transactions) == {PARENT_HASH}
    && s.cache.blocks == [] && s.cache.merkleBlocks == []
  }

  ghost predicate Cached(s: SessionState, blocks: seq<Block>, proofs: seq<MerkleEntry>) {
    && s.subscribed && s.sent == [] && TxHashes(s.cache.transactions) == {PARENT_HASH, HASH0, HASH1}
    && s.cache.blocks == blocks && s.cache.merkleBlocks == proofs
  }

  const ENTRY := MerkleEntry(PROOF, false)

  lemma Announcement()
    ensures Announced(Step(Subscribe(PAYMENTS), NewTransaction(PARENT)).state)
  {
    Payment(PAYMENTS, PARENT);
    assert {0} + {2 + PARENT_HASH[0] as int} == {0, 6};
    MatchIsAdded(Subscribe(PAYMENTS), PARENT, PAYMENTS.(bits := {0, 6}));
    AddedHashes(EMPTY, PARENT);
  }

  lemma BlockIsTested(s: SessionState)
    requires Announced(s)
    ensures var e := TestTransactions(s, BLOCK.transactions);
            !e.threw && TxHashes(e.state.cache.transactions) == {PARENT_HASH, HASH0, HASH1}
  {
    var s1 := TestTransaction(s, TX0).state;
    var f1 := PAYMENTS.(bits := {0, 3, 6});
    Payment(s.filter, TX0);
    assert {0, 6} + {2 + HASH0[0] as int} == {0, 3, 6};
    MatchIsAdded(s, TX0, f1);
    AddedHashes(s.cache, TX0);
    Spend(f1);
    MatchIsAdded(s1, TX1, f1);
    AddedHashes(s1.cache, TX1);
    assert BLOCK.transactions[1..] == [TX1] && [TX1][1..] == [];
    assert TestTransactions(s1, [TX1]) == Effect(TestTransaction(s1, TX1).state, false);
  }

  lemma FirstDelivery(s: SessionState)
    requires Announced(s)
    ensures Cached(Step(s, NewBlock(BLOCK)).state, [BLOCK], [ENTRY])
  {
    var e := TestTransactions(s, BLOCK.transactions);
    BlockIsTested(s);
    TestsTouchOnlyCacheAndFilter(s, BLOCK.transactions);
    BlockIsStored(e.state.cache);
    assert Step(s, NewBlock(BLOCK)).state == StoreNewBlock(e.state, BLOCK);
  }

  /** After the second delivery both arrays have the block twice. */
  lemma SecondDelivery(s: SessionState)
    requires Cached(s, [BLOCK], [ENTRY])
    ensures AddsAgainAt(s, NewBlock(BLOCK))
    ensures Cached(Step(s, NewBlock(BLOCK)).state, [BLOCK, BLOCK], [ENTRY, ENTRY])
  {
    ProofIsBuilt(s.cache);
    BlockIsStored(s.cache);
    assert BlockIds(s.cache.blocks)[0] == BLOCK_HASH;
    assert Step(s, NewBlock(BLOCK)).state == StoreNewBlock(s, BLOCK);
  }

  /** The arrays do not stay aligned: the run adds a hash that is still cached. */
  lemma TwiceMisaligns()
    ensures !NeverAgain(Subscribe(PAYMENTS), TWICE)
    ensures exists k :: 0 <= k <= |TWICE| && !Aligned(Run(Subscribe(PAYMENTS), TWICE[..k]).cache)
  {
    var s0 := Subscribe(PAYMENTS);
    var s1 := Step(s0, TWICE[0]).state;
    var s2 := Step(s1, TWICE[1]).state;
    var rest := TWICE[1..];
    Announcement();
    FirstDelivery(s1);
    SecondDelivery(s2);
    assert rest[0] == NewBlock(BLOCK) && rest[1..] == [NewBlock(BLOCK)];
    assert !NeverAgain(s2, [NewBlock(BLOCK)]);
    assert !NeverAgain(s1, rest);
    AlignedExactly(PAYMENTS, TWICE);
  }

  // ----- the order on the wire -----

  /** What history has of the block under the filter of the subscription: its first transaction alone. */
  const ITEM := Item(MerkleBlock(BLOCK_HASH, [HASH0, HASH1], [true, false]), [TX0], 0)

  /** The handler's run: the block comes twice, is then written as history, and the scan ends. */
  const BROADCASTS: seq<Action> :=
    [Broadcast(NewTransaction(PARENT)), Broadcast(NewBlock(BLOCK)), Broadcast(NewBlock(BLOCK))]
  const ENDING: seq<Action> := [WriteNext, ReadMempool([], false)]

  lemma ItemCarries()
    ensures Carried([ITEM]) && HistoryOf([ITEM]) == {HASH0}
  {
    assert ITEM.transactions[0] == TX0;
    assert forall h :: h in Matched(ITEM.merkleBlock) ==> h == HASH0;
    assert TX0 in ITEM.transactions;
    assert forall i :: i in [ITEM] ==> i == ITEM;
  }

  lemma BroadcastIsHeard(st: Stream, e: NetworkEvent)
    ensures var t := Act(st, Broadcast(e));
            t.session == Step(st.session, e).state && t.todo == st.todo && t.progress == st.progress
  {
    RunOne(st.session, e);
  }

  lemma BroadcastsAreHeard(st: Stream, e1: NetworkEvent, e2: NetworkEvent, e3: NetworkEvent)
    ensures var t := Acts(st, [Broadcast(e1), Broadcast(e2), Broadcast(e3)]);
            && t.session == Step(Step(Step(st.session, e1).state, e2).state, e3).state
            && t.todo == st.todo && t.progress == st.progress
  {
    var st1 := Act(st, Broadcast(e1));
    var st2 := Act(st1, Broadcast(e2));
    BroadcastIsHeard(st, e1);
    BroadcastIsHeard(st1, e2);
    BroadcastIsHeard(st2, e3);
    assert [Broadcast(e1), Broadcast(e2), Broadcast(e3)] == [Broadcast(e1)] + ([Broadcast(e2)] + [Broadcast(e3)]);
    ActsCons(st, Broadcast(e1), [Broadcast(e2)] + [Broadcast(e3)]);
    ActsCons(st1, Broadcast(e2), [Broadcast(e3)]);
    ActsOne(st2, Broadcast(e3));
  }

  lemma ActsTwo(st: Stream, a: Action, b: Action)
    ensures Acts(st, [a, b]) == Act(Act(st, a), b)
  {
    assert [a, b] == [a] + [b];
    ActsCons(st, a, [b]);
    ActsOne(Act(st, a), b);
  }

  /** The stream before the block is written as history. */
  lemma BeforeHistory(st0: Stream, acts: seq<Action>)
    requires st0.session == Subscribe(PAYMENTS) && acts == BROADCASTS
    ensures var st := Acts(st0, acts);
            && st.todo == st0.todo && st.progress == st0.progress
            && Cached(st.session, [BLOCK, BLOCK], [ENTRY, ENTRY])
  {
    BroadcastsAreHeard(st0, NewTransaction(PARENT), NewBlock(BLOCK), NewBlock(BLOCK));
    TwiceCached(st0.session);
  }

  lemma TwiceCached(s: SessionState)
    requires s == Subscribe(PAYMENTS)
    ensures Cached(Step(Step(Step(s, NewTransaction(PARENT)).state, NewBlock(BLOCK)).state, NewBlock(BLOCK)).state,
                   [BLOCK, BLOCK], [ENTRY, ENTRY])
  {
    var s1 := Step(s, NewTransaction(PARENT)).state;
    Announcement();
    FirstDelivery(s1);
    SecondDelivery(Step(s1, NewBlock(BLOCK)).state);
  }

  /** Removing the block's data once takes both transactions and leaves one merkle block that proves them. */
  lemma RemovedOnce(c: State)
    requires TxHashes(c.transactions) == {PARENT_HASH, HASH0, HASH1}
    requires c.blocks == [BLOCK, BLOCK] && c.merkleBlocks == [ENTRY, ENTRY]
    ensures var d := RemoveAll(c, [ITEM]);
            TxHashes(d.transactions) == {PARENT_HASH} && d.merkleBlocks == [ENTRY]
  {
    var d := RemoveDataByBlockHash(c, BLOCK_HASH);
    HashesDiffer();
    assert FindBlock(c.blocks, BLOCK_HASH) == Some(BLOCK);
    KeepHashes(c.transactions, TxIds(BLOCK));
    LastIndexIs(ProofIds(c.merkleBlocks), BLOCK_HASH, 1);
    assert d.merkleBlocks == [ENTRY];
    assert [ITEM][1..] == [];
    assert RemoveAll(c, [ITEM]) == d;
  }

  lemma LeftBehind(st: Stream)
    requires st.todo == [ITEM] && st.progress == Scanning && Cached(st.session, [BLOCK, BLOCK], [ENTRY, ENTRY])
    ensures !StreamSafe({HASH0}, st)
  {
    HashesDiffer();
    RemovedOnce(st.session.cache);
    assert Owes({HASH0}, AfterHistory(st), 0, HASH1);
  }

  /** Core, which has not seen the earlier transaction, finds in the block what history brings of it. */
  lemma HistoryIsTrue()
    ensures Test(PAYMENTS, TX0).0 == Match && Test(Test(PAYMENTS, TX0).1, TX1).0 == NoMatch
  {
    Payment(PAYMENTS, TX0);
    assert {0} + {2 + HASH0[0] as int} == {0, 3};
    Spend(PAYMENTS.(bits := {0, 3}));
  }

  /**
   * History has the block under the filter of the subscription, which finds its first transaction
   * alone; the session, whose filter has grown since, has both, and the block twice. The client gets a
   * merkle block that proves a transaction it is never sent.
   */
  lemma TwiceIsOutOfOrder(f: Filter, items: seq<Item>, acts: seq<Action>)
    requires f == PAYMENTS && items == [ITEM] && acts == BROADCASTS + ENDING
    ensures Test(f, TX0).0 == Match && Test(Test(f, TX0).1, TX1).0 == NoMatch
    ensures Carried(items) && !WireProofsFollow(Acts(Open(f, items), acts).wire)
  {
    var st := Acts(Open(f, items), acts[..3]);
    HistoryIsTrue();
    ItemCarries();
    BeforeHistory(Open(f, items), acts[..3]);
    LeftBehind(st);
    OpenReached(f, items, acts[..3]);
    EndIsOutOfOrder(st);
    assert acts == acts[..3] + [WriteNext, ReadMempool([], false)];
    ActsConcat(Open(f, items), acts[..3], [WriteNext, ReadMempool([], false)]);
    ActsTwo(st, WriteNext, ReadMempool([], false));
  }

  lemma EndIsOutOfOrder(st: Stream)
    requires Reached(st, [ITEM]) && st.todo == [ITEM] && st.progress == Scanning && !StreamSafe({HASH0}, st)
    ensures !WireProofsFollow(Act(Act(st, WriteNext), ReadMempool([], false)).wire)
  {
    var st1 := Act(st, WriteNext);
    ItemCarries();
    WriteUnsafe({HASH0}, st, [ITEM]);
    ActReached(st, WriteNext, [ITEM]);
    ScanIsOver(st);
    HandOverShows({HASH0}, st1, [ITEM]);
    ActReached(st1, ReadMempool([], false), [ITEM]);
    WireIffSent(Act(st1, ReadMempool([], false)), [ITEM]);
  }

  lemma ScanIsOver(st: Stream)
    requires st.todo == [ITEM] && st.progress == Scanning
    ensures Act(st, WriteNext).todo == [] && Act(st, WriteNext).progress == Scanning
  {
  }
}
