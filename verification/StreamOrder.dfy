/**
 * Transactions before proofs on the client's wire: over the handler's own runs, what has been
 * written as history included, the order holds exactly as long as the stream is safe.
 */
module StreamOrder {
  import opened Common
  import opened BloomFilters
  import opened CacheValues
  import opened SessionValues
  import opened Counting
  import opened SessionInvariants
  import opened Alignment
  import opened ProofBacking
  import opened ProofOrder
  import opened ProofOrderExact
  import opened CollectionValues
  import opened History
  import opened ClientStream

  // ----- the wire and the session's messages -----

  /** The transactions that historical items bring. */
  function HistoryOf(items: seq<Item>): set<Hash> {
    set i, t | i in items && t in i.transactions :: t.hash
  }

  ghost predicate Carried(items: seq<Item>) {
    forall i :: i in items ==> Carries(i)
  }

  lemma WireHasConcat(a: seq<Wire>, b: seq<Wire>, h: Hash)
    ensures WireHas(a + b, h) <==> WireHas(a, h) || WireHas(b, h)
  {
    if WireHas(a, h) {
      var j, t :| 0 <= j < |a| && a[j].Transactions? && t in a[j].txs && t.hash == h;
      assert (a + b)[j] == a[j];
    }
    if WireHas(b, h) {
      var j, t :| 0 <= j < |b| && b[j].Transactions? && t in b[j].txs && t.hash == h;
      assert (a + b)[|a| + j] == b[j];
    }
  }

  lemma {:induction false} PairsHave(items: seq<Item>, h: Hash)
    ensures WireHas(Pairs(items), h) <==> h in HistoryOf(items)
  {
    if items != [] {
      var pair := [Transactions(items[0].transactions), Proof(items[0].merkleBlock)];
      PairsHave(items[1..], h);
      WireHasConcat(pair, Pairs(items[1..]), h);
      assert items == [items[0]] + items[1..];
      assert HistoryOf(items) == HistoryOf([items[0]]) + HistoryOf(items[1..]);
      assert WireHas(pair, h) <==> h in HistoryOf([items[0]]) by {
        if h in HistoryOf([items[0]]) {
          var t :| t in items[0].transactions && t.hash == h;
          assert pair[0].txs == items[0].transactions;
        }
      }
    }
  }

  lemma LiveHas(sent: seq<Message>, h: Hash)
    ensures WireHas(Live(sent), h) <==> TransactionSent(sent, h)
  {
    forall j | 0 <= j < |sent| && sent[j].TransactionMsg? && sent[j].transaction.hash == h
      ensures WireHas(Live(sent), h)
    {
      assert Live(sent)[j] == Transactions([sent[j].transaction]) && sent[j].transaction in Live(sent)[j].txs;
    }
  }

  lemma HasOnWire(items: seq<Item>, sent: seq<Message>, k: nat, h: Hash)
    requires k <= |sent|
    ensures WireHas((Pairs(items) + Live(sent))[..|Pairs(items)| + k], h) <==> Has(HistoryOf(items), sent[..k], h)
  {
    assert (Pairs(items) + Live(sent))[..|Pairs(items)| + k] == Pairs(items) + Live(sent[..k]);
    WireHasConcat(Pairs(items), Live(sent[..k]), h);
    PairsHave(items, h);
    LiveHas(sent[..k], h);
  }

  /** Behind complete history, the wire is in order exactly if the session's messages are. */
  lemma WireAfterHistory(items: seq<Item>, sent: seq<Message>)
    requires Carried(items)
    ensures WireProofsFollow(Pairs(items) + Live(sent)) <==> ProofsFollow(HistoryOf(items), sent)
  {
    var pairs, live := Pairs(items), Live(sent);
    var wire := pairs + live;
    PairsFollow(items);
    if WireProofsFollow(wire) {
      forall k, h | 0 <= k < |sent| && sent[k].ProofMsg? && h in Matched(sent[k].merkleBlock)
        ensures Has(HistoryOf(items), sent[..k], h)
      {
        assert wire[|pairs| + k] == live[k] == OnWire(sent[k]);
        HasOnWire(items, sent, k, h);
      }
    }
    if ProofsFollow(HistoryOf(items), sent) {
      forall n, h | 0 <= n < |wire| && wire[n].Proof? && h in Matched(wire[n].merkleBlock)
        ensures WireHas(wire[..n], h)
      {
        if n < |pairs| {
          assert wire[..n] == pairs[..n];
        } else {
          assert wire[n] == live[n - |pairs|] == OnWire(sent[n - |pairs|]);
          HasOnWire(items, sent, n - |pairs|, h);
        }
      }
    }
  }

  // ----- streams a run can reach -----

  /** What every run from a subscription with these items keeps. */
  ghost predicate Reached(st: Stream, items: seq<Item>) {
    && Consistent(st) && Marked(st.session)
    && st.done + st.todo == items && (st.progress == HandedOver ==> st.todo == [])
  }

  lemma ActItems(st: Stream, a: Action)
    requires st.progress == HandedOver ==> st.todo == []
    ensures var t := Act(st, a);
            t.done + t.todo == st.done + st.todo && (t.progress == HandedOver ==> t.todo == [])
  {
    if Writes(st, a) {
      assert (st.done + [st.todo[0]]) + st.todo[1..] == st.done + st.todo;
    }
  }

  lemma ActMarked(st: Stream, a: Action)
    requires Marked(st.session) && Inv(st.session, [])
    ensures Marked(Act(st, a).session)
  {
    RunMarked(st.session, Heard(st, a));
  }

  lemma ActReached(st: Stream, a: Action, items: seq<Item>)
    requires Reached(st, items)
    ensures Reached(Act(st, a), items)
  {
    ActConsistent(st, a);
    ActMarked(st, a);
    ActItems(st, a);
  }

  lemma {:induction false} ActsReached(st: Stream, acts: seq<Action>, items: seq<Item>)
    requires Reached(st, items)
    ensures Reached(Acts(st, acts), items)
    decreases acts
  {
    if acts != [] {
      ActReached(st, acts[0], items);
      ActsReached(Act(st, acts[0]), acts[1..], items);
    }
  }

  lemma OpenReached(f: Filter, items: seq<Item>, acts: seq<Action>)
    ensures Reached(Acts(Open(f, items), acts), items)
  {
    Starts(f, []);
    ActsReached(Open(f, items), acts, items);
  }

  /** On the wire and in the session's messages, the order is the same. */
  lemma WireIffSent(st: Stream, items: seq<Item>)
    requires Reached(st, items) && Carried(items)
    ensures WireProofsFollow(st.wire) <==> ProofsFollow(HistoryOf(items), st.session.sent)
  {
    assert forall i :: i in st.done ==> i in st.done + st.todo;
    WireAfterHistory(st.done, st.session.sent);
    if st.session.sent != [] {
      assert st.done + [] == items;
    }
  }

  // ----- safe streams -----

  /** The cache once the blocks of these items have been handled as sent. */
  function RemoveAll(c: State, items: seq<Item>): State
    decreases items
  {
    if items == [] then c else RemoveAll(RemoveDataByBlockHash(c, items[0].merkleBlock.headerHash), items[1..])
  }

  /** The session as the history that is still to be written will leave it. */
  function AfterHistory(st: Stream): SessionState {
    st.session.(cache := RemoveAll(st.session.cache, st.todo))
  }

  /** Once the remaining history is written, whatever a waiting merkle block owes the client is cached. */
  ghost predicate StreamSafe(known: set<Hash>, st: Stream) {
    st.progress != Aborted && st.session.subscribed ==> OwedIsCached(known, AfterHistory(st))
  }

  predicate NoBlocks(acts: seq<Action>) {
    forall a :: a in acts ==> !(a.Broadcast? && a.event.NewBlock?)
  }

  lemma RemovalRicher(s: SessionState, t: SessionState, hash: Hash)
    requires Richer(s, t)
    ensures Richer(s.(cache := RemoveDataByBlockHash(s.cache, hash)), t.(cache := RemoveDataByBlockHash(t.cache, hash)))
  {
    var found := FindBlock(s.cache.blocks, hash);
    if found.Some? {
      KeepHashes(s.cache.transactions, TxIds(found.value));
      KeepHashes(t.cache.transactions, TxIds(found.value));
    }
  }

  lemma {:induction false} RemoveAllRicher(s: SessionState, t: SessionState, items: seq<Item>)
    requires Richer(s, t)
    ensures Richer(s.(cache := RemoveAll(s.cache, items)), t.(cache := RemoveAll(t.cache, items)))
    decreases items
  {
    if items != [] {
      var hash := items[0].merkleBlock.headerHash;
      RemovalRicher(s, t, hash);
      RemoveAllRicher(s.(cache := RemoveDataByBlockHash(s.cache, hash)),
                      t.(cache := RemoveDataByBlockHash(t.cache, hash)), items[1..]);
    }
  }

  lemma RicherStreamSafe(known: set<Hash>, st: Stream, st1: Stream)
    requires StreamSafe(known, st) && Richer(st.session, st1.session)
    requires st1.todo == st.todo && st1.progress == st.progress
    ensures StreamSafe(known, st1)
  {
    RemoveAllRicher(st.session, st1.session, st.todo);
    RicherOwes(known, AfterHistory(st), AfterHistory(st1));
  }

  // ----- the handler's actions, blocks aside -----

  lemma {:induction false} MempoolIsRicher(s: SessionState, txs: seq<Transaction>)
    requires Phased(s)
    ensures Richer(s, Run(s, Tests(txs)))
    decreases txs
  {
    if txs != [] {
      var t := Step(s, NewTransaction(txs[0])).state;
      assert Tests(txs)[1..] == Tests(txs[1..]);
      TestIsRicher(s, txs[0]);
      assert Phased(t);
      MempoolIsRicher(t, txs[1..]);
    }
  }

  /** A written pair takes out of the cache what it was expected to. */
  lemma WriteAsExpected(st: Stream)
    requires Writes(st, WriteNext) && st.session.subscribed
    ensures var t := Act(st, WriteNext);
            AfterHistory(t) == AfterHistory(st) && t.progress == Scanning && t.todo == st.todo[1..]
  {
    RunOne(st.session, HistoricalBlockSent(st.todo[0].merkleBlock.headerHash));
  }

  lemma WriteSafe(known: set<Hash>, st: Stream)
    requires StreamSafe(known, st) && Writes(st, WriteNext) && st.session.subscribed
    ensures StreamSafe(known, Act(st, WriteNext))
  {
    WriteAsExpected(st);
  }

  lemma HandOverSafe(known: set<Hash>, st: Stream, items: seq<Item>, txs: seq<Transaction>)
    requires Reached(st, items) && StreamSafe(known, st) && EndsScan(st, ReadMempool(txs, false))
    ensures var t := Act(st, ReadMempool(txs, false));
            StreamSafe(known, t) && ProofsFollow(known, t.session.sent)
  {
    HandOverHeard(st, txs);
    assert AfterHistory(st) == st.session;
    TestedIsReady(known, st.session, txs);
    DrainedIsSafe(known, Run(st.session, Tests(txs)));
  }

  lemma HandOverHeard(st: Stream, txs: seq<Transaction>)
    requires EndsScan(st, ReadMempool(txs, false))
    ensures var t := Act(st, ReadMempool(txs, false));
            && t.session == Step(Run(st.session, Tests(txs)), MempoolDataSent).state
            && t.todo == [] && t.progress == HandedOver
  {
    RunConcat(st.session, Tests(txs), [MempoolDataSent]);
    RunOne(Run(st.session, Tests(txs)), MempoolDataSent);
  }

  /** Testing the mempool leaves a collecting session collecting, with what it owes cached. */
  lemma TestedIsReady(known: set<Hash>, s: SessionState, txs: seq<Transaction>)
    requires Inv(s, []) && Marked(s) && s.mempoolListenerArmed && OwedIsCached(known, s)
    ensures var t := Run(s, Tests(txs));
            Inv(t, []) && Marked(t) && t.mempoolListenerArmed && OwedIsCached(known, t) && t.sent == []
  {
    MempoolIsRicher(s, txs);
    RicherOwes(known, s, Run(s, Tests(txs)));
    RunMarked(s, Tests(txs));
    KeepsCollecting(s, Tests(txs));
  }

  lemma DrainedIsSafe(known: set<Hash>, s: SessionState)
    requires Inv(s, []) && Marked(s) && s.mempoolListenerArmed && OwedIsCached(known, s) && s.sent == []
    ensures var t := Step(s, MempoolDataSent).state;
            OwedIsCached(known, t) && ProofsFollow(known, t.sent)
  {
    StepFollows(known, s, MempoolDataSent);
    TurnLoopOwesNothing(known, StartForwarding(s));
  }

  lemma WakeSafe(known: set<Hash>, st: Stream, items: seq<Item>)
    requires Reached(st, items) && StreamSafe(known, st)
    ensures StreamSafe(known, Act(st, Wake))
  {
    RunOne(st.session, LoopTurn);
    if st.session.looping && st.session.isClientConnected {
      TurnLoopOwesNothing(known, st.session);
    }
  }

  lemma BroadcastSafe(known: set<Hash>, st: Stream, items: seq<Item>, e: NetworkEvent)
    requires Reached(st, items) && StreamSafe(known, st) && !e.NewBlock?
    ensures StreamSafe(known, Act(st, Broadcast(e)))
  {
    RunOne(st.session, e);
    match e
    case NewTransaction(tx) =>
      TestIsRicher(st.session, tx);
      RicherStreamSafe(known, st, Act(st, Broadcast(e)));
    case NewInstantLock(lock, tx) =>
      LockIsRicher(st.session, lock, tx);
      RicherStreamSafe(known, st, Act(st, Broadcast(e)));
  }

  /** An action that broadcasts no block keeps a safe stream safe. */
  lemma ActSafe(known: set<Hash>, st: Stream, items: seq<Item>, a: Action)
    requires Reached(st, items) && StreamSafe(known, st) && !(a.Broadcast? && a.event.NewBlock?)
    ensures StreamSafe(known, Act(st, a))
  {
    match a
    case WriteNext => if Writes(st, a) { WriteSafe(known, st); }
    case ReadMempool(txs, aborted) =>
      if EndsScan(st, a) && !aborted {
        HandOverSafe(known, st, items, txs);
      }
    case Broadcast(e) => BroadcastSafe(known, st, items, e);
    case Wake => WakeSafe(known, st, items);
    case Cancel => if st.progress == HandedOver { RunOne(st.session, ClientDisconnected); }
  }

  /** While the stream is safe, no action sends a proof early. */
  lemma ActFollows(known: set<Hash>, st: Stream, items: seq<Item>, a: Action)
    requires Reached(st, items) && StreamSafe(known, st) && ProofsFollow(known, st.session.sent)
    ensures ProofsFollow(known, Act(st, a).session.sent)
  {
    ActReached(st, a, items);
    if st.progress == HandedOver {
      var es := Heard(st, a);
      if es != [] {
        RunOne(st.session, es[0]);
        assert es == [es[0]];
        StepFollows(known, st.session, es[0]);
      }
    } else if EndsScan(st, a) && !a.aborted {
      HandOverSafe(known, st, items, a.transactions);
    }
  }

  lemma {:induction false} ActsFollow(known: set<Hash>, st: Stream, items: seq<Item>, acts: seq<Action>)
    requires Reached(st, items) && StreamSafe(known, st) && ProofsFollow(known, st.session.sent) && NoBlocks(acts)
    ensures ProofsFollow(known, Acts(st, acts).session.sent)
    decreases acts
  {
    if acts != [] {
      assert acts[0] in acts && forall a :: a in acts[1..] ==> a in acts;
      ActReached(st, acts[0], items);
      ActSafe(known, st, items, acts[0]);
      ActFollows(known, st, items, acts[0]);
      ActsFollow(known, Act(st, acts[0]), items, acts[1..]);
    }
  }

  // ----- an unsafe stream shows -----

  lemma ActsOne(st: Stream, a: Action)
    ensures Acts(st, [a]) == Act(st, a)
  {
    assert [a][1..] == [];
  }

  lemma ActsCons(st: Stream, a: Action, rest: seq<Action>)
    ensures Acts(st, [a] + rest) == Acts(Act(st, a), rest)
  {
    assert ([a] + rest)[1..] == rest;
  }

  lemma {:induction false} ActsConcat(st: Stream, acts: seq<Action>, rest: seq<Action>)
    ensures Acts(st, acts + rest) == Acts(Acts(st, acts), rest)
    decreases acts
  {
    if acts == [] {
      assert acts + rest == rest;
    } else {
      assert (acts + rest)[1..] == acts[1..] + rest;
      ActsConcat(Act(st, acts[0]), acts[1..], rest);
    }
  }

  lemma HandOverShows(known: set<Hash>, st: Stream, items: seq<Item>)
    requires Reached(st, items) && !StreamSafe(known, st) && st.todo == []
    ensures var a := if st.progress == HandedOver then Wake else ReadMempool([], false);
            !ProofsFollow(known, Act(st, a).session.sent)
  {
    var s := st.session;
    assert AfterHistory(st) == s;
    var i: nat, h :| Owes(known, s, i, h) && h !in TxHashes(s.cache.transactions);
    DrainShows(known, s, i, h);
    RunOne(s, Drain(s));
    assert Tests([]) + [MempoolDataSent] == [MempoolDataSent];
  }

  lemma LastActionShows(known: set<Hash>, st: Stream, items: seq<Item>) returns (later: seq<Action>)
    requires Reached(st, items) && !StreamSafe(known, st) && st.todo == []
    ensures NoBlocks(later) && !ProofsFollow(known, Acts(st, later).session.sent)
  {
    later := [if st.progress == HandedOver then Wake else ReadMempool([], false)];
    HandOverShows(known, st, items);
    ActsOne(st, later[0]);
  }

  lemma WriteUnsafe(known: set<Hash>, st: Stream, items: seq<Item>)
    requires Reached(st, items) && !StreamSafe(known, st) && st.todo != []
    ensures !StreamSafe(known, Act(st, WriteNext)) && |Act(st, WriteNext).todo| == |st.todo| - 1
  {
    WriteAsExpected(st);
  }

  lemma ShowsFromNext(known: set<Hash>, st: Stream, rest: seq<Action>)
    requires NoBlocks(rest) && !ProofsFollow(known, Acts(Act(st, WriteNext), rest).session.sent)
    ensures NoBlocks([WriteNext] + rest) && !ProofsFollow(known, Acts(st, [WriteNext] + rest).session.sent)
  {
    ActsCons(st, WriteNext, rest);
  }

  /** Writing the remaining history and then draining sends a proof early. */
  lemma {:induction false} UnsafeStreamShows(known: set<Hash>, st: Stream, items: seq<Item>)
    returns (later: seq<Action>)
    requires Reached(st, items) && !StreamSafe(known, st)
    ensures NoBlocks(later) && !ProofsFollow(known, Acts(st, later).session.sent)
    decreases |st.todo|
  {
    if st.todo == [] {
      later := LastActionShows(known, st, items);
    } else {
      var t := Act(st, WriteNext);
      ActReached(st, WriteNext, items);
      WriteUnsafe(known, st, items);
      var rest := UnsafeStreamShows(known, t, items);
      later := [WriteNext] + rest;
      ShowsFromNext(known, st, rest);
    }
  }

  // ----- the exact law -----

  /** Whatever the handler and the network do next, blocks aside, the wire stays in order. */
  ghost predicate StaysOrdered(st: Stream) {
    forall later: seq<Action> :: NoBlocks(later) ==> WireProofsFollow(Acts(st, later).wire)
  }

  /** The law at a stream that has been reached. */
  lemma SafeStreamFrom(st: Stream, items: seq<Item>)
    requires Reached(st, items) && Carried(items)
    ensures StreamSafe(HistoryOf(items), st) && WireProofsFollow(st.wire) <==> StaysOrdered(st)
  {
    var known := HistoryOf(items);
    WireIffSent(st, items);
    if !WireProofsFollow(st.wire) {
      var later: seq<Action> := [];
      assert NoBlocks(later) && Acts(st, later) == st;
    } else if !StreamSafe(known, st) {
      var later := UnsafeStreamShows(known, st, items);
      ActsReached(st, later, items);
      WireIffSent(Acts(st, later), items);
    } else {
      forall later: seq<Action> | NoBlocks(later) ensures WireProofsFollow(Acts(st, later).wire) {
        ActsFollow(known, st, items, later);
        ActsReached(st, later, items);
        WireIffSent(Acts(st, later), items);
      }
    }
  }

  /**
   * In every state of every run of the handler: the wire is in order and the stream is safe, if and
   * only if, whatever the handler and the network do next, blocks aside, the wire stays in order.
   */
  lemma SafeStreamExactly(f: Filter, items: seq<Item>, acts: seq<Action>)
    requires Carried(items)
    ensures var st := Acts(Open(f, items), acts);
            StreamSafe(HistoryOf(items), st) && WireProofsFollow(st.wire) <==> StaysOrdered(st)
  {
    OpenReached(f, items, acts);
    SafeStreamFrom(Acts(Open(f, items), acts), items);
  }

  lemma ActsPrefix(st: Stream, acts: seq<Action>, k: nat)
    requires 0 < k <= |acts|
    ensures Acts(st, acts[..k]) == Acts(Act(st, acts[0]), acts[1..][..k - 1])
  {
    assert acts[..k][0] == acts[0] && acts[..k][1..] == acts[1..][..k - 1];
  }

  lemma {:induction false} SafeRunOrdered(st: Stream, items: seq<Item>, acts: seq<Action>)
    requires Reached(st, items) && Carried(items) && ProofsFollow(HistoryOf(items), st.session.sent)
    requires forall k :: 0 <= k <= |acts| ==> StreamSafe(HistoryOf(items), Acts(st, acts[..k]))
    ensures ProofsFollow(HistoryOf(items), Acts(st, acts).session.sent)
    decreases acts
  {
    if acts != [] {
      var t, rest := Act(st, acts[0]), acts[1..];
      assert Acts(st, acts[..0]) == st;
      ActReached(st, acts[0], items);
      ActFollows(HistoryOf(items), st, items, acts[0]);
      forall k | 0 <= k <= |rest| ensures StreamSafe(HistoryOf(items), Acts(t, rest[..k])) {
        ActsPrefix(st, acts, k + 1);
      }
      SafeRunOrdered(t, items, rest);
    }
  }

  /** A run of the handler through safe streams writes no merkle block before a transaction it proves. */
  lemma WireIsOrdered(f: Filter, items: seq<Item>, acts: seq<Action>)
    requires Carried(items)
    requires forall k :: 0 <= k <= |acts| ==> StreamSafe(HistoryOf(items), Acts(Open(f, items), acts[..k]))
    ensures WireProofsFollow(Acts(Open(f, items), acts).wire)
  {
    OpenReached(f, items, []);
    OpenReached(f, items, acts);
    SafeRunOrdered(Open(f, items), items, acts);
    WireIffSent(Acts(Open(f, items), acts), items);
  }

  /**
   * Exactly, over whole runs: every stream a run goes through is safe, if and only if neither the run
   * nor a prefix of it can go on, without further blocks, to a wire that is out of order.
   */
  lemma WireOrderedExactly(f: Filter, items: seq<Item>, acts: seq<Action>)
    requires Carried(items)
    ensures (forall k :: 0 <= k <= |acts| ==> StreamSafe(HistoryOf(items), Acts(Open(f, items), acts[..k])))
            <==> forall k :: 0 <= k <= |acts| ==> StaysOrdered(Acts(Open(f, items), acts[..k]))
  {
    var known, st := HistoryOf(items), Open(f, items);
    if forall k :: 0 <= k <= |acts| ==> StreamSafe(known, Acts(st, acts[..k])) {
      forall k | 0 <= k <= |acts| ensures StaysOrdered(Acts(st, acts[..k])) {
        assert forall l :: 0 <= l <= k ==> acts[..k][..l] == acts[..l];
        WireIsOrdered(f, items, acts[..k]);
        SafeStreamExactly(f, items, acts[..k]);
      }
    } else {
      var k :| 0 <= k <= |acts| && !StreamSafe(known, Acts(st, acts[..k]));
      SafeStreamExactly(f, items, acts[..k]);
    }
  }

  // ----- a scan, and a network without repetitions -----

  lemma ScannedCarry(core: Core, proofs: seq<MerkleBlock>)
    requires forall h :: core.transactionOf(h).hash == h
    ensures Carried(Numbered(core, proofs, 0))
  {
    var items := Numbered(core, proofs, 0);
    forall item | item in items ensures Carries(item) {
      var i :| 0 <= i < |items| && items[i] == item;
      ItemsCarryMatches(core, proofs, 0, i);
    }
  }

  lemma MoreHistory(known: set<Hash>, sent: seq<Message>)
    requires ProofsFollow({}, sent)
    ensures ProofsFollow(known, sent)
  {
  }

  /**
   * For the items of a historical scan, when Core hands out the transactions it is asked for, and the
   * network neither repeats a block hash nor puts one transaction in two blocks, the wire is in order.
   */
  lemma ScannedWireIsOrdered(core: Core, proofs: seq<MerkleBlock>, f: Filter, acts: seq<Action>)
    requires forall h :: core.transactionOf(h).hash == h
    requires DistinctBlocks(BlocksOf(AllHeard(Open(f, Numbered(core, proofs, 0)), acts)))
    ensures WireProofsFollow(Acts(Open(f, Numbered(core, proofs, 0)), acts).wire)
  {
    var items := Numbered(core, proofs, 0);
    var st := Acts(Open(f, items), acts);
    ScannedCarry(core, proofs);
    OpenReached(f, items, acts);
    SessionHears(Open(f, items), acts);
    DistinctStreamIsOrdered(f, AllHeard(Open(f, items), acts));
    MoreHistory(HistoryOf(items), st.session.sent);
    WireIffSent(st, items);
  }
}
