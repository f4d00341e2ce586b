/**
 * Transactions before their proofs: which states of a session can still send a merkle block before a
 * transaction it proves. The answer is exact, for every state of every run, in both phases. `known`
 * stands for the transactions the client has, or will have, from elsewhere: from history.
 */
module ProofOrder {
  import opened Common
  import opened BloomFilters
  import opened CacheValues
  import opened SessionValues
  import opened Counting
  import opened SessionInvariants
  import opened SessionTheorems

  // ----- the property -----

  ghost predicate TransactionSent(sent: seq<Message>, h: Hash) {
    exists j :: 0 <= j < |sent| && sent[j].TransactionMsg? && sent[j].transaction.hash == h
  }

  /** The client has the transaction, from history or among these messages. */
  ghost predicate Has(known: set<Hash>, sent: seq<Message>, h: Hash) {
    h in known || TransactionSent(sent, h)
  }

  ghost predicate ProofsFollow(known: set<Hash>, sent: seq<Message>) {
    forall k, h :: 0 <= k < |sent| && sent[k].ProofMsg? && h in Matched(sent[k].merkleBlock) ==>
                     Has(known, sent[..k], h)
  }

  // ----- safe states -----

  /** The merkle block at `i` is still to be sent and proves `h`, which the client does not have. */
  ghost predicate Owes(known: set<Hash>, s: SessionState, i: nat, h: Hash) {
    && i < |s.cache.merkleBlocks| && !s.cache.merkleBlocks[i].isRetrieved
    && h in Matched(s.cache.merkleBlocks[i].merkleBlock) && !Has(known, s.sent, h)
  }

  ghost predicate OwedIsCached(known: set<Hash>, s: SessionState) {
    forall i: nat, h :: Owes(known, s, i, h) ==> h in TxHashes(s.cache.transactions)
  }

  /** Handling the block cached under `hash` as sent takes `h` out of the cache. */
  predicate Takes(bs: seq<Block>, hash: Hash, h: Hash) {
    FindBlock(bs, hash).Some? && h in TxIds(FindBlock(bs, hash).value)
  }

  /** `h` is cached, and whatever takes it away takes the merkle block at `i` away with it. */
  ghost predicate Covered(c: State, i: nat, h: Hash) {
    && h in TxHashes(c.transactions)
    && forall hash :: Takes(c.blocks, hash, h) ==> LastIndex(ProofIds(c.merkleBlocks), hash) == i
  }

  /** While history may still be reported sent, what is owed must be covered; after that, cached. */
  ghost predicate Safe(known: set<Hash>, s: SessionState) {
    s.subscribed ==>
      if s.mempoolListenerArmed then forall i: nat, h :: Owes(known, s, i, h) ==> Covered(s.cache, i, h)
      else OwedIsCached(known, s)
  }

  /** What the retrieval flags mean, in every run. */
  ghost predicate Marked(s: SessionState) {
    forall e :: e in s.cache.transactions && e.isRetrieved ==> TransactionSent(s.sent, e.transaction.hash)
  }

  // ----- messages -----

  lemma TransactionSentExtends(a: seq<Message>, b: seq<Message>, h: Hash)
    requires TransactionSent(a, h) && a <= b
    ensures TransactionSent(b, h)
  {
    var j :| 0 <= j < |a| && a[j].TransactionMsg? && a[j].transaction.hash == h;
    assert b[j] == a[j];
  }

  /** Appending messages is safe if every proof among them is covered by what was sent before. */
  lemma ProofsFollowAppend(known: set<Hash>, a: seq<Message>, b: seq<Message>)
    requires ProofsFollow(known, a)
    requires forall m, h :: m in b && m.ProofMsg? && h in Matched(m.merkleBlock) ==> Has(known, a, h)
    ensures ProofsFollow(known, a + b)
  {
    forall k, h | 0 <= k < |a + b| && (a + b)[k].ProofMsg? && h in Matched((a + b)[k].merkleBlock)
      ensures Has(known, (a + b)[..k], h)
    {
      if k < |a| {
        assert (a + b)[..k] == a[..k];
      } else {
        assert (a + b)[k] == b[k - |a|];
        HasExtends(known, a, (a + b)[..k], h);
      }
    }
  }

  lemma HasExtends(known: set<Hash>, a: seq<Message>, b: seq<Message>, h: Hash)
    requires Has(known, a, h) && a <= b
    ensures Has(known, b, h)
  {
    if h !in known {
      TransactionSentExtends(a, b, h);
    }
  }

  lemma {:induction false} UnretrievedMembers(ts: seq<TxEntry>, tx: Transaction)
    ensures tx in UnretrievedTransactions(ts) <==> TxEntry(tx, false) in ts
  {
    if ts != [] {
      UnretrievedMembers(ts[1..], tx);
      assert ts == [ts[0]] + ts[1..];
    }
  }

  lemma {:induction false} UnretrievedProofMembers(ms: seq<MerkleEntry>, m: MerkleBlock)
    ensures m in UnretrievedMerkleBlocks(ms) <==> MerkleEntry(m, false) in ms
  {
    if ms != [] {
      UnretrievedProofMembers(ms[1..], m);
      assert ms == [ms[0]] + ms[1..];
    }
  }

  // ----- one turn of the loop -----

  /** Once the transactions have been drained, every cached one has been sent. */
  lemma DrainedTransactionsSent(s: SessionState, h: Hash)
    requires Marked(s) && h in TxHashes(s.cache.transactions)
    ensures TransactionSent(DrainTransactions(s).sent, h)
  {
    var e :| e in s.cache.transactions && e.transaction.hash == h;
    var unsent := UnretrievedTransactions(s.cache.transactions);
    var more := TransactionMsgs(unsent);
    if e.isRetrieved {
      TransactionSentExtends(s.sent, s.sent + more, h);
    } else {
      UnretrievedMembers(s.cache.transactions, e.transaction);
      var i :| 0 <= i < |unsent| && unsent[i] == e.transaction;
      assert (s.sent + more)[|s.sent| + i] == more[i];
    }
  }

  lemma TurnLoopMarked(s: SessionState)
    requires Marked(s)
    ensures Marked(TurnLoop(s))
  {
    if s.isClientConnected {
      var t := TurnLoop(s);
      TakenHashes(s.cache);
      TurnLoopAppends(s);
      forall e | e in t.cache.transactions ensures TransactionSent(t.sent, e.transaction.hash) {
        assert e.transaction.hash in TxHashes(t.cache.transactions);
        DrainedTransactionsSent(s, e.transaction.hash);
        TransactionSentExtends(DrainTransactions(s).sent, t.sent, e.transaction.hash);
      }
    }
  }

  /** The messages of a turn before its merkle blocks contain none. */
  lemma NoProofsBefore(known: set<Hash>, s: SessionState)
    ensures var a := DrainTransactions(s); var b := DrainLocks(a);
            a.sent <= b.sent && b.cache.merkleBlocks == s.cache.merkleBlocks
            && (ProofsFollow(known, s.sent) ==> ProofsFollow(known, b.sent))
  {
    LockMsgsCount(s.cache.locks, s.cache.waiting.Keys, []);
    if ProofsFollow(known, s.sent) {
      ProofsFollowAppend(known, s.sent, TransactionMsgs(UnretrievedTransactions(s.cache.transactions)));
      ProofsFollowAppend(known, DrainTransactions(s).sent, LockMsgs(s.cache.locks, s.cache.waiting.Keys));
    }
  }

  /** A turn of the loop sends no proof early if what its proofs owe is cached. */
  lemma TurnLoopFollows(known: set<Hash>, s: SessionState)
    requires Marked(s) && ProofsFollow(known, s.sent) && (s.isClientConnected ==> OwedIsCached(known, s))
    ensures ProofsFollow(known, TurnLoop(s).sent)
  {
    if s.isClientConnected {
      var a := DrainTransactions(s);
      var b := DrainLocks(a);
      var proofs := UnretrievedMerkleBlocks(s.cache.merkleBlocks);
      NoProofsBefore(known, s);
      forall m, h | m in ProofMsgs(proofs) && m.ProofMsg? && h in Matched(m.merkleBlock)
        ensures Has(known, b.sent, h)
      {
        ProofCovered(known, s, m.merkleBlock, h);
        HasExtends(known, a.sent, b.sent, h);
      }
      ProofsFollowAppend(known, b.sent, ProofMsgs(proofs));
    }
  }

  lemma ProofCovered(known: set<Hash>, s: SessionState, m: MerkleBlock, h: Hash)
    requires Marked(s) && m in UnretrievedMerkleBlocks(s.cache.merkleBlocks) && h in Matched(m)
    requires OwedIsCached(known, s)
    ensures Has(known, DrainTransactions(s).sent, h)
  {
    UnretrievedProofMembers(s.cache.merkleBlocks, m);
    var i :| 0 <= i < |s.cache.merkleBlocks| && s.cache.merkleBlocks[i] == MerkleEntry(m, false);
    if Has(known, s.sent, h) {
      HasExtends(known, s.sent, DrainTransactions(s).sent, h);
    } else {
      assert Owes(known, s, i, h);
      DrainedTransactionsSent(s, h);
    }
  }

  lemma TurnLoopOwesNothing(known: set<Hash>, s: SessionState)
    requires s.isClientConnected
    ensures forall i: nat, h :: !Owes(known, TurnLoop(s), i, h)
  {
  }

  // ----- removals -----

  lemma {:induction false} FindBlockAt(bs: seq<Block>, hash: Hash, k: nat)
    requires k < |bs| && bs[k].hash == hash && forall i :: 0 <= i < k ==> bs[i].hash != hash
    ensures FindBlock(bs, hash) == Some(bs[k])
  {
    if k > 0 {
      FindBlockAt(bs[1..], hash, k - 1);
    }
  }

  lemma {:induction false} FindFirst(bs: seq<Block>, hash: Hash) returns (k: nat)
    requires FindBlock(bs, hash).Some?
    ensures k < |bs| && bs[k].hash == hash && FindBlock(bs, hash) == Some(bs[k])
    ensures forall i :: 0 <= i < k ==> bs[i].hash != hash
  {
    if bs[0].hash == hash {
      k := 0;
    } else {
      var l := FindFirst(bs[1..], hash);
      k := l + 1;
    }
  }

  /** Without the last block of one hash, the first block of any hash is the one it was, or there is none left. */
  lemma FindAfterRemoval(bs: seq<Block>, x: Hash, y: Hash)
    ensures var r := FindBlock(WithoutBlock(bs, x), y);
            r == FindBlock(bs, y) || (r.None? && x == y)
  {
    var k, ds := LastIndex(BlockIds(bs), x), WithoutBlock(bs, x);
    if FindBlock(ds, y).Some? {
      var j := FindFirst(ds, y);
      var i := Origin(j, k);
      assert ds[j] == bs[i];
      forall l | 0 <= l < i ensures bs[l].hash != y {
        if l == k {
          assert BlockIds(bs)[i] == y && BlockIds(bs)[k] == x;
        } else {
          RemoveAtShifts(bs, k, l);
        }
      }
      FindBlockAt(bs, y, i);
    } else if FindBlock(bs, y).Some? && x != y {
      var i := FindFirst(bs, y);
      RemoveAtShifts(bs, k, i);
    }
  }

  /**
   * `t` is `s` without the data of the block that stood first under `hash`: its transactions, the
   * last merkle block of that header, and blocks only of that hash.
   */
  ghost predicate Dropped(s: SessionState, hash: Hash, t: SessionState) {
    var b := FindBlock(s.cache.blocks, hash);
    && b.Some? && t == s.(cache := t.cache)
    && t.cache.transactions == Keep(s.cache.transactions, TxIds(b.value))
    && t.cache.merkleBlocks == WithoutProof(s.cache.merkleBlocks, hash)
    && (forall y, h :: Takes(t.cache.blocks, y, h) ==> Takes(s.cache.blocks, y, h))
    && (forall y, h :: y != hash && Takes(s.cache.blocks, y, h) ==> Takes(t.cache.blocks, y, h))
  }

  /** A merkle block that stays was elsewhere before, and is not the one that was removed. */
  lemma Survivor(known: set<Hash>, s: SessionState, hash: Hash, t: SessionState, j: nat, h: Hash) returns (i: nat)
    requires Dropped(s, hash, t) && Owes(known, t, j, h)
    ensures var k := LastIndex(ProofIds(s.cache.merkleBlocks), hash);
            i == Origin(j, k) && Owes(known, s, i, h) && t.cache.merkleBlocks[j] == s.cache.merkleBlocks[i]
  {
    i := Origin(j, LastIndex(ProofIds(s.cache.merkleBlocks), hash));
  }

  lemma DroppedCovered(known: set<Hash>, s: SessionState, hash: Hash, t: SessionState, j: nat, h: Hash)
    requires Dropped(s, hash, t) && Owes(known, t, j, h)
    requires Covered(s.cache, Origin(j, LastIndex(ProofIds(s.cache.merkleBlocks), hash)), h)
    ensures Covered(t.cache, j, h)
  {
    var ids := ProofIds(s.cache.merkleBlocks);
    var k := LastIndex(ids, hash);
    var i := Survivor(known, s, hash, t, j, h);
    KeepHashes(s.cache.transactions, TxIds(FindBlock(s.cache.blocks, hash).value));
    WithoutProofIds(s.cache.merkleBlocks, hash);
    assert !Takes(s.cache.blocks, hash, h);
    forall y | Takes(t.cache.blocks, y, h) ensures LastIndex(ProofIds(t.cache.merkleBlocks), y) == j {
      LastAfterRemoval(ids, k, i, y);
    }
  }

  lemma DroppedSafe(known: set<Hash>, s: SessionState, hash: Hash, t: SessionState)
    requires Safe(known, s) && s.mempoolListenerArmed && Dropped(s, hash, t)
    ensures Safe(known, t)
  {
    if t.subscribed {
      forall j: nat, h | Owes(known, t, j, h) ensures Covered(t.cache, j, h) {
        var i := Survivor(known, s, hash, t, j, h);
        DroppedCovered(known, s, hash, t, j, h);
      }
    }
  }

  /** What was not covered still is not, if its merkle block stays. */
  lemma DroppedUncovered(known: set<Hash>, s: SessionState, hash: Hash, t: SessionState, i: nat, h: Hash)
    requires Dropped(s, hash, t) && Owes(known, s, i, h) && !Covered(s.cache, i, h)
    requires i != LastIndex(ProofIds(s.cache.merkleBlocks), hash)
    ensures var j := Shifted(i, LastIndex(ProofIds(s.cache.merkleBlocks), hash));
            Owes(known, t, j, h) && !Covered(t.cache, j, h)
            && (Takes(s.cache.blocks, hash, h) ==> h !in TxHashes(t.cache.transactions))
  {
    var ids := ProofIds(s.cache.merkleBlocks);
    var k := LastIndex(ids, hash);
    KeepHashes(s.cache.transactions, TxIds(FindBlock(s.cache.blocks, hash).value));
    RemoveAtShifts(s.cache.merkleBlocks, k, i);
    if h in TxHashes(t.cache.transactions) {
      var y :| Takes(s.cache.blocks, y, h) && LastIndex(ids, y) != i;
      assert y != hash;
      WithoutProofIds(s.cache.merkleBlocks, hash);
      LastAfterRemoval(ids, k, i, y);
      assert Takes(t.cache.blocks, y, h);
    }
  }

  lemma RemovalDrops(s: SessionState, hash: Hash)
    requires FindBlock(s.cache.blocks, hash).Some?
    ensures Dropped(s, hash, s.(cache := RemoveDataByBlockHash(s.cache, hash)))
  {
    forall y ensures var r := FindBlock(WithoutBlock(s.cache.blocks, hash), y);
                     r == FindBlock(s.cache.blocks, y) || (r.None? && hash == y)
    {
      FindAfterRemoval(s.cache.blocks, hash, y);
    }
  }

  // ----- the steps that store no block -----

  lemma RemovalSafe(known: set<Hash>, s: SessionState, hash: Hash)
    requires Safe(known, s) && s.mempoolListenerArmed
    ensures Safe(known, s.(cache := RemoveDataByBlockHash(s.cache, hash)))
  {
    if FindBlock(s.cache.blocks, hash).Some? {
      RemovalDrops(s, hash);
      DroppedSafe(known, s, hash, s.(cache := RemoveDataByBlockHash(s.cache, hash)));
    }
  }

  /** `t` has the blocks and merkle blocks of `s`, and no fewer transactions and messages. */
  ghost predicate Richer(s: SessionState, t: SessionState) {
    && t.cache.merkleBlocks == s.cache.merkleBlocks && t.cache.blocks == s.cache.blocks
    && TxHashes(s.cache.transactions) <= TxHashes(t.cache.transactions) && s.sent <= t.sent
    && t.subscribed == s.subscribed && t.mempoolListenerArmed == s.mempoolListenerArmed
  }

  lemma RicherOwes(known: set<Hash>, s: SessionState, t: SessionState)
    requires Richer(s, t)
    ensures forall i: nat, h :: Owes(known, t, i, h) ==> Owes(known, s, i, h)
  {
    forall i: nat, h | Owes(known, t, i, h) ensures Owes(known, s, i, h) {
      if Has(known, s.sent, h) {
        HasExtends(known, s.sent, t.sent, h);
      }
    }
  }

  /** More cached transactions, or other messages, put nothing at risk. */
  lemma RicherIsSafe(known: set<Hash>, s: SessionState, t: SessionState)
    requires Safe(known, s) && Richer(s, t)
    ensures Safe(known, t)
  {
    RicherOwes(known, s, t);
  }

  lemma AddedIsRicher(s: SessionState, tx: Transaction)
    ensures Richer(s, s.(cache := AddTransaction(s.cache, tx)))
  {
    AddedHashes(s.cache, tx);
  }

  lemma TestIsRicher(s: SessionState, tx: Transaction)
    ensures Richer(s, TestTransaction(s, tx).state)
  {
    AddedIsRicher(s.(filter := Test(s.filter, tx).1), tx);
  }

  lemma LockIsRicher(s: SessionState, lock: InstantLock, tx: Transaction)
    requires Phased(s)
    ensures Richer(s, CallLockListeners(s, s.lockListeners, lock, tx).state)
  {
    LockReaches(s, lock, tx);
  }

  lemma TurnLoopSafe(known: set<Hash>, s: SessionState)
    requires s.isClientConnected == s.subscribed
    ensures Safe(known, TurnLoop(s))
  {
    if s.isClientConnected {
      TurnLoopOwesNothing(known, s);
    }
  }

  /** History is reported sent only before the mempool data are. */
  predicate Mediated(s: SessionState, e: Event) {
    e.HistoricalBlockSent? && s.subscribed ==> s.mempoolListenerArmed
  }

  /** Every event but a block keeps a safe session safe. */
  lemma QuietStep(known: set<Hash>, s: SessionState, e: Event)
    requires Safe(known, s) && Phased(s) && !e.NewBlock? && Mediated(s, e)
    ensures Safe(known, Step(s, e).state)
  {
    match e
    case NewTransaction(tx) =>
      TestIsRicher(s, tx);
      RicherIsSafe(known, s, Step(s, e).state);
    case NewInstantLock(lock, tx) =>
      LockIsRicher(s, lock, tx);
      RicherIsSafe(known, s, Step(s, e).state);
    case HistoricalBlockSent(hash) => if s.subscribed { RemovalSafe(known, s, hash); }
    case MempoolDataSent => if s.mempoolListenerArmed { TurnLoopSafe(known, StartForwarding(s)); }
    case LoopTurn => if s.looping { TurnLoopSafe(known, s); }
    case ClientDisconnected =>
  }

  /** No event makes a session send a proof early while what it owes is cached. */
  lemma StepFollows(known: set<Hash>, s: SessionState, e: Event)
    requires Marked(s) && Phased(s) && ProofsFollow(known, s.sent) && (s.subscribed ==> OwedIsCached(known, s))
    ensures ProofsFollow(known, Step(s, e).state.sent)
  {
    match e
    case NewTransaction(tx) =>
    case NewBlock(b) => OnBlockSends(s, b);
    case NewInstantLock(lock, tx) =>
      LockReaches(s, lock, tx);
      ProofsFollowAppend(known, s.sent, [LockMsg(lock, false)]);
    case HistoricalBlockSent(hash) =>
    case MempoolDataSent =>
      if s.mempoolListenerArmed {
        assert forall i: nat, h :: Owes(known, StartForwarding(s), i, h) ==> Owes(known, s, i, h);
        TurnLoopFollows(known, StartForwarding(s));
      }
    case LoopTurn => TurnLoopFollows(known, s);
    case ClientDisconnected =>
  }

  // ----- an unsafe state shows -----

  /** A run without blocks in which history is reported in its phase. */
  predicate Quiet(s: SessionState, es: seq<Event>)
    decreases es
  {
    es == [] || (!es[0].NewBlock? && Mediated(s, es[0]) && Quiet(Step(s, es[0]).state, es[1..]))
  }

  lemma DrainedAreCached(s: SessionState, m: Message)
    requires m in Drained(s) && m.TransactionMsg?
    ensures m.transaction.hash in TxHashes(s.cache.transactions)
  {
    LockMsgsCount(s.cache.locks, s.cache.waiting.Keys, []);
    UnretrievedMembers(s.cache.transactions, m.transaction);
    assert m in TransactionMsgs(UnretrievedTransactions(s.cache.transactions));
  }

  lemma DrainedProofs(s: SessionState, m: MerkleBlock)
    requires MerkleEntry(m, false) in s.cache.merkleBlocks
    ensures ProofMsg(m) in Drained(s)
  {
    UnretrievedProofMembers(s.cache.merkleBlocks, m);
    var proofs := UnretrievedMerkleBlocks(s.cache.merkleBlocks);
    var i :| 0 <= i < |proofs| && proofs[i] == m;
    assert ProofMsgs(proofs)[i] == ProofMsg(m);
  }

  lemma EarlyProof(known: set<Hash>, a: seq<Message>, more: seq<Message>, m: MerkleBlock, h: Hash)
    requires ProofMsg(m) in more && h in Matched(m) && !Has(known, a, h) && !TransactionSent(more, h)
    ensures !ProofsFollow(known, a + more)
  {
    var k :| 0 <= k < |more| && more[k] == ProofMsg(m);
    var sent, n := a + more, |a| + k;
    assert sent[n] == ProofMsg(m);
    forall j | 0 <= j < n && sent[j].TransactionMsg? ensures sent[j].transaction.hash != h {
      assert sent[j] == if j < |a| then a[j] else more[j - |a|];
    }
    assert !Has(known, sent[..n], h);
  }

  /** A turn of the loop sends a proof early if it owes a transaction that is not cached. */
  lemma MissingShows(known: set<Hash>, s: SessionState, i: nat, h: Hash)
    requires s.isClientConnected && Owes(known, s, i, h) && h !in TxHashes(s.cache.transactions)
    ensures !ProofsFollow(known, TurnLoop(s).sent)
  {
    var m, more := s.cache.merkleBlocks[i].merkleBlock, Drained(s);
    if TransactionSent(more, h) {
      var j :| 0 <= j < |more| && more[j].TransactionMsg? && more[j].transaction.hash == h;
      DrainedAreCached(s, more[j]);
    }
    DrainedProofs(s, m);
    EarlyProof(known, s.sent, more, m, h);
    TurnLoopAppends(s);
  }

  /** The event that makes the session drain its cache. */
  function Drain(s: SessionState): Event {
    if s.mempoolListenerArmed then MempoolDataSent else LoopTurn
  }

  lemma DrainShows(known: set<Hash>, s: SessionState, i: nat, h: Hash)
    requires Phased(s) && s.subscribed && Owes(known, s, i, h) && h !in TxHashes(s.cache.transactions)
    ensures !ProofsFollow(known, Step(s, Drain(s)).state.sent)
  {
    var s1 := if s.mempoolListenerArmed then StartForwarding(s) else s;
    assert Owes(known, s1, i, h);
    MissingShows(known, s1, i, h);
  }

  lemma DrainIsQuiet(s: SessionState)
    ensures Quiet(s, [Drain(s)]) && Run(s, [Drain(s)]) == Step(s, Drain(s)).state
  {
    assert [Drain(s)][1..] == [];
  }

  lemma RemovalShows(known: set<Hash>, s: SessionState, hash: Hash, i: nat, h: Hash) returns (later: seq<Event>)
    requires Inv(s, []) && s.subscribed && s.mempoolListenerArmed && Owes(known, s, i, h)
    requires Takes(s.cache.blocks, hash, h) && LastIndex(ProofIds(s.cache.merkleBlocks), hash) != i
    ensures Quiet(s, later) && !ProofsFollow(known, Run(s, later).sent)
  {
    var t := Step(s, HistoricalBlockSent(hash)).state;
    later := [HistoricalBlockSent(hash), Drain(t)];
    StepKeeps(s, HistoricalBlockSent(hash), []);
    RemovalDrops(s, hash);
    DroppedUncovered(known, s, hash, t, i, h);
    DrainShows(known, t, Shifted(i, LastIndex(ProofIds(s.cache.merkleBlocks), hash)), h);
    assert later[1..] == [Drain(t)];
    DrainIsQuiet(t);
  }

  lemma UnsafeShows(known: set<Hash>, s: SessionState) returns (later: seq<Event>)
    requires Inv(s, []) && !Safe(known, s)
    ensures Quiet(s, later) && !ProofsFollow(known, Run(s, later).sent)
  {
    if OwedIsCached(known, s) {
      var i: nat, h :| Owes(known, s, i, h) && !Covered(s.cache, i, h);
      var hash :| Takes(s.cache.blocks, hash, h) && LastIndex(ProofIds(s.cache.merkleBlocks), hash) != i;
      later := RemovalShows(known, s, hash, i, h);
    } else {
      var i: nat, h :| Owes(known, s, i, h) && h !in TxHashes(s.cache.transactions);
      later := [Drain(s)];
      DrainShows(known, s, i, h);
      DrainIsQuiet(s);
    }
  }

  // ----- blocks, and whole runs -----

  lemma OnBlockSends(s: SessionState, b: Block)
    ensures OnBlock(s, b).state.sent == s.sent
  {
    TestsTouchOnlyCacheAndFilter(s, b.transactions);
  }

  lemma AddBlockMarked(c: State, b: Block, e: TxEntry)
    requires e in AddBlock(c, b).transactions
    ensures e in c.transactions
  {
    var p := PushBlock(CountBlock(c), b);
    KeepMembers(p.transactions, TxIds(p.blocks[0]), e);
  }

  lemma {:induction false} TestsMarked(s: SessionState, txs: seq<Transaction>)
    requires Marked(s)
    ensures Marked(TestTransactions(s, txs).state)
    decreases txs
  {
    if txs != [] {
      TestsMarked(TestTransaction(s, txs[0]).state, txs[1..]);
    }
  }

  lemma OnBlockMarked(s: SessionState, b: Block)
    requires Marked(s)
    ensures Marked(OnBlock(s, b).state)
  {
    OnBlockSends(s, b);
    TestsMarked(s, b.transactions);
    TestsTouchOnlyCacheAndFilter(s, b.transactions);
    var e := if |s.cache.blocks| == 0 then TestTransactions(s, b.transactions) else Effect(s, false);
    if !e.threw {
      forall x | x in AddBlock(e.state.cache, b).transactions ensures x in e.state.cache.transactions {
        AddBlockMarked(e.state.cache, b, x);
      }
    }
  }

  lemma RemovalMarked(s: SessionState, hash: Hash)
    requires Marked(s)
    ensures Marked(s.(cache := RemoveDataByBlockHash(s.cache, hash)))
  {
    var found := FindBlock(s.cache.blocks, hash);
    if found.Some? {
      forall e | e in Keep(s.cache.transactions, TxIds(found.value)) ensures e in s.cache.transactions {
        KeepMembers(s.cache.transactions, TxIds(found.value), e);
      }
    }
  }

  lemma LockMarked(s: SessionState, lock: InstantLock, tx: Transaction)
    requires Marked(s) && Phased(s)
    ensures Marked(CallLockListeners(s, s.lockListeners, lock, tx).state)
  {
    LockReaches(s, lock, tx);
    var t := CallLockListeners(s, s.lockListeners, lock, tx).state;
    forall e | e in s.cache.transactions && e.isRetrieved ensures TransactionSent(t.sent, e.transaction.hash) {
      TransactionSentExtends(s.sent, t.sent, e.transaction.hash);
    }
  }

  /** A retrieved transaction has been sent, whatever the run. */
  lemma StepMarked(s: SessionState, e: Event)
    requires Marked(s) && Phased(s)
    ensures Marked(Step(s, e).state)
  {
    match e
    case NewTransaction(tx) =>
    case NewBlock(b) => OnBlockMarked(s, b);
    case NewInstantLock(lock, tx) => LockMarked(s, lock, tx);
    case HistoricalBlockSent(hash) => RemovalMarked(s, hash);
    case MempoolDataSent => TurnLoopMarked(StartForwarding(s));
    case LoopTurn => TurnLoopMarked(s);
    case ClientDisconnected =>
  }

  lemma {:induction false} RunMarked(s: SessionState, es: seq<Event>)
    requires Marked(s) && Inv(s, [])
    ensures Marked(Run(s, es)) && Inv(Run(s, es), [])
    decreases es
  {
    if es != [] {
      StepMarked(s, es[0]);
      StepKeeps(s, es[0], []);
      RunMarked(Step(s, es[0]).state, es[1..]);
    }
  }

  lemma {:induction false} QuietRun(known: set<Hash>, s: SessionState, es: seq<Event>)
    requires Safe(known, s) && Marked(s) && Inv(s, []) && ProofsFollow(known, s.sent) && Quiet(s, es)
    ensures ProofsFollow(known, Run(s, es).sent)
    decreases es
  {
    if es != [] {
      QuietStep(known, s, es[0]);
      StepFollows(known, s, es[0]);
      StepMarked(s, es[0]);
      StepKeeps(s, es[0], []);
      QuietRun(known, Step(s, es[0]).state, es[1..]);
    }
  }

  lemma ReachableMarked(f: Filter, es: seq<Event>)
    ensures Marked(Run(Subscribe(f), es)) && Inv(Run(Subscribe(f), es), [])
  {
    Starts(f, []);
    RunMarked(Subscribe(f), es);
  }

  /** Without a further block, nothing is ever sent out of order. */
  ghost predicate QuietOrder(known: set<Hash>, s: SessionState) {
    forall later: seq<Event> :: Quiet(s, later) ==> ProofsFollow(known, Run(s, later).sent)
  }

  lemma SafeStaysOrdered(known: set<Hash>, s: SessionState)
    requires Safe(known, s) && Marked(s) && Inv(s, []) && ProofsFollow(known, s.sent)
    ensures QuietOrder(known, s)
  {
    forall later: seq<Event> | Quiet(s, later) ensures ProofsFollow(known, Run(s, later).sent) {
      QuietRun(known, s, later);
    }
  }

  lemma OrderedIsSafe(known: set<Hash>, s: SessionState)
    requires Inv(s, []) && QuietOrder(known, s)
    ensures Safe(known, s) && ProofsFollow(known, s.sent)
  {
    var none: seq<Event> := [];
    assert Quiet(s, none) && Run(s, none) == s;
    if !Safe(known, s) {
      var later := UnsafeShows(known, s);
      assert Quiet(s, later);
    }
  }

  /**
   * In any state that any run reaches, while history is sent or after: what has been sent is in order
   * and the state is safe, if and only if without a further block nothing is ever sent out of order.
   */
  lemma SafeExactly(known: set<Hash>, f: Filter, es: seq<Event>)
    ensures var s := Run(Subscribe(f), es);
            Safe(known, s) && ProofsFollow(known, s.sent) <==> QuietOrder(known, s)
  {
    var s := Run(Subscribe(f), es);
    ReachableMarked(f, es);
    if Safe(known, s) && ProofsFollow(known, s.sent) {
      SafeStaysOrdered(known, s);
    }
    if QuietOrder(known, s) {
      OrderedIsSafe(known, s);
    }
  }

  /** While what is owed is cached in every state, nothing is sent out of order. */
  lemma {:induction false} CachedRunFollows(known: set<Hash>, s: SessionState, es: seq<Event>)
    requires Marked(s) && Inv(s, []) && ProofsFollow(known, s.sent)
    requires forall k :: 0 <= k <= |es| ==> Run(s, es[..k]).subscribed ==> OwedIsCached(known, Run(s, es[..k]))
    ensures ProofsFollow(known, Run(s, es).sent)
    decreases es
  {
    if es != [] {
      var t, rest := Step(s, es[0]).state, es[1..];
      assert Run(s, es[..0]) == s;
      StepFollows(known, s, es[0]);
      StepMarked(s, es[0]);
      StepKeeps(s, es[0], []);
      forall k | 0 <= k <= |rest| && Run(t, rest[..k]).subscribed ensures OwedIsCached(known, Run(t, rest[..k])) {
        RunPrefix(s, es, k + 1);
      }
      CachedRunFollows(known, t, rest);
    }
  }

  lemma SafeIsCached(known: set<Hash>, s: SessionState)
    requires Safe(known, s) && s.subscribed
    ensures OwedIsCached(known, s)
  {
  }

  lemma SafeRunFollows(known: set<Hash>, s: SessionState, es: seq<Event>)
    requires Marked(s) && Inv(s, []) && ProofsFollow(known, s.sent)
    requires forall k :: 0 <= k <= |es| ==> Safe(known, Run(s, es[..k]))
    ensures ProofsFollow(known, Run(s, es).sent)
  {
    forall k | 0 <= k <= |es| && Run(s, es[..k]).subscribed ensures OwedIsCached(known, Run(s, es[..k])) {
      SafeIsCached(known, Run(s, es[..k]));
    }
    CachedRunFollows(known, s, es);
  }

  /**
   * Transactions before proofs, exactly, over whole runs: every state a run goes through is safe if
   * and only if no prefix of it, continued without further blocks, sends a proof out of order.
   */
  lemma OrderedExactly(known: set<Hash>, f: Filter, es: seq<Event>)
    ensures (forall k :: 0 <= k <= |es| ==> Safe(known, Run(Subscribe(f), es[..k])))
            <==> forall k :: 0 <= k <= |es| ==> QuietOrder(known, Run(Subscribe(f), es[..k]))
  {
    var s := Subscribe(f);
    Starts(f, []);
    if forall k :: 0 <= k <= |es| ==> Safe(known, Run(s, es[..k])) {
      forall k | 0 <= k <= |es| ensures QuietOrder(known, Run(s, es[..k])) {
        assert forall l :: 0 <= l <= k ==> es[..k][..l] == es[..l];
        SafeRunFollows(known, s, es[..k]);
        SafeExactly(known, f, es[..k]);
      }
    } else {
      var k :| 0 <= k <= |es| && !Safe(known, Run(s, es[..k]));
      SafeExactly(known, f, es[..k]);
    }
  }
}
