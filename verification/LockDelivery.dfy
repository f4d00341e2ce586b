/**
 * Instant locks from arrival to delivery: in every run a lock that the session waits for is forwarded
 * at once after the hand-over, and a lock collected before it is sent with the first drain.
 */
module LockDelivery {
  import opened Common
  import opened BloomFilters
  import opened FilterVerdict
  import opened CacheValues
  import opened SessionValues
  import opened Counting
  import opened SessionInvariants
  import opened SessionTheorems
  import opened Selections
  import opened Retrieval
  import opened Arrivals

  // ----- after the hand-over -----

  /** A lock is forwarded, and no longer waited for, exactly if it is waited for; nothing else happens. */
  lemma LockIsForwarded(f: Filter, es: seq<Event>, lock: InstantLock, tx: Transaction)
    requires MempoolDataSent in es && ClientDisconnected !in es
    ensures var s := Run(Subscribe(f), es);
            var e := Step(s, NewInstantLock(lock, tx));
            && !e.threw
            && e.state.sent == s.sent + (if lock.txid in s.cache.waiting then [LockMsg(lock, false)] else [])
            && e.state.cache.waiting == s.cache.waiting - {lock.txid}
            && e.state == s.(sent := e.state.sent, cache := s.cache.(waiting := e.state.cache.waiting))
  {
    var s := Run(Subscribe(f), es);
    PhaseByEvents(f, es);
    OneLockListener(f, es, lock, tx);
    if lock.txid !in s.cache.waiting {
      assert s.cache.waiting - {lock.txid} == s.cache.waiting;
    }
  }

  function IsBlock(): Event -> bool {
    (e: Event) => e.NewBlock?
  }

  function LockEventOf(h: Hash): Event -> bool {
    (e: Event) => e.NewInstantLock? && e.lock.txid == h
  }

  lemma LockCounts(s: SessionState, lock: InstantLock, tx: Transaction, h: Hash)
    requires Phased(s)
    ensures var t := CallLockListeners(s, s.lockListeners, lock, tx).state;
            && t.cache.blocksProcessed == s.cache.blocksProcessed
            && (lock.txid != h ==> Count(t.sent, LockOf(h, false)) == Count(s.sent, LockOf(h, false)))
  {
    LockReaches(s, lock, tx);
    SentCounts(s, [LockMsg(lock, false)], h);
  }

  /** Only a block counts as one, and only a lock of `h` is forwarded for `h`. */
  lemma StepCounts(s: SessionState, e: Event, h: Hash)
    requires Phased(s)
    ensures var t := Step(s, e).state;
            && t.cache.blocksProcessed <= s.cache.blocksProcessed + (if e.NewBlock? then 1 else 0)
            && (!LockEventOf(h)(e) ==> Count(t.sent, LockOf(h, false)) == Count(s.sent, LockOf(h, false)))
  {
    match e
    case NewTransaction(tx) =>
    case NewBlock(b) => StepWaiting(s, e, h); TestsTouchOnlyCacheAndFilter(s, b.transactions);
    case NewInstantLock(lock, tx) => LockCounts(s, lock, tx, h);
    case HistoricalBlockSent(hash) =>
    case MempoolDataSent => TurnLoopSends(StartForwarding(s), h);
    case LoopTurn => TurnLoopSends(s, h);
    case ClientDisconnected =>
  }

  lemma {:induction false} RunBlocks(s: SessionState, es: seq<Event>, h: Hash)
    requires Inv(s, h)
    ensures Run(s, es).cache.blocksProcessed <= s.cache.blocksProcessed + Count(es, IsBlock())
    decreases es
  {
    if es != [] {
      StepCounts(s, es[0], h);
      StepKeeps(s, es[0], h);
      RunBlocks(Step(s, es[0]).state, es[1..], h);
    }
  }

  lemma {:induction false} RunForwards(s: SessionState, es: seq<Event>, h: Hash)
    requires Inv(s, h) && forall e :: e in es ==> !LockEventOf(h)(e)
    ensures Count(Run(s, es).sent, LockOf(h, false)) == Count(s.sent, LockOf(h, false))
    decreases es
  {
    if es != [] {
      assert es[0] in es && forall e :: e in es[1..] ==> e in es;
      StepCounts(s, es[0], h);
      StepKeeps(s, es[0], h);
      RunForwards(Step(s, es[0]).state, es[1..], h);
    }
  }

  /** What is waited for is still waited for after ten more blocks, unless its lock is forwarded. */
  lemma StillWaited(s: SessionState, es: seq<Event>, h: Hash)
    requires Inv(s, h) && h in s.cache.waiting && s.cache.waiting[h] == s.cache.blocksProcessed
    requires Count(es, IsBlock()) <= 10
    requires (forall e :: e in es ==> !LockEventOf(h)(e)) || Run(s, es).sent == s.sent
    ensures h in Run(s, es).cache.waiting
  {
    RunBlocks(s, es, h);
    if Run(s, es).sent != s.sent {
      RunForwards(s, es, h);
    }
    WaitsTenBlocks(s, es, h);
  }

  /**
   * From arrival to delivery. A transaction that matches the filter and is not waited for yet is
   * broadcast; whatever follows, as long as the client stays, the mempool data are sent, and its lock
   * comes with no more than ten blocks in between, that lock is sent, at once.
   */
  lemma RegisteredLockIsSent(f: Filter, es: seq<Event>, tx: Transaction, mid: seq<Event>, lock: InstantLock,
                             locked: Transaction)
    requires var s := Run(Subscribe(f), es);
             !CutOff(s.filter, tx) && Matches(s.filter, tx) && tx.hash !in s.cache.waiting
    requires Count(mid, IsBlock()) <= 10 && forall e :: e in mid ==> !LockEventOf(tx.hash)(e)
    requires ClientDisconnected !in es + mid && MempoolDataSent in es + mid && lock.txid == tx.hash
    ensures var before := Run(Subscribe(f), es + [NewTransaction(tx)] + mid);
            Step(before, NewInstantLock(lock, locked)).state.sent == before.sent + [LockMsg(lock, false)]
  {
    var s, e := Run(Subscribe(f), es), NewTransaction(tx);
    var all := es + [e] + mid;
    assert forall x :: x in all <==> x in es || x == e || x in mid;
    PhaseByEvents(f, es);
    TransactionArrives(f, es, tx);
    AfterEvent(f, es, e, mid, tx.hash);
    StillWaited(Step(s, e).state, mid, tx.hash);
    LockIsForwarded(f, all, lock, locked);
  }

  lemma AfterEvent(f: Filter, es: seq<Event>, e: Event, mid: seq<Event>, h: Hash)
    ensures Run(Subscribe(f), es + [e] + mid) == Run(Step(Run(Subscribe(f), es), e).state, mid)
    ensures Inv(Step(Run(Subscribe(f), es), e).state, h) && Inv(Run(Subscribe(f), es), h)
  {
    Reachable(f, es, h);
    StepKeeps(Run(Subscribe(f), es), e, h);
    RunConcat(Subscribe(f), es + [e], mid);
    RunConcat(Subscribe(f), es, [e]);
    RunOne(Run(Subscribe(f), es), e);
  }

  // ----- before it -----

  /** The first lock collected for the transaction stands at `i`. */
  ghost predicate FirstFor(locks: seq<InstantLock>, txid: Hash, i: nat) {
    i < |locks| && locks[i].txid == txid && forall j :: 0 <= j < i ==> locks[j].txid != txid
  }

  /** `Map.set`: the lock takes the place of the one of its transaction, or goes last. */
  ghost predicate Put(before: seq<InstantLock>, after: seq<InstantLock>, lock: InstantLock) {
    && (forall i: nat :: FirstFor(before, lock.txid, i) ==> after == before[i := lock])
    && ((forall l :: l in before ==> l.txid != lock.txid) ==> after == before + [lock])
  }

  lemma {:induction false} PutLockExactly(locks: seq<InstantLock>, lock: InstantLock)
    ensures Put(locks, PutLock(locks, lock), lock)
  {
    if locks != [] && locks[0].txid != lock.txid {
      var rest := locks[1..];
      PutLockExactly(rest, lock);
      forall i: nat | FirstFor(locks, lock.txid, i) ensures PutLock(locks, lock) == locks[i := lock] {
        assert FirstFor(rest, lock.txid, i - 1);
      }
    }
  }

  /** A lock that comes before the hand-over is collected exactly if its transaction matches the filter. */
  lemma LockIsCollected(f: Filter, es: seq<Event>, lock: InstantLock, tx: Transaction)
    requires MempoolDataSent !in es && ClientDisconnected !in es
    ensures var s := Run(Subscribe(f), es);
            var e := Step(s, NewInstantLock(lock, tx));
            && (e.threw <==> CutOff(s.filter, tx)) && e.state.filter == Test(s.filter, tx).1
            && e.state == s.(filter := e.state.filter, cache := s.cache.(locks := e.state.cache.locks))
            && if !e.threw && Matches(s.filter, tx) then Put(s.cache.locks, e.state.cache.locks, lock)
               else e.state.cache.locks == s.cache.locks
  {
    var s := Run(Subscribe(f), es);
    PhaseByEvents(f, es);
    OneLockListener(f, es, lock, tx);
    VerdictExactly(s.filter, tx);
    PutLockExactly(s.cache.locks, lock);
  }

  lemma {:induction false} PutLockHas(locks: seq<InstantLock>, lock: InstantLock, other: InstantLock)
    requires other in locks && other.txid != lock.txid
    ensures other in PutLock(locks, lock)
  {
    if locks[0].txid != lock.txid && other != locks[0] {
      PutLockHas(locks[1..], lock, other);
    }
  }

  lemma {:induction false} PutLockHasNew(locks: seq<InstantLock>, lock: InstantLock)
    ensures lock in PutLock(locks, lock)
  {
    if locks != [] && locks[0].txid != lock.txid {
      PutLockHasNew(locks[1..], lock);
    }
  }

  /** A collected lock stays collected until the mempool data are sent, if no other comes for its transaction. */
  lemma StepCollected(s: SessionState, e: Event, lock: InstantLock)
    requires Phased(s) && s.mempoolListenerArmed && lock in s.cache.locks
    requires e != MempoolDataSent && !LockEventOf(lock.txid)(e)
    ensures lock in Step(s, e).state.cache.locks
  {
    match e
    case NewTransaction(tx) =>
    case NewBlock(b) => TestsTouchOnlyCacheAndFilter(s, b.transactions);
    case NewInstantLock(other, tx) =>
      LockReaches(s, other, tx);
      PutLockHas(s.cache.locks, other, lock);
    case HistoricalBlockSent(hash) =>
    case LoopTurn =>
    case ClientDisconnected =>
  }

  lemma {:induction false} RunCollected(s: SessionState, es: seq<Event>, lock: InstantLock)
    requires Inv(s, []) && s.mempoolListenerArmed && lock in s.cache.locks
    requires MempoolDataSent !in es && ClientDisconnected !in es && forall e :: e in es ==> !LockEventOf(lock.txid)(e)
    ensures lock in Run(s, es).cache.locks
    decreases es
  {
    if es != [] {
      assert es[0] in es && forall e :: e in es[1..] ==> e in es;
      StepCollected(s, es[0], lock);
      StepPhase(s, es[0]);
      StepKeeps(s, es[0], []);
      RunCollected(Step(s, es[0]).state, es[1..], lock);
    }
  }

  /** Of the locks a turn of the loop takes, those still waited for are sent. */
  lemma AwaitedIsSent(s: SessionState, lock: InstantLock)
    requires s.isClientConnected && s.sent == [] && lock in s.cache.locks
    ensures LockMsg(lock, true) in TurnLoop(s).sent <==> lock.txid in s.cache.waiting
  {
    var ms := LockMsgs(s.cache.locks, s.cache.waiting.Keys);
    TurnLoopAppends(s);
    if lock.txid in s.cache.waiting {
      var k :| 0 <= k < |s.cache.locks| && s.cache.locks[k] == lock;
      LocksInOrder(s.cache.locks, s.cache.waiting.Keys);
      assert Awaited(s.cache.waiting.Keys)(lock, LockMsg(lock, true));
      NothingLeftOut(ms, s.cache.locks, Awaited(s.cache.waiting.Keys), k);
      assert LockMsg(lock, true) in Drained(s);
    }
    if LockMsg(lock, true) in Drained(s) {
      DrainedLocks(s, LockMsg(lock, true));
    }
  }

  lemma CollectedFrom(s: SessionState, mid: seq<Event>, lock: InstantLock)
    requires Inv(s, []) && s.mempoolListenerArmed && lock in s.cache.locks
    requires MempoolDataSent !in mid && ClientDisconnected !in mid
    requires forall e :: e in mid ==> !LockEventOf(lock.txid)(e)
    ensures var before := Run(s, mid);
            LockMsg(lock, true) in Step(before, MempoolDataSent).state.sent <==> lock.txid in before.cache.waiting
  {
    RunCollected(s, mid, lock);
    RunPhase(s, mid);
    RunKeeps(s, mid, []);
    HandOverSends(Run(s, mid), lock);
  }

  lemma HandOverSends(s: SessionState, lock: InstantLock)
    requires Phased(s) && s.mempoolListenerArmed && lock in s.cache.locks
    ensures LockMsg(lock, true) in Step(s, MempoolDataSent).state.sent <==> lock.txid in s.cache.waiting
  {
    AwaitedIsSent(StartForwarding(s), lock);
  }

  /**
   * A lock collected before the hand-over is sent when the mempool data have been sent, exactly if its
   * transaction is waited for by then, unless another lock of the same transaction has replaced it.
   */
  lemma CollectedLockIsSent(f: Filter, es: seq<Event>, lock: InstantLock, tx: Transaction, mid: seq<Event>)
    requires MempoolDataSent !in es + mid && ClientDisconnected !in es + mid
    requires var s := Run(Subscribe(f), es); !CutOff(s.filter, tx) && Matches(s.filter, tx)
    requires forall e :: e in mid ==> !LockEventOf(lock.txid)(e)
    ensures var before := Run(Subscribe(f), es + [NewInstantLock(lock, tx)] + mid);
            LockMsg(lock, true) in Step(before, MempoolDataSent).state.sent <==> lock.txid in before.cache.waiting
  {
    var s, e := Run(Subscribe(f), es), NewInstantLock(lock, tx);
    assert forall x :: x in es + mid <==> x in es || x in mid;
    LockIsPut(f, es, lock, tx);
    AfterEvent(f, es, e, mid, []);
    PhaseByEvents(f, es);
    StepPhase(s, e);
    CollectedFrom(Step(s, e).state, mid, lock);
  }

  lemma LockIsPut(f: Filter, es: seq<Event>, lock: InstantLock, tx: Transaction)
    requires MempoolDataSent !in es && ClientDisconnected !in es
    requires var s := Run(Subscribe(f), es); !CutOff(s.filter, tx) && Matches(s.filter, tx)
    ensures lock in Step(Run(Subscribe(f), es), NewInstantLock(lock, tx)).state.cache.locks
  {
    var s := Run(Subscribe(f), es);
    PhaseByEvents(f, es);
    OneLockListener(f, es, lock, tx);
    VerdictExactly(s.filter, tx);
    PutLockHasNew(s.cache.locks, lock);
  }

  /**
   * From arrival to delivery before the hand-over: a matching transaction that is not waited for yet
   * arrives, later its lock is collected, and within ten blocks the mempool data are sent.
   */
  lemma RegisteredLockIsCollected(f: Filter, es: seq<Event>, tx: Transaction, mid: seq<Event>, lock: InstantLock,
                                  locked: Transaction, rest: seq<Event>)
    requires var s := Run(Subscribe(f), es);
             !CutOff(s.filter, tx) && Matches(s.filter, tx) && tx.hash !in s.cache.waiting
    requires var u := Run(Subscribe(f), es + [NewTransaction(tx)] + mid);
             !CutOff(u.filter, locked) && Matches(u.filter, locked) && lock.txid == tx.hash
    requires MempoolDataSent !in es + mid + rest && ClientDisconnected !in es + mid + rest
    requires Count(mid + [NewInstantLock(lock, locked)] + rest, IsBlock()) <= 10
    requires forall e :: e in rest ==> !LockEventOf(tx.hash)(e)
    ensures var before := Run(Subscribe(f), es + [NewTransaction(tx)] + mid + [NewInstantLock(lock, locked)] + rest);
            LockMsg(lock, true) in Step(before, MempoolDataSent).state.sent
  {
    var e, l := NewTransaction(tx), NewInstantLock(lock, locked);
    var first, later := es + [e] + mid, mid + [l] + rest;
    Spliced(es, e, mid, l, rest, MempoolDataSent);
    Spliced(es, e, mid, l, rest, ClientDisconnected);
    CollectedLockIsSent(f, first, lock, locked, rest);
    WaitedWhileCollecting(f, es, tx, later);
  }

  /** The same events, taken apart behind the first insertion or behind the second. */
  lemma Spliced(es: seq<Event>, e: Event, mid: seq<Event>, l: Event, rest: seq<Event>, x: Event)
    requires x !in es + mid + rest && x != e && x != l
    ensures x !in es + [e] + mid + rest && x !in es + (mid + [l] + rest)
    ensures es + [e] + mid + [l] + rest == es + [e] + (mid + [l] + rest)
  {
  }

  lemma WaitedWhileCollecting(f: Filter, es: seq<Event>, tx: Transaction, later: seq<Event>)
    requires var s := Run(Subscribe(f), es);
             !CutOff(s.filter, tx) && Matches(s.filter, tx) && tx.hash !in s.cache.waiting
    requires MempoolDataSent !in es + later && ClientDisconnected !in es + later && Count(later, IsBlock()) <= 10
    ensures tx.hash in Run(Subscribe(f), es + [NewTransaction(tx)] + later).cache.waiting
  {
    var e := NewTransaction(tx);
    assert forall x :: x in es + later <==> x in es || x in later;
    PhaseByEvents(f, es);
    TransactionArrives(f, es, tx);
    AfterEvent(f, es, e, later, tx.hash);
    StillCollecting(f, es, e);
    WaitedFrom(Step(Run(Subscribe(f), es), e).state, later, tx.hash);
  }

  lemma WaitedFrom(s: SessionState, later: seq<Event>, h: Hash)
    requires Inv(s, h) && s.mempoolListenerArmed && MempoolDataSent !in later && ClientDisconnected !in later
    requires h in s.cache.waiting && s.cache.waiting[h] == s.cache.blocksProcessed && Count(later, IsBlock()) <= 10
    ensures h in Run(s, later).cache.waiting
  {
    SilentWhileCollecting(s, later);
    StillWaited(s, later, h);
  }

  lemma StillCollecting(f: Filter, es: seq<Event>, e: Event)
    requires MempoolDataSent !in es && ClientDisconnected !in es && e.NewTransaction?
    ensures Step(Run(Subscribe(f), es), e).state.mempoolListenerArmed
  {
    PhaseByEvents(f, es);
    Reachable(f, es, []);
    StepPhase(Run(Subscribe(f), es), e);
  }
}
