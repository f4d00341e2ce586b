/**
 * What the handler's actions put on the client's wire, over its runs: all of history, then what the
 * mempool and the network bring, and nothing after a cancellation.
 */
module WireDelivery {
  import opened BloomFilters
  import opened Bip37
  import opened FilterVerdict
  import opened CacheValues
  import opened SessionValues
  import opened Counting
  import opened SessionInvariants
  import opened SessionTheorems
  import opened Retrieval
  import opened Arrivals
  import opened LockDelivery
  import opened History
  import opened ClientStream

  // ----- the handler's phase and the session's -----

  /** What the session has heard, by the handler's progress. */
  lemma HeardPhase(f: Filter, items: seq<Item>, acts: seq<Action>)
    ensures var st, es := Acts(Open(f, items), acts), AllHeard(Open(f, items), acts);
            && Consistent(st) && st.session == Run(Subscribe(f), es)
            && (st.session.subscribed <==> ClientDisconnected !in es)
            && (st.session.subscribed && st.progress == HandedOver ==> MempoolDataSent in es)
            && (st.progress != HandedOver ==> st.session.mempoolListenerArmed && st.session.subscribed)
  {
    Starts(f, []);
    ActsConsistent(Open(f, items), acts);
    SessionHears(Open(f, items), acts);
    PhaseByEvents(f, AllHeard(Open(f, items), acts));
  }

  /** What every run of the handler keeps. */
  ghost predicate Steady(st: Stream, items: seq<Item>) {
    Consistent(st) && st.done + st.todo == items && (st.progress == HandedOver ==> st.todo == [])
  }

  lemma RunIsSteady(f: Filter, items: seq<Item>, acts: seq<Action>)
    ensures Steady(Acts(Open(f, items), acts), items)
  {
    Starts(f, []);
    ActsConsistent(Open(f, items), acts);
    ItemsConserved(Open(f, items), acts, items);
  }

  lemma AllWritten(st: Stream, items: seq<Item>)
    requires Steady(st, items) && st.todo == []
    ensures st.done == items
  {
    assert st.done + [] == st.done;
  }

  // ----- history -----

  function IsWrite(): Action -> bool {
    (a: Action) => a.WriteNext?
  }

  function AtMost(n: nat, most: nat): nat {
    if n < most then n else most
  }

  /** Writing goes on until all of history is written, and only then does the scan end. */
  lemma {:induction false} WritesAll(st: Stream, acts: seq<Action>, items: seq<Item>)
    requires st.done + st.todo == items && (st.progress != Scanning ==> st.todo == [])
    ensures var u := Acts(st, acts);
            && u.done + u.todo == items && (u.progress != Scanning ==> u.todo == [])
            && |u.done| == AtMost(|st.done| + Count(acts, IsWrite()), |items|)
    decreases acts
  {
    if acts != [] {
      var u := Act(st, acts[0]);
      assert u.done + u.todo == items;
      WritesAll(u, acts[1..], items);
    }
  }

  /**
   * Every turn of the handler writes the next pair until there is none left: after `n` turns, whatever
   * happens in between, the wire starts with the first `n` pairs of history, and with all of them
   * before anything live.
   */
  lemma HistoryIsWritten(f: Filter, items: seq<Item>, acts: seq<Action>)
    ensures var st, n := Acts(Open(f, items), acts), Count(acts, IsWrite());
            && st.done == items[..AtMost(n, |items|)]
            && st.wire == Pairs(st.done) + Live(st.session.sent)
            && (st.session.sent != [] ==> st.done == items)
  {
    RunIsSteady(f, items, acts);
    WrittenCount(f, items, acts);
    WrittenFirst(Acts(Open(f, items), acts), items);
  }

  lemma WrittenCount(f: Filter, items: seq<Item>, acts: seq<Action>)
    ensures |Acts(Open(f, items), acts).done| == AtMost(Count(acts, IsWrite()), |items|)
  {
    WritesAll(Open(f, items), acts, items);
  }

  lemma WrittenFirst(st: Stream, items: seq<Item>)
    requires Steady(st, items)
    ensures st.done == items[..|st.done|] && (st.session.sent != [] ==> st.done == items)
  {
    if st.session.sent != [] {
      AllWritten(st, items);
    }
  }

  lemma {:induction false} PairsAt(items: seq<Item>, i: nat)
    requires i < |items|
    ensures |Pairs(items)| == 2 * |items|
    ensures Pairs(items)[2 * i] == Transactions(items[i].transactions)
    ensures Pairs(items)[2 * i + 1] == Proof(items[i].merkleBlock)
  {
    if |items| > 1 {
      PairsAt(items[1..], if i == 0 then 0 else i - 1);
    }
  }

  // ----- the mempool -----

  lemma {:induction false} TestsRun(s: SessionState, txs: seq<Transaction>)
    requires s.subscribed && forall k: nat :: !CutOffAt(s.filter, txs, k)
    ensures Run(s, Tests(txs)) == TestTransactions(s, txs).state
    decreases txs
  {
    if txs != [] {
      assert Tests(txs)[1..] == Tests(txs[1..]);
      CutOffFirst(s.filter, txs);
      TestExactly(s, txs[0]);
      TestsRun(TestTransaction(s, txs[0]).state, txs[1..]);
    }
  }

  /** The session has the mempool tested, and is then drained. */
  ghost predicate DrainsTested(s: SessionState, t: SessionState, txs: seq<Transaction>) {
    exists u :: OnlyCacheAndFilter(s, u) && u.filter == TestAll(s.filter, txs)
                && Tested(s.filter, s.cache, u.cache, txs) && Drains(u, t)
  }

  lemma MempoolDrains(s: SessionState, txs: seq<Transaction>)
    requires Phased(s) && s.mempoolListenerArmed && forall k: nat :: !CutOffAt(s.filter, txs, k)
    ensures DrainsTested(s, Run(s, Tests(txs) + [MempoolDataSent]), txs)
  {
    var u := TestTransactions(s, txs).state;
    TestsExactly(s, txs);
    TestsRun(s, txs);
    RunConcat(s, Tests(txs), [MempoolDataSent]);
    RunOne(u, MempoolDataSent);
    TestsPhased(s, txs);
    DrainEventTurns(u, MempoolDataSent);
  }

  lemma MempoolFrom(st: Stream, items: seq<Item>, txs: seq<Transaction>)
    requires Steady(st, items) && EndsScan(st, ReadMempool(txs, false))
    requires forall k: nat :: !CutOffAt(st.session.filter, txs, k)
    ensures var u := Act(st, ReadMempool(txs, false));
            && u.progress == HandedOver && u.wire == Pairs(items) + Live(u.session.sent)
            && DrainsTested(st.session, u.session, txs)
  {
    AllWritten(st, items);
    ActConsistent(st, ReadMempool(txs, false));
    MempoolDrains(st.session, txs);
  }

  /**
   * The hand-over: the mempool's transactions are tested, those that match are cached with the rest,
   * and the client gets all of it at once.
   */
  lemma MempoolIsSent(f: Filter, items: seq<Item>, acts: seq<Action>, txs: seq<Transaction>)
    requires var st := Acts(Open(f, items), acts);
             st.progress == Scanning && st.todo == [] && forall k: nat :: !CutOffAt(st.session.filter, txs, k)
    ensures var st := Acts(Open(f, items), acts);
            var u := Act(st, ReadMempool(txs, false));
            && u.progress == HandedOver && u.wire == Pairs(items) + Live(u.session.sent)
            && DrainsTested(st.session, u.session, txs)
  {
    RunIsSteady(f, items, acts);
    MempoolFrom(Acts(Open(f, items), acts), items, txs);
  }

  lemma TestsPhased(s: SessionState, txs: seq<Transaction>)
    requires Phased(s)
    ensures Phased(TestTransactions(s, txs).state)
  {
    TestsTouchOnlyCacheAndFilter(s, txs);
  }

  // ----- live -----

  lemma TurnFrom(st: Stream, items: seq<Item>)
    requires Steady(st, items) && st.progress == HandedOver && st.session.subscribed
    ensures Drains(st.session, Act(st, Wake).session)
    ensures Act(st, Wake).wire == Pairs(items) + Live(Act(st, Wake).session.sent)
  {
    AllWritten(st, items);
    ActConsistent(st, Wake);
    RunOne(st.session, LoopTurn);
    DrainEventTurns(st.session, LoopTurn);
  }

  /** After the hand-over a turn of the loop puts on the wire whatever is cached and was not sent. */
  lemma TurnIsWritten(f: Filter, items: seq<Item>, acts: seq<Action>)
    requires var st := Acts(Open(f, items), acts); st.progress == HandedOver && st.session.subscribed
    ensures var st := Acts(Open(f, items), acts);
            var u := Act(st, Wake);
            Drains(st.session, u.session) && u.wire == Pairs(items) + Live(u.session.sent)
  {
    RunIsSteady(f, items, acts);
    TurnFrom(Acts(Open(f, items), acts), items);
  }

  /** After the hand-over a lock that is waited for is on the wire at once, and any other is not. */
  lemma LockIsWritten(f: Filter, items: seq<Item>, acts: seq<Action>, lock: InstantLock, tx: Transaction)
    requires var st := Acts(Open(f, items), acts); st.progress == HandedOver && st.session.subscribed
    ensures var st := Acts(Open(f, items), acts);
            var u := Act(st, Broadcast(NewInstantLock(lock, tx)));
            && u.wire == st.wire + (if lock.txid in st.session.cache.waiting then [Lock(lock)] else [])
            && u.session.cache.waiting == st.session.cache.waiting - {lock.txid}
  {
    var st := Acts(Open(f, items), acts);
    HeardPhase(f, items, acts);
    LockIsForwarded(f, AllHeard(Open(f, items), acts), lock, tx);
    LockGoesOnWire(st, lock, tx);
  }

  lemma LockGoesOnWire(st: Stream, lock: InstantLock, tx: Transaction)
    requires var u := Step(st.session, NewInstantLock(lock, tx)).state;
             && u.sent == st.session.sent
                          + (if lock.txid in st.session.cache.waiting then [LockMsg(lock, false)] else [])
             && u.cache.waiting == st.session.cache.waiting - {lock.txid}
    ensures var u := Act(st, Broadcast(NewInstantLock(lock, tx)));
            && u.wire == st.wire + (if lock.txid in st.session.cache.waiting then [Lock(lock)] else [])
            && u.session.cache.waiting == st.session.cache.waiting - {lock.txid}
  {
    var sent := st.session.sent;
    RunOne(st.session, NewInstantLock(lock, tx));
    assert NewMessages(sent, sent + [LockMsg(lock, false)]) == [LockMsg(lock, false)];
    assert Live([LockMsg(lock, false)]) == [Lock(lock)];
    assert NewMessages(sent, sent + []) == [] && Live([]) == [];
  }

  // ----- a cancellation -----

  lemma {:induction false} NothingAfter(st: Stream, acts: seq<Action>)
    requires Consistent(st) && st.progress == HandedOver && st.todo == [] && !st.session.subscribed
    ensures Acts(st, acts).wire == st.wire
    decreases acts
  {
    if acts != [] {
      ActConsistent(st, acts[0]);
      SilentAfterDisconnect(st.session, Heard(st, acts[0]));
      NothingAfter(Act(st, acts[0]), acts[1..]);
    }
  }

  lemma CancelFrom(st: Stream, later: seq<Action>)
    requires Consistent(st) && st.progress == HandedOver && st.todo == []
    ensures !Act(st, Cancel).session.subscribed && Acts(Act(st, Cancel), later).wire == st.wire
  {
    ActConsistent(st, Cancel);
    CancelSilences(st);
    NothingAfter(Act(st, Cancel), later);
  }

  lemma CancelSilences(st: Stream)
    requires Phased(st.session) && st.progress == HandedOver
    ensures var u := Act(st, Cancel);
            !u.session.subscribed && u.wire == st.wire && u.progress == HandedOver && u.todo == st.todo
  {
    RunOne(st.session, ClientDisconnected);
    assert NewMessages(st.session.sent, st.session.sent) == [];
  }

  lemma CancelIgnored(st: Stream)
    requires st.progress != HandedOver
    ensures Act(st, Cancel) == st
  {
    assert NewMessages(st.session.sent, st.session.sent) == [];
  }

  /** A cancellation after the hand-over ends the wire; before it, the handler does not listen for one. */
  lemma CancelEndsWire(f: Filter, items: seq<Item>, acts: seq<Action>, later: seq<Action>)
    ensures var st := Acts(Open(f, items), acts);
            if st.progress == HandedOver
            then !Act(st, Cancel).session.subscribed && Acts(Act(st, Cancel), later).wire == st.wire
            else Act(st, Cancel) == st
  {
    var st := Acts(Open(f, items), acts);
    RunIsSteady(f, items, acts);
    if st.progress == HandedOver {
      CancelFrom(st, later);
    } else {
      CancelIgnored(st);
    }
  }
}
