/**
 * The whole stream of a client that asked for new transactions: the handler writes the historical
 * pairs while network events reach the session, then hands over to the session's drain loop.
 */
module ClientStream {
  import opened Common
  import opened BloomFilters
  import opened CacheValues
  import opened SessionValues
  import opened Counting
  import opened SessionInvariants
  import opened SessionTheorems
  import opened Alignment
  import opened Deduplication
  import opened CollectionValues
  import opened History

  /** What is written to the client, in order. */
  datatype Wire = Transactions(txs: seq<Transaction>) | Proof(merkleBlock: MerkleBlock) | Lock(lock: InstantLock)

  datatype Progress = Scanning | HandedOver | Aborted

  datatype Stream = Stream(
    session: SessionState,
    todo: seq<Item>,      // historical items not yet written
    done: seq<Item>,      // those written
    progress: Progress,
    wire: seq<Wire>)

  /**
   * The handler's turns, with whatever happens while it waits in between. Reading the mempool ends
   * the scan; it is given up half-way if testing a mempool transaction throws.
   */
  datatype Action =
    | WriteNext
    | ReadMempool(transactions: seq<Transaction>, aborted: bool)
    | Broadcast(event: NetworkEvent)
    | Wake
    | Cancel

  function OnWire(m: Message): Wire {
    match m
    case TransactionMsg(tx) => Transactions([tx])
    case ProofMsg(mb) => Proof(mb)
    case LockMsg(lock, _) => Lock(lock)
  }

  function Live(sent: seq<Message>): seq<Wire> {
    seq(|sent|, i requires 0 <= i < |sent| => OnWire(sent[i]))
  }

  function Pairs(items: seq<Item>): seq<Wire> {
    if items == [] then []
    else [Transactions(items[0].transactions), Proof(items[0].merkleBlock)] + Pairs(items[1..])
  }

  function Tests(txs: seq<Transaction>): seq<Event> {
    seq(|txs|, i requires 0 <= i < |txs| => NewTransaction(txs[i]))
  }

  function NewMessages(before: seq<Message>, after: seq<Message>): seq<Message> {
    if |before| <= |after| then after[|before|..] else []
  }

  predicate Writes(st: Stream, a: Action) {
    a.WriteNext? && st.progress == Scanning && st.todo != []
  }

  predicate EndsScan(st: Stream, a: Action) {
    a.ReadMempool? && st.progress == Scanning && st.todo == []
  }

  /** What an action makes the session hear. */
  function Heard(st: Stream, a: Action): seq<Event> {
    match a
    case WriteNext => if Writes(st, a) then [HistoricalBlockSent(st.todo[0].merkleBlock.headerHash)] else []
    case ReadMempool(txs, aborted) =>
      if EndsScan(st, a) then Tests(txs) + (if aborted then [] else [MempoolDataSent]) else []
    case Broadcast(e) => [e]
    case Wake => [LoopTurn]
    case Cancel => if st.progress == HandedOver then [ClientDisconnected] else []
  }

  /** The handler's own part of an action: it writes a pair, or ends the scan. */
  function Handle(st: Stream, a: Action): Stream {
    if Writes(st, a) then
      st.(todo := st.todo[1..], done := st.done + [st.todo[0]], wire := st.wire + Pairs([st.todo[0]]))
    else if EndsScan(st, a) then st.(progress := if a.aborted then Aborted else HandedOver)
    else st
  }

  /** Messages the session sends are written as they are sent. */
  function Act(st: Stream, a: Action): Stream {
    var s := Run(st.session, Heard(st, a));
    var st1 := Handle(st, a);
    st1.(session := s, wire := st1.wire + Live(NewMessages(st.session.sent, s.sent)))
  }

  function Acts(st: Stream, acts: seq<Action>): Stream
    decreases acts
  {
    if acts == [] then st else Acts(Act(st, acts[0]), acts[1..])
  }

  function Open(f: Filter, items: seq<Item>): Stream {
    Stream(Subscribe(f), items, [], Scanning, [])
  }

  /** Everything the session hears over a run, in order. */
  function AllHeard(st: Stream, acts: seq<Action>): seq<Event>
    decreases acts
  {
    if acts == [] then [] else Heard(st, acts[0]) + AllHeard(Act(st, acts[0]), acts[1..])
  }

  // ----- the wire is history, then the live suffix -----

  lemma {:induction false} PairsConcat(a: seq<Item>, b: seq<Item>)
    ensures Pairs(a + b) == Pairs(a) + Pairs(b)
  {
    if a == [] {
      assert a + b == b;
    } else {
      assert (a + b)[1..] == a[1..] + b;
      PairsConcat(a[1..], b);
    }
  }

  lemma {:induction false} RunSends(s: SessionState, es: seq<Event>)
    requires Inv(s, [])
    ensures s.sent <= Run(s, es).sent
    decreases es
  {
    if es != [] {
      StepSends(s, es[0]);
      StepKeeps(s, es[0], []);
      RunSends(Step(s, es[0]).state, es[1..]);
    }
  }

  /** The wire is the written pairs and then what the session sent; nothing live before the hand-over. */
  ghost predicate Consistent(st: Stream) {
    && Inv(st.session, [])
    && st.wire == Pairs(st.done) + Live(st.session.sent)
    && InPhase(st.session, st.progress)
  }

  /** Without "mempool data sent" and without a disconnection the session goes on collecting. */
  lemma {:induction false} KeepsCollecting(s: SessionState, es: seq<Event>)
    requires Inv(s, []) && s.mempoolListenerArmed
    requires forall e :: e in es ==> e != MempoolDataSent && e != ClientDisconnected
    ensures Run(s, es).mempoolListenerArmed && Run(s, es).sent == []
    decreases es
  {
    if es != [] {
      assert es[0] in es && forall e :: e in es[1..] ==> e in es;
      StepCollects(s, es[0]);
      StepKeeps(s, es[0], []);
      KeepsCollecting(Step(s, es[0]).state, es[1..]);
    } else {
      assert Phased(s);
    }
  }

  lemma StepCollects(s: SessionState, e: Event)
    requires Phased(s) && s.mempoolListenerArmed && e != MempoolDataSent && e != ClientDisconnected
    ensures Step(s, e).state.mempoolListenerArmed
  {
    match e
    case NewTransaction(tx) =>
    case NewBlock(b) => TestsTouchOnlyCacheAndFilter(s, b.transactions);
    case NewInstantLock(lock, tx) => LockReaches(s, lock, tx);
    case HistoricalBlockSent(hash) =>
    case LoopTurn =>
  }

  /** Once handed over, a session never collects again. */
  lemma {:induction false} NeverCollectsAgain(s: SessionState, es: seq<Event>)
    requires Inv(s, []) && !s.mempoolListenerArmed
    ensures !Run(s, es).mempoolListenerArmed
    decreases es
  {
    if es != [] {
      StepForwards(s, es[0]);
      StepKeeps(s, es[0], []);
      NeverCollectsAgain(Step(s, es[0]).state, es[1..]);
    }
  }

  lemma StepForwards(s: SessionState, e: Event)
    requires Phased(s) && !s.mempoolListenerArmed
    ensures !Step(s, e).state.mempoolListenerArmed
  {
    match e
    case NewTransaction(tx) =>
    case NewBlock(b) => TestsTouchOnlyCacheAndFilter(s, b.transactions);
    case NewInstantLock(lock, tx) => LockReaches(s, lock, tx);
    case HistoricalBlockSent(hash) =>
    case MempoolDataSent =>
    case LoopTurn =>
    case ClientDisconnected =>
  }

  /** Where a session stands with respect to the handler's progress. */
  ghost predicate InPhase(s: SessionState, p: Progress) {
    && (p != HandedOver ==> s.mempoolListenerArmed && s.sent == [])
    && (p == HandedOver ==> !s.mempoolListenerArmed)
  }

  lemma MempoolDataHandsOver(s: SessionState)
    ensures !Step(s, MempoolDataSent).state.mempoolListenerArmed
  {
  }

  lemma HandOver(s: SessionState, txs: seq<Transaction>)
    ensures InPhase(Run(s, Tests(txs) + [MempoolDataSent]), HandedOver)
  {
    RunConcat(s, Tests(txs), [MempoolDataSent]);
    RunOne(Run(s, Tests(txs)), MempoolDataSent);
    MempoolDataHandsOver(Run(s, Tests(txs)));
  }

  /** The session's phase follows the handler's progress. */
  lemma ActPhase(st: Stream, a: Action)
    requires Consistent(st)
    ensures InPhase(Run(st.session, Heard(st, a)), Handle(st, a).progress)
  {
    if st.progress == HandedOver {
      NeverCollectsAgain(st.session, Heard(st, a));
    } else if EndsScan(st, a) && !a.aborted {
      HandOver(st.session, a.transactions);
    } else {
      KeepsCollecting(st.session, Heard(st, a));
    }
  }

  lemma LiveExtends(a: seq<Message>, b: seq<Message>)
    requires a <= b
    ensures Live(b) == Live(a) + Live(NewMessages(a, b))
  {
  }

  lemma WireGrows(st: Stream, a: Action, sent: seq<Message>)
    requires st.wire == Pairs(st.done) + Live(st.session.sent) && st.session.sent <= sent
    requires Writes(st, a) ==> st.session.sent == []
    ensures Handle(st, a).wire + Live(NewMessages(st.session.sent, sent)) == Pairs(Handle(st, a).done) + Live(sent)
  {
    var live, more := Live(st.session.sent), Live(NewMessages(st.session.sent, sent));
    LiveExtends(st.session.sent, sent);
    if Writes(st, a) {
      var pair := Pairs([st.todo[0]]);
      PairsConcat(st.done, [st.todo[0]]);
      assert live == [] && Live(sent) == more;
      assert st.wire == Pairs(st.done);
    } else {
      assert Pairs(st.done) + live + more == Pairs(st.done) + (live + more);
    }
  }

  lemma ActConsistent(st: Stream, a: Action)
    requires Consistent(st)
    ensures Consistent(Act(st, a))
  {
    var es := Heard(st, a);
    ActPhase(st, a);
    RunKeeps(st.session, es, []);
    RunSends(st.session, es);
    WireGrows(st, a, Run(st.session, es).sent);
  }

  lemma {:induction false} ActsConsistent(st: Stream, acts: seq<Action>)
    requires Consistent(st)
    ensures Consistent(Acts(st, acts))
    decreases acts
  {
    if acts != [] {
      ActConsistent(st, acts[0]);
      ActsConsistent(Act(st, acts[0]), acts[1..]);
    }
  }

  /**
   * Phase safety: whatever happens while the handler works, the client reads the historical pairs
   * written so far, in order, followed by what the session sent, and the latter is empty until the
   * handler has handed over.
   */
  lemma HistoryThenLive(f: Filter, items: seq<Item>, acts: seq<Action>)
    ensures var st := Acts(Open(f, items), acts);
            && st.wire == Pairs(st.done) + Live(st.session.sent)
            && (st.progress != HandedOver ==> st.session.sent == [])
            && (st.progress == HandedOver ==> st.todo == [])
            && st.done + st.todo == items
  {
    Starts(f, []);
    ActsConsistent(Open(f, items), acts);
    ItemsConserved(Open(f, items), acts, items);
  }

  lemma {:induction false} ItemsConserved(st: Stream, acts: seq<Action>, items: seq<Item>)
    requires st.done + st.todo == items && (st.progress == HandedOver ==> st.todo == [])
    ensures var t := Acts(st, acts); t.done + t.todo == items && (t.progress == HandedOver ==> t.todo == [])
    decreases acts
  {
    if acts != [] {
      var t := Act(st, acts[0]);
      assert t.done + t.todo == items;
      ItemsConserved(t, acts[1..], items);
    }
  }

  // ----- no proof before its transactions, on the whole wire -----

  ghost predicate WireHas(wire: seq<Wire>, h: Hash) {
    exists j, t :: 0 <= j < |wire| && wire[j].Transactions? && t in wire[j].txs && t.hash == h
  }

  ghost predicate WireProofsFollow(wire: seq<Wire>) {
    forall k, h :: 0 <= k < |wire| && wire[k].Proof? && h in Matched(wire[k].merkleBlock) ==> WireHas(wire[..k], h)
  }

  lemma {:induction false} SessionHears(st: Stream, acts: seq<Action>)
    ensures Acts(st, acts).session == Run(st.session, AllHeard(st, acts))
    decreases acts
  {
    if acts != [] {
      SessionHears(Act(st, acts[0]), acts[1..]);
      RunConcat(st.session, Heard(st, acts[0]), AllHeard(Act(st, acts[0]), acts[1..]));
    }
  }

  lemma WireConcat(a: seq<Wire>, b: seq<Wire>)
    requires WireProofsFollow(a) && WireProofsFollow(b)
    ensures WireProofsFollow(a + b)
  {
    forall k, h | 0 <= k < |a + b| && (a + b)[k].Proof? && h in Matched((a + b)[k].merkleBlock)
      ensures WireHas((a + b)[..k], h)
    {
      if k < |a| {
        assert (a + b)[..k] == a[..k];
      } else {
        var l := k - |a|;
        assert (a + b)[..k] == a + b[..l];
        var j, t :| 0 <= j < |b[..l]| && b[..l][j].Transactions? && t in b[..l][j].txs && t.hash == h;
        assert (a + b[..l])[|a| + j] == b[j];
      }
    }
  }

  lemma {:induction false} PairsFollow(items: seq<Item>)
    requires forall i :: i in items ==> Carries(i)
    ensures WireProofsFollow(Pairs(items))
  {
    if items != [] {
      var pair := [Transactions(items[0].transactions), Proof(items[0].merkleBlock)];
      assert items[0] in items;
      forall h | h in Matched(items[0].merkleBlock) ensures WireHas(pair[..1], h) {
        var t :| t in items[0].transactions && t.hash == h;
        assert pair[..1][0].txs == items[0].transactions;
      }
      PairsFollow(items[1..]);
      WireConcat(pair, Pairs(items[1..]));
    }
  }

  // ----- nothing written as history comes again -----

  function WireProofOf(h: Hash): Wire -> bool {
    (w: Wire) => w.Proof? && w.merkleBlock.headerHash == h
  }

  function WireTransactionOf(h: Hash): Wire -> bool {
    (w: Wire) => w.Transactions? && exists t :: t in w.txs && t.hash == h
  }

  lemma {:induction false} LiveCounts(sent: seq<Message>, h: Hash)
    ensures Count(Live(sent), WireProofOf(h)) == Count(sent, ProofOf(h))
    ensures Count(Live(sent), WireTransactionOf(h)) == Count(sent, TransactionOf(h))
  {
    if sent != [] {
      assert Live(sent)[1..] == Live(sent[1..]);
      assert Live(sent)[0] == OnWire(sent[0]);
      LiveCounts(sent[1..], h);
    }
  }

  /** The session behind a wire, once the next historical pair has been written. */
  lemma WrittenPair(f: Filter, items: seq<Item>, acts: seq<Action>, later: seq<Action>)
    requires Writes(Acts(Open(f, items), acts), WriteNext)
    ensures var st, es := Acts(Open(f, items), acts), AllHeard(Open(f, items), acts);
            var hash, st1 := st.todo[0].merkleBlock.headerHash, Act(st, WriteNext);
            && st.session == Run(Subscribe(f), es) && st.session.subscribed && st.session.sent == []
            && Acts(st1, later).session == Run(AfterSent(f, es, hash), AllHeard(st1, later))
            && Acts(st1, later).wire == Pairs(Acts(st1, later).done) + Live(Acts(st1, later).session.sent)
  {
    var st := Acts(Open(f, items), acts);
    var st1, hash := Act(st, WriteNext), st.todo[0].merkleBlock.headerHash;
    Starts(f, []);
    ActsConsistent(Open(f, items), acts);
    ActConsistent(st, WriteNext);
    ActsConsistent(st1, later);
    SessionHears(Open(f, items), acts);
    RunOne(st.session, HistoricalBlockSent(hash));
    SessionHears(st1, later);
  }

  /**
   * De-duplication on the wire. When a historical pair is written whose block is cached, the live
   * part of the wire repeats the block's transactions no more often than events after that carry
   * them, and, if no hash was added while still cached, its merkle block no more often than the
   * block is delivered after that; so without such events neither appears.
   */
  lemma WireIsNotRepeated(f: Filter, items: seq<Item>, acts: seq<Action>, later: seq<Action>, h: Hash)
    requires Writes(Acts(Open(f, items), acts), WriteNext)
    requires var st := Acts(Open(f, items), acts); Caches(st.session, st.todo[0].merkleBlock.headerHash)
    ensures var st := Acts(Open(f, items), acts);
            var hash, st1 := st.todo[0].merkleBlock.headerHash, Act(st, WriteNext);
            var u, heard := Acts(st1, later), AllHeard(st1, later);
            && u.wire == Pairs(u.done) + Live(u.session.sent)
            && (h in TxIds(CachedBlock(st.session, hash)) ==>
                  Count(Live(u.session.sent), WireTransactionOf(h)) <= Count(heard, CarrierOf(h)))
            && (NeverAgain(Subscribe(f), AllHeard(Open(f, items), acts)) ==>
                  Count(Live(u.session.sent), WireProofOf(hash)) <= Count(heard, DeliveryOf(hash)))
  {
    var st, es := Acts(Open(f, items), acts), AllHeard(Open(f, items), acts);
    var hash, st1 := st.todo[0].merkleBlock.headerHash, Act(st, WriteNext);
    var sent, heard := Acts(st1, later).session.sent, AllHeard(st1, later);
    WrittenPair(f, items, acts, later);
    LiveCounts(sent, h);
    LiveCounts(sent, hash);
    if h in TxIds(CachedBlock(st.session, hash)) {
      SentBlockIsNotRepeated(f, es, hash, heard, h);
    }
    if NeverAgain(Subscribe(f), es) {
      SentProofStaysSilent(f, es, hash, heard);
      SentIsRemoved(f, es, hash, hash);
    }
  }
}
