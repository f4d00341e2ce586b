/** What a session hands over in one turn of its loop, and in which order, said of what its cache holds. */
module Retrieval {
  import opened Common
  import opened BloomFilters
  import opened CacheValues
  import opened SessionValues
  import opened SessionInvariants
  import opened SessionTheorems
  import opened Selections

  // ----- what gives a message -----

  function UnsentEntry(): (TxEntry, Message) -> bool {
    (e: TxEntry, m: Message) => !e.isRetrieved && m == TransactionMsg(e.transaction)
  }

  function UnsentMerkle(): (MerkleEntry, Message) -> bool {
    (e: MerkleEntry, m: Message) => !e.isRetrieved && m == ProofMsg(e.merkleBlock)
  }

  function Awaited(waiting: set<Hash>): (InstantLock, Message) -> bool {
    (l: InstantLock, m: Message) => l.txid in waiting && m == LockMsg(l, true)
  }

  /** An entry outside the removed block stays as it is. */
  function Stays(drop: set<Hash>): (TxEntry, TxEntry) -> bool {
    (e: TxEntry, k: TxEntry) => e.transaction.hash !in drop && k == e
  }

  lemma TransactionsMore(e: TxEntry, txs: seq<Transaction>) returns (head: seq<Message>)
    ensures head == if e.isRetrieved then [] else [TransactionMsg(e.transaction)]
    ensures TransactionMsgs((if e.isRetrieved then [] else [e.transaction]) + txs) == head + TransactionMsgs(txs)
  {
    head := if e.isRetrieved then [] else [TransactionMsg(e.transaction)];
  }

  lemma {:induction false} TransactionsInOrder(ts: seq<TxEntry>)
    ensures Selected(TransactionMsgs(UnretrievedTransactions(ts)), ts, UnsentEntry())
  {
    if ts == [] {
      NothingSelected(UnsentEntry());
      assert TransactionMsgs([]) == [];
    } else {
      var rest := UnretrievedTransactions(ts[1..]);
      var head := TransactionsMore(ts[0], rest);
      TransactionsInOrder(ts[1..]);
      SelectedFirst(ts, head, TransactionMsgs(rest), UnsentEntry());
    }
  }

  lemma ProofsMore(e: MerkleEntry, ms: seq<MerkleBlock>) returns (head: seq<Message>)
    ensures head == if e.isRetrieved then [] else [ProofMsg(e.merkleBlock)]
    ensures ProofMsgs((if e.isRetrieved then [] else [e.merkleBlock]) + ms) == head + ProofMsgs(ms)
  {
    head := if e.isRetrieved then [] else [ProofMsg(e.merkleBlock)];
  }

  lemma {:induction false} ProofsInOrder(ms: seq<MerkleEntry>)
    ensures Selected(ProofMsgs(UnretrievedMerkleBlocks(ms)), ms, UnsentMerkle())
  {
    if ms == [] {
      NothingSelected(UnsentMerkle());
      assert ProofMsgs([]) == [];
    } else {
      var rest := UnretrievedMerkleBlocks(ms[1..]);
      var head := ProofsMore(ms[0], rest);
      ProofsInOrder(ms[1..]);
      SelectedFirst(ms, head, ProofMsgs(rest), UnsentMerkle());
    }
  }

  lemma {:induction false} LocksInOrder(locks: seq<InstantLock>, waiting: set<Hash>)
    ensures Selected(LockMsgs(locks, waiting), locks, Awaited(waiting))
  {
    if locks == [] {
      NothingSelected(Awaited(waiting));
    } else {
      LocksInOrder(locks[1..], waiting);
      var head := if locks[0].txid in waiting then [LockMsg(locks[0], true)] else [];
      SelectedFirst(locks, head, LockMsgs(locks[1..], waiting), Awaited(waiting));
    }
  }

  /** The removal loop leaves exactly the entries outside the block, in their order, flags included. */
  lemma {:induction false} KeptInOrder(ts: seq<TxEntry>, drop: set<Hash>)
    ensures Selected(Keep(ts, drop), ts, Stays(drop))
  {
    if ts == [] {
      NothingSelected(Stays(drop));
    } else {
      KeptInOrder(ts[1..], drop);
      var head := if ts[0].transaction.hash in drop then [] else [ts[0]];
      SelectedFirst(ts, head, Keep(ts[1..], drop), Stays(drop));
    }
  }

  // ----- one turn -----

  /** `d` is `c` with everything in it marked as retrieved, and its locks taken. */
  ghost predicate AllRetrieved(c: State, d: State) {
    && |d.transactions| == |c.transactions| && |d.merkleBlocks| == |c.merkleBlocks| && d.locks == []
    && (forall i :: 0 <= i < |c.transactions| ==> d.transactions[i] == TxEntry(c.transactions[i].transaction, true))
    && (forall i :: 0 <= i < |c.merkleBlocks| ==> d.merkleBlocks[i] == MerkleEntry(c.merkleBlocks[i].merkleBlock, true))
    && d == c.(transactions := d.transactions, merkleBlocks := d.merkleBlocks, locks := d.locks)
  }

  /** What is cached and not sent yet: transactions, then the locks still waited for, then merkle blocks. */
  ghost predicate Unsent(c: State, ms: seq<Message>) {
    exists txs, locks, proofs ::
      && ms == txs + locks + proofs
      && Selected(txs, c.transactions, UnsentEntry())
      && Selected(locks, c.locks, Awaited(c.waiting.Keys))
      && Selected(proofs, c.merkleBlocks, UnsentMerkle())
  }

  /** The client has got all of it, and nothing else. */
  ghost predicate Drains(s: SessionState, t: SessionState) {
    && AllRetrieved(s.cache, t.cache) && t.filter == s.filter
    && exists ms :: Unsent(s.cache, ms) && t.sent == s.sent + ms
  }

  /** The event that makes a subscribed session drain its cache. */
  function DrainEvent(es: seq<Event>): Event {
    if MempoolDataSent in es then LoopTurn else MempoolDataSent
  }

  lemma TurnTakesAll(s: SessionState)
    requires s.isClientConnected
    ensures AllRetrieved(s.cache, TurnLoop(s).cache)
    ensures Unsent(s.cache, Drained(s)) && TurnLoop(s).sent == s.sent + Drained(s)
    ensures TurnLoop(s) == s.(cache := TurnLoop(s).cache, sent := TurnLoop(s).sent, looping := true)
  {
    TurnLoopAppends(s);
    TransactionsInOrder(s.cache.transactions);
    LocksInOrder(s.cache.locks, s.cache.waiting.Keys);
    ProofsInOrder(s.cache.merkleBlocks);
  }

  /**
   * In every run: when the mempool data have been sent, and with every turn after that, a client that
   * has not disconnected gets exactly what is cached and was not sent before, in the order of the
   * cache, and nothing of it is left unsent.
   */
  lemma TurnSendsAll(f: Filter, es: seq<Event>)
    requires ClientDisconnected !in es
    ensures var s := Run(Subscribe(f), es);
            var e := Step(s, DrainEvent(es));
            !e.threw && Drains(s, e.state)
  {
    var s := Run(Subscribe(f), es);
    PhaseByEvents(f, es);
    Reachable(f, es, []);
    DrainEventTurns(s, DrainEvent(es));
  }

  lemma DrainEventTurns(s: SessionState, e: Event)
    requires Phased(s) && s.subscribed && e == if s.mempoolListenerArmed then MempoolDataSent else LoopTurn
    ensures !Step(s, e).threw && Drains(s, Step(s, e).state)
  {
    TurnTakesAll(if s.mempoolListenerArmed then StartForwarding(s) else s);
  }

  /** A loop whose client has disconnected sends nothing more, and ends. */
  lemma TurnEnds(f: Filter, es: seq<Event>)
    requires ClientDisconnected in es
    ensures var s := Run(Subscribe(f), es);
            var t := Step(s, LoopTurn).state;
            t == s.(looping := false)
  {
    PhaseByEvents(f, es);
    Reachable(f, es, []);
  }
}
