/**
 * One client's subscription to new transactions, as a state machine on values. Every listener
 * call is one atomic step, and so is every turn of the drain loop up to its wait.
 */
module SessionValues {
  import opened Common
  import opened BloomFilters
  import opened CacheValues

  /** What the session hands to the client; `collected` tells the two sources of locks apart. */
  datatype Message =
    | TransactionMsg(transaction: Transaction)
    | LockMsg(lock: InstantLock, collected: bool)
    | ProofMsg(merkleBlock: MerkleBlock)

  /** The listeners that take turns on the instant lock event. */
  datatype LockListener = Collecting | Forwarding

  /**
   * `subscribed`: the emitter is in the collection and its listeners are attached;
   * `mempoolListenerArmed`: the one-shot listener for "mempool data sent" has not fired;
   * `looping`: the drain loop has started and not yet ended.
   */
  datatype SessionState = SessionState(
    cache: State,
    filter: Filter,
    isClientConnected: bool,
    subscribed: bool,
    lockListeners: seq<LockListener>,
    mempoolListenerArmed: bool,
    looping: bool,
    sent: seq<Message>)

  function Subscribe(filter: Filter): SessionState {
    SessionState(EMPTY, filter, true, true, [Collecting], true, false, [])
  }

  datatype Event =
    | NewTransaction(transaction: Transaction)
    | NewBlock(block: Block)
    | NewInstantLock(lock: InstantLock, lockedTransaction: Transaction)
    | HistoricalBlockSent(blockHash: Hash)
    | MempoolDataSent
    | LoopTurn
    | ClientDisconnected

  /** A listener that throws leaves the state as it was at that moment. */
  datatype Effect = Effect(state: SessionState, threw: bool)

  function TestTransaction(s: SessionState, tx: Transaction): Effect {
    var (v, f) := Test(s.filter, tx);
    var s1 := s.(filter := f);
    if v.Match? then Effect(s1.(cache := AddTransaction(s1.cache, tx)), false) else Effect(s1, v.Throws?)
  }

  function TestTransactions(s: SessionState, txs: seq<Transaction>): Effect
    decreases txs
  {
    if txs == [] then Effect(s, false)
    else
      var e := TestTransaction(s, txs[0]);
      if e.threw then e else TestTransactions(e.state, txs[1..])
  }

  function StoreNewBlock(s: SessionState, b: Block): SessionState {
    s.(cache := AddBlock(s.cache, b))
  }

  function OnBlock(s: SessionState, b: Block): Effect {
    var e := if |s.cache.blocks| == 0 then TestTransactions(s, b.transactions) else Effect(s, false);
    if e.threw then e else Effect(StoreNewBlock(e.state, b), false)
  }

  function OnLock(s: SessionState, listener: LockListener, lock: InstantLock, tx: Transaction): Effect {
    match listener
    case Collecting =>
      var (v, f) := Test(s.filter, tx);
      var s1 := s.(filter := f);
      if v.Match? then Effect(s1.(cache := AddInstantLock(s1.cache, lock)), false) else Effect(s1, v.Throws?)
    case Forwarding =>
      Effect(if lock.txid in s.cache.waiting
             then s.(cache := RemoveFromWaitingList(s.cache, lock.txid), sent := s.sent + [LockMsg(lock, false)])
             else s, false)
  }

  /** The emitter calls the listeners that were attached when the event was emitted, in order. */
  function CallLockListeners(s: SessionState, ls: seq<LockListener>, lock: InstantLock, tx: Transaction): Effect
    decreases ls
  {
    if ls == [] then Effect(s, false)
    else
      var e := OnLock(s, ls[0], lock, tx);
      if e.threw then e else CallLockListeners(e.state, ls[1..], lock, tx)
  }

  function TransactionMsgs(txs: seq<Transaction>): seq<Message> {
    seq(|txs|, i requires 0 <= i < |txs| => TransactionMsg(txs[i]))
  }

  function ProofMsgs(ms: seq<MerkleBlock>): seq<Message> {
    seq(|ms|, i requires 0 <= i < |ms| => ProofMsg(ms[i]))
  }

  /** The collected locks that are still waited for. */
  function LockMsgs(locks: seq<InstantLock>, waiting: set<Hash>): seq<Message> {
    if locks == [] then []
    else (if locks[0].txid in waiting then [LockMsg(locks[0], true)] else []) + LockMsgs(locks[1..], waiting)
  }

  // The three parts of one turn of the drain loop.

  function DrainTransactions(s: SessionState): SessionState {
    s.(cache := TakeTransactions(s.cache),
       sent := s.sent + TransactionMsgs(UnretrievedTransactions(s.cache.transactions)))
  }

  function DrainLocks(s: SessionState): SessionState {
    s.(cache := TakeInstantLocks(s.cache), sent := s.sent + LockMsgs(s.cache.locks, s.cache.waiting.Keys))
  }

  function DrainProofs(s: SessionState): SessionState {
    s.(cache := TakeMerkleBlocks(s.cache),
       sent := s.sent + ProofMsgs(UnretrievedMerkleBlocks(s.cache.merkleBlocks)))
  }

  /** Evaluates the loop condition and, if it holds, runs the loop body up to the wait. */
  function TurnLoop(s: SessionState): SessionState {
    if s.isClientConnected
    then DrainProofs(DrainLocks(DrainTransactions(s))).(looping := true)
    else s.(looping := false)
  }

  function StartForwarding(s: SessionState): SessionState {
    var kept := RemoveAt(s.lockListeners, LastIndex(s.lockListeners, Collecting));
    s.(mempoolListenerArmed := false, lockListeners := kept + [Forwarding])
  }

  function Disconnect(s: SessionState): SessionState {
    s.(isClientConnected := false, subscribed := false, lockListeners := [], mempoolListenerArmed := false)
  }

  function Step(s: SessionState, e: Event): Effect {
    match e
    case NewTransaction(tx) => if s.subscribed then TestTransaction(s, tx) else Effect(s, false)
    case NewBlock(b) => if s.subscribed then OnBlock(s, b) else Effect(s, false)
    case NewInstantLock(lock, tx) => CallLockListeners(s, s.lockListeners, lock, tx)
    case HistoricalBlockSent(h) =>
      Effect(if s.subscribed then s.(cache := RemoveDataByBlockHash(s.cache, h)) else s, false)
    case MempoolDataSent => Effect(if s.mempoolListenerArmed then TurnLoop(StartForwarding(s)) else s, false)
    case LoopTurn => Effect(if s.looping then TurnLoop(s) else s, false)
    case ClientDisconnected => Effect(if s.subscribed then Disconnect(s) else s, false)
  }

  function Run(s: SessionState, es: seq<Event>): SessionState
    decreases es
  {
    if es == [] then s else Run(Step(s, es[0]).state, es[1..])
  }

  lemma RunPrefix(s: SessionState, es: seq<Event>, k: nat)
    requires 0 < k <= |es|
    ensures Run(s, es[..k]) == Run(Step(s, es[0]).state, es[1..][..k - 1])
  {
    assert es[..k][0] == es[0] && es[..k][1..] == es[1..][..k - 1];
  }

  lemma RunOne(s: SessionState, e: Event)
    ensures Run(s, [e]) == Step(s, e).state
  {
    assert [e][1..] == [];
  }

  lemma {:induction false} RunConcat(s: SessionState, es: seq<Event>, fs: seq<Event>)
    ensures Run(s, es + fs) == Run(Run(s, es), fs)
    decreases es
  {
    if es == [] {
      assert es + fs == fs;
    } else {
      assert (es + fs)[1..] == es[1..] + fs;
      RunConcat(Step(s, es[0]).state, es[1..], fs);
    }
  }
}
