/**
 * Waiting until a transaction is provable: a listener, a query, a wait for the next block and a
 * timer race each other. Every event, with the promise reactions it sets off, is one step.
 */
module ProvableValues {
  import opened Common
  import opened Heights

  /** `isOk` tells a transaction result from an error result. */
  datatype TxResult = TxResult(isOk: bool, height: int, transaction: Bytes)

  /** What the node has of a transaction; the execution code may be missing. */
  datatype NodeResult = NodeResult(code: Option<int>, height: int, transaction: Bytes)

  /** The execution code as each source reads it. */
  function OkByEvent(code: Option<int>): bool {
    !(code.Some? && code.value != 0)
  }

  function OkByReply(code: Option<int>): bool {
    code == Some(0)
  }

  /**
   * The listener and the query classify a result alike exactly when the code is spelled out: 0 is
   * success and any other code is not. An absent code is success to the listener alone.
   */
  lemma SourcesAgreeExactly(code: Option<int>)
    ensures OkByEvent(code) == OkByReply(code) <==> code.Some?
    ensures code.Some? ==> (OkByEvent(code) <==> code.value == 0)
    ensures code.None? ==> OkByEvent(code) && !OkByReply(code)
  {
  }

  function ByEvent(r: NodeResult): TxResult {
    TxResult(OkByEvent(r.code), r.height, r.transaction)
  }

  function ByReply(r: NodeResult): TxResult {
    TxResult(OkByReply(r.code), r.height, r.transaction)
  }

  predicate IsNotFound(hash: string, code: int, data: string) {
    code == -32603 && data == "tx (" + hash + ") not found"
  }

  /** The inner race, between the query and the listener. */
  datatype Race = Open | Won(result: TxResult) | Lost(code: int, data: string)

  datatype Outcome = Returned(result: TxResult) | Failed(code: int, data: string) | WaitPeriodExceeded

  /** `me` names the waiter this wait registers for its block height, if it comes to that. */
  datatype WaitState = WaitState(
    hash: string,
    me: nat,
    attached: bool,
    race: Race,
    outcome: Option<Outcome>,
    timerFired: bool,
    tracker: Tracker)

  function Start(hash: string, me: nat, tracker: Tracker): WaitState {
    WaitState(hash, me, true, Open, None, false, tracker)
  }

  datatype Event =
    | TransactionEvent(result: TxResult)
    | ReplyFound(result: TxResult)
    | ReplyError(code: int, data: string)
    | NewBlockEvent(height: int)
    | OtherWait(id: nat, height: int)   // some other request waits for a height
    | TimerFires

  /** A promise settles once. */
  function Settle(w: WaitState, o: Outcome): WaitState {
    if w.outcome.None? then w.(outcome := Some(o)) else w
  }

  /** The inner race is won: an error result is returned, an ok result waits for the block after its own. */
  function Win(w: WaitState, r: TxResult): WaitState {
    if !w.race.Open? then w
    else
      var w1 := w.(race := Won(r));
      if !r.isOk then Settle(w1, Returned(r))
      else
        var w2 := w1.(tracker := WaitFor(w.tracker, w.me, r.height + 1));
        if w.tracker.currentHeight >= r.height + 1 then Settle(w2, Returned(r)) else w2
  }

  function Step(w: WaitState, e: Event): WaitState {
    match e
    case TransactionEvent(r) => if w.attached then Win(w.(attached := false), r) else w
    case ReplyFound(r) => Win(w.(attached := false), r)
    case ReplyError(code, data) =>
      if IsNotFound(w.hash, code, data) || !w.race.Open? then w
      else Settle(w.(race := Lost(code, data)), Failed(code, data))
    case NewBlockEvent(h) =>
      var w1 := w.(tracker := NewBlock(w.tracker, h));
      if w.race.Won? && w.me in w1.tracker.resolved then Settle(w1, Returned(w.race.result)) else w1
    case OtherWait(id, h) => w.(tracker := WaitFor(w.tracker, id, h))
    case TimerFires => Settle(w.(attached := false, timerFired := true), WaitPeriodExceeded)
  }

  function Run(w: WaitState, es: seq<Event>): WaitState
    decreases es
  {
    if es == [] then w else Run(Step(w, es[0]), es[1..])
  }

  // ----- the invariant -----

  /** The waiter of an ok result is attached, or its height has been reached and the wait has settled. */
  ghost predicate Sound(w: WaitState) {
    && Settled(w.tracker)
    && (w.timerFired ==> !w.attached && w.outcome.Some?)
    && (!w.race.Won? ==> Unused(w.tracker, w.me))
    && match w.race
       case Open => (w.outcome.None? || w.outcome == Some(WaitPeriodExceeded))
                    && (w.outcome.None? ==> w.attached && !w.timerFired)
       case Lost(c, d) => w.outcome == Some(Failed(c, d)) || w.outcome == Some(WaitPeriodExceeded)
       case Won(r) =>
         && !w.attached
         && (w.outcome.None? || w.outcome == Some(WaitPeriodExceeded) || w.outcome == Some(Returned(r)))
         && (w.outcome.None? ==> r.isOk && Waiter(w.me, r.height + 1) in w.tracker.listeners)
         && (r.isOk ==> Waiter(w.me, r.height + 1) in w.tracker.listeners || w.me in w.tracker.resolved)
  }

  ghost predicate FreshEvent(w: WaitState, e: Event) {
    e.OtherWait? ==> e.id != w.me && Unused(w.tracker, e.id)
  }

  ghost predicate FreshEvents(w: WaitState, es: seq<Event>)
    decreases es
  {
    es == [] || (FreshEvent(w, es[0]) && FreshEvents(Step(w, es[0]), es[1..]))
  }

  /** Either source detaches the listener and then tries to win. */
  lemma WinSound(w: WaitState, r: TxResult)
    requires Sound(w)
    ensures Sound(Win(w.(attached := false), r))
  {
    if w.race.Open? && r.isOk {
      ApplySettled(w.tracker, Op.Wait(w.me, r.height + 1));
      var t := WaitFor(w.tracker, w.me, r.height + 1);
      if w.tracker.currentHeight < r.height + 1 {
        assert t.listeners[|w.tracker.listeners|] == Waiter(w.me, r.height + 1);
      } else {
        assert t.resolved[|w.tracker.resolved|] == w.me;
      }
    }
  }

  /** A block leaves a waiter attached, or resolves it; and a resolved one stays resolved. */
  lemma BlockOnWaiter(t: Tracker, h: int, id: nat, height: int)
    requires Settled(t) && (Waiter(id, height) in t.listeners || id in t.resolved)
    ensures Waiter(id, height) in NewBlock(t, h).listeners || id in NewBlock(t, h).resolved
  {
    assert t.listeners == [Updater] + t.listeners[1..];
    BlockResolvesDue(t, t.listeners[1..], h);
    if Waiter(id, height) in t.listeners {
      ApplyWaiter(t, Block(h), Waiter(id, height));
    }
  }

  lemma BlockSound(w: WaitState, h: int)
    requires Sound(w)
    ensures Sound(Step(w, NewBlockEvent(h)))
  {
    ApplySettled(w.tracker, Block(h));
    if w.race.Won? {
      if w.race.result.isOk {
        BlockOnWaiter(w.tracker, h, w.me, w.race.result.height + 1);
      }
    } else {
      BlockKeepsUnused(w.tracker, h, w.me);
    }
  }

  lemma BlockKeepsUnused(t: Tracker, h: int, id: nat)
    requires Settled(t) && Unused(t, id)
    ensures Unused(NewBlock(t, h), id)
  {
    var ws := t.listeners[1..];
    assert t.listeners == [Updater] + ws;
    BlockResolvesDue(t, ws, h);
    DueMembers(ws, h, id);
    forall w | w in StillWaiting(ws, h) ensures w in ws {
      StillWaitingMembers(ws, h, w);
    }
  }

  lemma StepSound(w: WaitState, e: Event)
    requires Sound(w) && FreshEvent(w, e)
    ensures Sound(Step(w, e))
  {
    match e
    case TransactionEvent(r) => if w.attached { WinSound(w, r); }
    case ReplyFound(r) => WinSound(w, r);
    case ReplyError(code, data) =>
    case NewBlockEvent(h) => BlockSound(w, h);
    case OtherWait(id, h) => ApplySettled(w.tracker, Op.Wait(id, h));
    case TimerFires =>
  }

  // ----- one safe outcome -----

  lemma {:induction false} RunSound(w: WaitState, es: seq<Event>)
    requires Sound(w) && FreshEvents(w, es)
    ensures Sound(Run(w, es))
    decreases es
  {
    if es != [] {
      StepSound(w, es[0]);
      RunSound(Step(w, es[0]), es[1..]);
    }
  }

  /** The wait settles at most once. */
  lemma {:induction false} OutcomeIsFinal(w: WaitState, es: seq<Event>)
    requires w.outcome.Some?
    ensures Run(w, es).outcome == w.outcome
    decreases es
  {
    if es != [] {
      OutcomeIsFinal(Step(w, es[0]), es[1..]);
    }
  }

  /** An ok result of height h is returned only when the observed height has reached h + 1. */
  lemma OkNeedsNextBlock(w: WaitState, e: Event, r: TxResult)
    requires Sound(w) && FreshEvent(w, e) && w.outcome.None?
    requires Step(w, e).outcome == Some(Returned(r)) && r.isOk
    ensures Step(w, e).tracker.currentHeight >= r.height + 1
  {
    if e.NewBlockEvent? {
      var ws := w.tracker.listeners[1..];
      assert w.tracker.listeners == [Updater] + ws;
      BlockResolvesDue(w.tracker, ws, e.height);
      DueMembers(ws, e.height, w.me);
      SameIdSameWaiter(ws, Waiter(w.me, r.height + 1));
    }
  }

  /** An error result never waits for a block: whichever source brings it settles the wait. */
  lemma ErrorReturnsAtOnce(w: WaitState, r: TxResult)
    requires Sound(w) && w.race.Open? && w.outcome.None? && !r.isOk
    ensures Step(w, TransactionEvent(r)).outcome == Step(w, ReplyFound(r)).outcome == Some(Returned(r))
  {
  }

  /** The timer rejects a wait that has not settled, for good, and leaves a settled one as it has settled. */
  lemma TimerRejects(w: WaitState, later: seq<Event>)
    ensures Run(Step(w, TimerFires), later).outcome
            == if w.outcome.Some? then w.outcome else Some(WaitPeriodExceeded)
    ensures var t := Step(w, TimerFires); t.timerFired && !t.attached && t.race == w.race && t.tracker == w.tracker
  {
    OutcomeIsFinal(Step(w, TimerFires), later);
  }

  /** Once the timer has fired the wait has settled and its transaction listener stays detached. */
  lemma {:induction false} TimerDetaches(w: WaitState, es: seq<Event>)
    requires !w.attached && w.timerFired
    ensures !Run(w, es).attached && Run(w, es).timerFired
    decreases es
  {
    if es != [] {
      TimerDetaches(Step(w, es[0]), es[1..]);
    }
  }

  /**
   * The whole run of a wait: at most one outcome, which is a result only if the inner race was won
   * with it; an error result has been returned; a fired timer leaves no listener behind.
   */
  lemma SafeOutcome(hash: string, me: nat, tracker: Tracker, es: seq<Event>)
    requires Settled(tracker) && Unused(tracker, me) && FreshEvents(Start(hash, me, tracker), es)
    ensures var w := Run(Start(hash, me, tracker), es);
            && (forall r :: w.outcome == Some(Returned(r)) ==> w.race == Won(r))
            && (w.race.Won? && !w.race.result.isOk ==> w.outcome.Some?)
            && (w.outcome == Some(WaitPeriodExceeded) ==> w.timerFired)
            && (w.timerFired ==> !w.attached && w.outcome.Some?)
            && (w.outcome.None? && w.race.Open? ==> w.attached)
  {
    RunSound(Start(hash, me, tracker), es);
    TimeoutNeedsTimer(Start(hash, me, tracker), es);
  }

  lemma {:induction false} TimeoutNeedsTimer(w: WaitState, es: seq<Event>)
    requires w.outcome == Some(WaitPeriodExceeded) ==> w.timerFired
    ensures Run(w, es).outcome == Some(WaitPeriodExceeded) ==> Run(w, es).timerFired
    decreases es
  {
    if es != [] {
      TimeoutNeedsTimer(Step(w, es[0]), es[1..]);
    }
  }

  /**
   * A won ok result that is still waiting is returned, timer aside, exactly if a block of the run
   * reaches the height after its own.
   */
  lemma {:induction false} OkReturnsExactly(w: WaitState, es: seq<Event>)
    requires Sound(w) && FreshEvents(w, es) && w.race.Won? && w.outcome.None? && TimerFires !in es
    ensures Run(w, es).outcome
            == if exists k :: 0 <= k < |es| && es[k].NewBlockEvent? && w.race.result.height + 1 <= es[k].height
               then Some(Returned(w.race.result)) else None
    decreases es
  {
    if es != [] {
      var e, rest, r := es[0], es[1..], w.race.result;
      assert e in es && forall x :: x in rest ==> x in es;
      StepSound(w, e);
      WaitingStep(w, e);
      if e.NewBlockEvent? && r.height + 1 <= e.height {
        OutcomeIsFinal(Step(w, e), rest);
      } else {
        OkReturnsExactly(Step(w, e), rest);
        assert forall k :: 0 < k < |es| ==> es[k] == rest[k - 1];
        assert forall k :: 0 <= k < |rest| ==> rest[k] == es[k + 1];
      }
    }
  }

  /** While an ok result waits for its block, only that block or the timer settles the wait. */
  lemma WaitingStep(w: WaitState, e: Event)
    requires Sound(w) && FreshEvent(w, e) && w.race.Won? && w.outcome.None? && !e.TimerFires?
    ensures Step(w, e).race == w.race
    ensures Step(w, e).outcome
            == if e.NewBlockEvent? && w.race.result.height + 1 <= e.height then Some(Returned(w.race.result)) else None
  {
    if e.NewBlockEvent? {
      StepSound(w, e);
      ApplySettled(w.tracker, Block(e.height));
      ApplyWaiter(w.tracker, Block(e.height), Waiter(w.me, w.race.result.height + 1));
      var t := NewBlock(w.tracker, e.height);
      if Waiter(w.me, w.race.result.height + 1) in t.listeners {
        assert t.listeners == [Updater] + t.listeners[1..];
      }
    }
  }

  // ----- a query that fails -----

  /** The node's words for a transaction it does not have. */
  function Missing(hash: string): string {
    "tx (" + hash + ") not found"
  }

  /** While neither source has settled anything, any error but "not found" rejects the wait, for good. */
  lemma QueryErrorRejects(w: WaitState, code: int, data: string, later: seq<Event>)
    requires w.race.Open? && w.outcome.None? && (code != -32603 || data != Missing(w.hash))
    ensures Run(Step(w, ReplyError(code, data)), later).outcome == Some(Failed(code, data))
  {
    OutcomeIsFinal(Step(w, ReplyError(code, data)), later);
  }

  /** "Not found" changes nothing: the listener can still win, with whatever it brings. */
  lemma NotFoundKeepsListening(w: WaitState, r: TxResult)
    ensures Step(w, ReplyError(-32603, Missing(w.hash))) == w
    ensures Sound(w) && w.race.Open? && w.outcome.None? ==>
              Step(Step(w, ReplyError(-32603, Missing(w.hash))), TransactionEvent(r)).race == Won(r)
  {
  }

  // ----- no missed wake-up -----

  /**
   * The node beside the wait. When the transaction is committed its event is put on its way; the
   * query is answered from what is committed at the moment the node evaluates it, or fails.
   */
  datatype Query =
    | Unanswered
    | Replying(found: Option<NodeResult>)
    | Answered
    | Broken(code: int, data: string)

  datatype World = World(wait: WaitState, committed: Option<NodeResult>, inFlight: bool, query: Query)

  datatype Action =
    | Commit(result: NodeResult)
    | DeliverEvent
    | Evaluate
    | DeliverReply
    | FailQuery(code: int, data: string)   // any error but "not found"
    | Other(event: Event)

  function NotFound(hash: string): Event {
    ReplyError(-32603, Missing(hash))
  }

  function Reply(hash: string, found: Option<NodeResult>): Event {
    if found.Some? then ReplyFound(ByReply(found.value)) else NotFound(hash)
  }

  function Act(n: World, a: Action): World {
    match a
    case Commit(r) => if n.committed.None? then n.(committed := Some(r), inFlight := true) else n
    case DeliverEvent =>
      if n.inFlight && n.committed.Some?
      then n.(inFlight := false, wait := Step(n.wait, TransactionEvent(ByEvent(n.committed.value)))) else n
    case Evaluate => if n.query.Unanswered? then n.(query := Replying(n.committed)) else n
    case DeliverReply =>
      if n.query.Replying?
      then n.(query := Answered, wait := Step(n.wait, Reply(n.wait.hash, n.query.found)))
      else n
    case FailQuery(code, data) =>
      if (n.query.Unanswered? || n.query.Replying?) && (code != -32603 || data != Missing(n.wait.hash))
      then n.(query := Broken(code, data), wait := Step(n.wait, ReplyError(code, data))) else n
    case Other(e) => if e.NewBlockEvent? || e.OtherWait? || e.TimerFires? then n.(wait := Step(n.wait, e)) else n
  }

  function Acts(n: World, acts: seq<Action>): World
    decreases acts
  {
    if acts == [] then n else Acts(Act(n, acts[0]), acts[1..])
  }

  /** The wait's result is the node's, as one of the two routes reads it. */
  predicate IsReported(v: NodeResult, r: TxResult) {
    r == ByEvent(v) || r == ByReply(v)
  }

  /** The result has reached the wait, or is on its way by one of the two routes. */
  ghost predicate Reaches(n: World) {
    && (n.wait.race.Lost? ==> n.query == Broken(n.wait.race.code, n.wait.race.data))
    && (n.query.Broken? ==> !n.wait.race.Open?)
    && (n.wait.race.Won? ==> n.committed.Some? && IsReported(n.committed.value, n.wait.race.result))
    && (n.wait.race.Open? && !n.wait.timerFired ==> n.wait.attached)
    && (n.query.Replying? && n.query.found.Some? ==> n.committed == n.query.found)
    && (n.committed.Some? && n.wait.race.Open? && !n.wait.timerFired ==>
          n.inFlight || n.query == Unanswered || n.query == Replying(n.committed))
  }

  lemma ActReaches(n: World, a: Action)
    requires Reaches(n)
    ensures Reaches(Act(n, a))
  {
  }

  lemma {:induction false} ActsReach(n: World, acts: seq<Action>)
    requires Reaches(n)
    ensures Reaches(Acts(n, acts))
    decreases acts
  {
    if acts != [] {
      ActReaches(n, acts[0]);
      ActsReach(Act(n, acts[0]), acts[1..]);
    }
  }

  /**
   * No missed wake-up. Whether the transaction was committed before the wait began (its event
   * already gone, or still on its way) or at any moment since, once nothing is on its way any more
   * the inner race has been won with the committed result, or lost to the error the query failed
   * with, unless the timer fired first.
   */
  lemma NoMissedWakeUp(hash: string, me: nat, tracker: Tracker, committed: Option<NodeResult>, inFlight: bool,
                       acts: seq<Action>)
    ensures var n := Acts(World(Start(hash, me, tracker), committed, inFlight, Unanswered), acts);
            n.committed.Some? && !n.inFlight && (n.query.Answered? || n.query.Broken?) && !n.wait.timerFired ==>
              || (n.wait.race.Won? && IsReported(n.committed.value, n.wait.race.result))
              || (n.wait.race.Lost? && n.query == Broken(n.wait.race.code, n.wait.race.data))
  {
    ActsReach(World(Start(hash, me, tracker), committed, inFlight, Unanswered), acts);
  }

  ghost predicate FreshActs(n: World, acts: seq<Action>)
    decreases acts
  {
    acts == []
    || ((acts[0].Other? ==> FreshEvent(n.wait, acts[0].event)) && FreshActs(Act(n, acts[0]), acts[1..]))
  }

  /** What a wait beside a node keeps: it is sound, and times out by its timer only. */
  ghost predicate Timely(w: WaitState) {
    Sound(w) && (w.outcome == Some(WaitPeriodExceeded) ==> w.timerFired)
  }

  lemma ActTimely(n: World, a: Action)
    requires Timely(n.wait) && (a.Other? ==> FreshEvent(n.wait, a.event))
    ensures Timely(Act(n, a).wait)
  {
    match a
    case Commit(r) =>
    case DeliverEvent =>
      if n.committed.Some? {
        StepSound(n.wait, TransactionEvent(ByEvent(n.committed.value)));
      }
    case Evaluate =>
    case DeliverReply =>
      if n.query.Replying? {
        StepSound(n.wait, Reply(n.wait.hash, n.query.found));
      }
    case FailQuery(code, data) => StepSound(n.wait, ReplyError(code, data));
    case Other(e) => StepSound(n.wait, e);
  }

  lemma {:induction false} ActsTimely(n: World, acts: seq<Action>)
    requires Timely(n.wait) && FreshActs(n, acts)
    ensures Timely(Acts(n, acts).wait)
    decreases acts
  {
    if acts != [] {
      ActTimely(n, acts[0]);
      ActsTimely(Act(n, acts[0]), acts[1..]);
    }
  }

  /**
   * The answer does not depend on the route it takes exactly if the execution code is present: the
   * two routes read it alike exactly then, and either of them can win.
   */
  lemma RouteMattersExactly(hash: string, me: nat, tracker: Tracker, v: NodeResult)
    ensures ByEvent(v) == ByReply(v) <==> v.code.Some?
    ensures var n := World(Start(hash, me, tracker), None, false, Unanswered);
            && Acts(n, [Commit(v), DeliverEvent]).wait.race == Won(ByEvent(v))
            && Acts(n, [Commit(v), Evaluate, DeliverReply]).wait.race == Won(ByReply(v))
  {
    var n := World(Start(hash, me, tracker), None, false, Unanswered);
    var n1 := Act(n, Commit(v));
    var n2 := Act(n1, Evaluate);
    assert [Commit(v), DeliverEvent][1..] == [DeliverEvent] && [DeliverEvent][1..] == [];
    assert Acts(n1, [DeliverEvent]) == Act(n1, DeliverEvent);
    var acts := [Commit(v), Evaluate, DeliverReply];
    assert acts[1..] == [Evaluate, DeliverReply] && acts[1..][1..] == [DeliverReply] && [DeliverReply][1..] == [];
    assert Acts(n2, [DeliverReply]) == Act(n2, DeliverReply);
    assert Acts(n1, [Evaluate, DeliverReply]) == Acts(n2, [DeliverReply]);
  }

  /**
   * What the caller gets back. Once nothing is on its way any more and the timer has not fired, the
   * race has been won with the committed result as one of the routes reads it, which is the same
   * result if its code is present. An error result has been returned; an ok result has been, or is
   * returned by the first later block that reaches its next height, and exactly then, unless the
   * timer comes first.
   */
  lemma CallerGetsResult(hash: string, me: nat, tracker: Tracker, committed: Option<NodeResult>, inFlight: bool,
                         acts: seq<Action>, later: seq<Event>)
    requires var n0 := World(Start(hash, me, tracker), committed, inFlight, Unanswered);
             var n := Acts(n0, acts);
             && Settled(tracker) && Unused(tracker, me) && FreshActs(n0, acts)
             && n.committed.Some? && !n.inFlight && n.query.Answered? && !n.wait.timerFired
             && FreshEvents(n.wait, later) && TimerFires !in later
    ensures var n := Acts(World(Start(hash, me, tracker), committed, inFlight, Unanswered), acts);
            && n.wait.race.Won?
            && var r := n.wait.race.result;
            && IsReported(n.committed.value, r) && (n.committed.value.code.Some? ==> r == ByEvent(n.committed.value))
            && r.height == n.committed.value.height && r.transaction == n.committed.value.transaction
            && (n.committed.value.code.Some? ==> (r.isOk <==> n.committed.value.code.value == 0))
            && (!r.isOk ==> n.wait.outcome == Some(Returned(r)))
            && Run(n.wait, later).outcome
               == if n.wait.outcome.Some?
                     || exists k :: 0 <= k < |later| && later[k].NewBlockEvent? && r.height + 1 <= later[k].height
                  then Some(Returned(r)) else None
  {
    var n0 := World(Start(hash, me, tracker), committed, inFlight, Unanswered);
    var w := Acts(n0, acts).wait;
    NoMissedWakeUp(hash, me, tracker, committed, inFlight, acts);
    ActsTimely(n0, acts);
    if w.outcome.Some? {
      OutcomeIsFinal(w, later);
    } else {
      OkReturnsExactly(w, later);
    }
  }

  lemma {:induction false} WaitIsTimely(n: World, acts: seq<Action>)
    requires Timely(n.wait) && Reaches(n) && FreshActs(n, acts)
    ensures Timely(Acts(n, acts).wait) && Reaches(Acts(n, acts))
    decreases acts
  {
    if acts != [] {
      ActTimely(n, acts[0]);
      ActReaches(n, acts[0]);
      WaitIsTimely(Act(n, acts[0]), acts[1..]);
    }
  }

  /** Nothing the node does changes a settled wait. */
  lemma {:induction false} SettledStays(n: World, acts: seq<Action>)
    requires n.wait.outcome.Some?
    ensures Acts(n, acts).wait.outcome == n.wait.outcome
    decreases acts
  {
    if acts != [] {
      SettledStays(Act(n, acts[0]), acts[1..]);
    }
  }

  /** A race that is won or lost ends as it is. */
  lemma {:induction false} RaceIsFinal(n: World, acts: seq<Action>)
    requires !n.wait.race.Open?
    ensures Acts(n, acts).wait.race == n.wait.race
    decreases acts
  {
    if acts != [] {
      RaceIsFinal(Act(n, acts[0]), acts[1..]);
    }
  }

  /**
   * When the query fails, with anything but "not found", the caller gets that error exactly if by
   * then the listener has not won and the timer has not fired; and whatever error the caller gets,
   * the query has failed with it.
   */
  lemma CallerGetsErrorExactly(hash: string, me: nat, tracker: Tracker, committed: Option<NodeResult>, inFlight: bool,
                               before: seq<Action>, code: int, data: string, after: seq<Action>)
    requires var n0 := World(Start(hash, me, tracker), committed, inFlight, Unanswered);
             var n := Acts(n0, before);
             && Settled(tracker) && Unused(tracker, me) && FreshActs(n0, before)
             && FreshActs(Act(n, FailQuery(code, data)), after)
             && (n.query.Unanswered? || n.query.Replying?) && (code != -32603 || data != Missing(hash))
    ensures var n := Acts(World(Start(hash, me, tracker), committed, inFlight, Unanswered), before);
            var end := Acts(Act(n, FailQuery(code, data)), after);
            && (end.wait.outcome == Some(Failed(code, data)) <==> n.wait.race.Open? && !n.wait.timerFired)
            && (end.wait.outcome.Some? && end.wait.outcome.value.Failed? ==>
                  end.query == Broken(end.wait.outcome.value.code, end.wait.outcome.value.data))
  {
    var n0 := World(Start(hash, me, tracker), committed, inFlight, Unanswered);
    var n := Acts(n0, before);
    var m := Act(n, FailQuery(code, data));
    WaitIsTimely(n0, before);
    HashStays(n0, before);
    ActTimely(n, FailQuery(code, data));
    ActReaches(n, FailQuery(code, data));
    WaitIsTimely(m, after);
    RaceIsFinal(m, after);
    if m.wait.outcome.Some? {
      SettledStays(m, after);
    }
  }

  lemma {:induction false} HashStays(n: World, acts: seq<Action>)
    ensures Acts(n, acts).wait.hash == n.wait.hash
    decreases acts
  {
    if acts != [] {
      HashStays(Act(n, acts[0]), acts[1..]);
    }
  }

  /** Attached only after the query was evaluated, the listener would miss a commit in between. */
  lemma ListenerMustComeFirst(hash: string, me: nat, tracker: Tracker, r: NodeResult)
    ensures var late := Start(hash, me, tracker).(attached := false);
            var n := Acts(World(late, None, false, Unanswered), [Evaluate, Commit(r), DeliverEvent, DeliverReply]);
            n.committed == Some(r) && !n.inFlight && n.query.Answered? && n.wait.race.Open? && !n.wait.timerFired
  {
    var acts := [Evaluate, Commit(r), DeliverEvent, DeliverReply];
    var n := World(Start(hash, me, tracker).(attached := false), None, false, Unanswered);
    var n1 := Act(n, Evaluate);
    var n2 := Act(n1, Commit(r));
    var n3 := Act(n2, DeliverEvent);
    assert acts[1..] == [Commit(r), DeliverEvent, DeliverReply];
    assert acts[1..][1..] == [DeliverEvent, DeliverReply] && acts[1..][1..][1..] == [DeliverReply];
    assert Acts(n, acts) == Acts(n2, [DeliverEvent, DeliverReply]);
    assert Acts(n2, [DeliverEvent, DeliverReply]) == Acts(n3, [DeliverReply]);
    assert [DeliverReply][1..] == [];
    assert Acts(n3, [DeliverReply]) == Act(n3, DeliverReply);
  }
}
