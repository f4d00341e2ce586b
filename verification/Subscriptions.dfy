/** The WebSocket client as its callers see it: what stays subscribed, and what a failing connection comes to. */
module Subscriptions {
  import opened Common
  import opened WsValues

  // ----- calls -----

  predicate IsCall(e: Event) {
    e.SubscribeCall? || e.UnsubscribeCall?
  }

  predicate AreCalls(es: seq<Event>) {
    forall e :: e in es ==> IsCall(e)
  }

  /** The subscriptions to a query less those given up, of which there is nothing to give up below none. */
  function Balance(n: nat, calls: seq<Event>, query: string): nat
    decreases calls
  {
    if calls == [] then n
    else
      Balance(if calls[0] == SubscribeCall(query) then n + 1
              else if calls[0] == UnsubscribeCall(query) && n > 0 then n - 1 else n, calls[1..], query)
  }

  lemma CallCounts(c: Client, e: Event, query: string)
    requires CanSend(c) && IsCall(e) && MapIsSound(c.keys, c.counts)
    ensures CanSend(Step(c, e)) && Count(Step(c, e), query) == Balance(Count(c, query), [e], query)
    ensures Step(c, e).ws.value.ready == c.ws.value.ready
  {
    assert [e][1..] == [];
  }

  lemma BalanceFirst(n: nat, calls: seq<Event>, query: string)
    requires calls != []
    ensures Balance(n, calls, query) == Balance(Balance(n, [calls[0]], query), calls[1..], query)
  {
    assert [calls[0]][1..] == [];
  }

  lemma {:induction false} CallsCount(c: Client, calls: seq<Event>, query: string)
    requires CanSend(c) && AreCalls(calls) && Inv(c)
    ensures var d := Run(c, calls);
            && Inv(d) && CanSend(d) && Count(d, query) == Balance(Count(c, query), calls, query)
            && d.ws.value.ready == c.ws.value.ready
    decreases calls
  {
    if calls != [] {
      assert calls[0] in calls && forall e :: e in calls[1..] ==> e in calls;
      CallCounts(c, calls[0], query);
      StepKeeps(c, calls[0]);
      BalanceFirst(Count(c, query), calls, query);
      CallsCount(Step(c, calls[0]), calls[1..], query);
    }
  }

  /**
   * From any state a run reaches with an open socket: after any calls, the node is subscribed to a
   * query exactly if more subscriptions of it were asked for than given up.
   */
  lemma SubscribedExactly(es: seq<Event>, calls: seq<Event>, query: string)
    requires var c := Run(NEW, es); c.ws.Some? && c.ws.value.ready.Opened? && AreCalls(calls)
    ensures var c, d := Run(NEW, es), Run(Run(NEW, es), calls);
            && d.ws.Some? && d.ws.value.ready.Opened?
            && (query in Net(d.ws.value.wire) <==> Balance(Count(c, query), calls, query) > 0)
  {
    RunKeeps(NEW, es);
    CallsCount(Run(NEW, es), calls, query);
  }

  /** Without a socket, or while it connects, nothing can be sent: a call that would send changes nothing. */
  lemma CallIsRefused(c: Client, query: string)
    requires c.ws.None? || c.ws.value.ready.Connecting?
    ensures Step(c, SubscribeCall(query)) == c
    ensures Count(c, query) <= 1 ==> Step(c, UnsubscribeCall(query)) == c
    ensures Count(c, query) > 1 ==>
              Step(c, UnsubscribeCall(query)) == c.(counts := c.counts[query := Count(c, query) - 1])
  {
  }

  /** Every subscription is sent over an open socket; giving one up is sent with the last one only. */
  lemma CallIsSent(c: Client, query: string)
    requires c.ws.Some? && c.ws.value.ready.Opened?
    ensures Step(c, SubscribeCall(query)).ws.value == c.ws.value.(wire := c.ws.value.wire + [Subscribe(query)])
    ensures Step(c, UnsubscribeCall(query)).ws.value
            == if Count(c, query) > 1 then c.ws.value
               else c.ws.value.(wire := c.ws.value.wire + [Unsubscribe(query)])
  {
  }

  // ----- a connection that fails -----

  /** A close with another code than 1000, and the two errors that ask for a retry. */
  predicate IsFailure(e: Event) {
    (e.SocketClosed? && e.closeCode != 1000) || e == SocketError(true)
  }

  /** A close with code 1000, and every other error. */
  predicate IsEnd(e: Event) {
    e == SocketClosed(1000) || e == SocketError(false)
  }

  /** The client has given its socket up for good, and schedules nothing. */
  ghost predicate GivenUp(c: Client, d: Client) {
    && d.ws.Some? && d.ws.value.ready.Dead? && !d.ws.value.listening && !d.isConnected
    && d == c.(ws := d.ws, isConnected := d.isConnected)
  }

  /** The end of a connection is final, until a timer, another socket or a caller opens a new one. */
  lemma EndIsFinal(c: Client, e: Event, later: Event)
    requires c.ws.Some? && c.ws.value.listening && IsEnd(e)
    ensures GivenUp(c, Step(c, e))
    ensures later.SocketOpened? || later.SocketClosed? || later.SocketError? ==> Step(Step(c, e), later) == Step(c, e)
  {
  }

  /** How many of `k` failures schedule a reopen: all of them without a bound, else at most one more than it. */
  function Reopens(bound: int, k: nat): nat {
    if bound == -1 || k <= bound + 1 then k else if bound < -1 then 0 else bound + 1
  }

  /** The failures heard on a current socket, and the reopens run by the timer. */
  datatype Tally = Tally(failures: nat, reopened: nat)

  function TallyOne(c: Client, e: Event, t: Tally): Tally {
    if IsFailure(e) && c.ws.Some? && c.ws.value.listening then t.(failures := t.failures + 1)
    else if e.ReopenTimer? && c.timers > 0 then t.(reopened := t.reopened + 1)
    else t
  }

  function Tallied(c: Client, es: seq<Event>, t: Tally): Tally
    decreases es
  {
    if es == [] then t else Tallied(Step(c, es[0]), es[1..], TallyOne(c, es[0], t))
  }

  /** Neither a new connect nor a socket that was given up while connecting interferes. */
  predicate Undisturbed(es: seq<Event>) {
    forall e :: e in es ==> !(e.Connect? || e.OrphanOpened? || e.OrphanClosed? || e.OrphanError?)
  }

  ghost predicate Books(c: Client, d: Client, bound: int, t: Tally) {
    && d.maxRetries == bound && d.scheduled == Reopens(bound, t.failures)
    && d.connectionRetries == (if bound == -1 then 0 else d.scheduled)
    && d.timers + t.reopened == c.timers + d.scheduled
    && d.exceeded + d.scheduled == c.exceeded + t.failures
  }

  lemma FailureBooks(c: Client, d: Client, bound: int, t: Tally, e: Event)
    requires Books(c, d, bound, t) && IsFailure(e)
    ensures Books(c, Step(d, e), bound, TallyOne(d, e, t))
  {
  }

  lemma StepBooks(c: Client, d: Client, bound: int, t: Tally, e: Event)
    requires Books(c, d, bound, t) && Undisturbed([e])
    ensures Books(c, Step(d, e), bound, TallyOne(d, e, t))
  {
    assert e in [e];
    if IsFailure(e) {
      FailureBooks(c, d, bound, t, e);
    }
  }

  lemma {:induction false} RunBooks(c: Client, d: Client, bound: int, t: Tally, es: seq<Event>)
    requires Books(c, d, bound, t) && Undisturbed(es)
    ensures Books(c, Run(d, es), bound, Tallied(d, es, t))
    decreases es
  {
    if es != [] {
      assert es[0] in es && forall e :: e in es[1..] ==> e in es;
      StepBooks(c, d, bound, t, es[0]);
      RunBooks(c, Step(d, es[0]), bound, TallyOne(d, es[0], t), es[1..]);
    }
  }

  /**
   * Over every run after a connect: each failure schedules one reopen, until there has been one more
   * than the bound allows, and every later failure is reported; an absent bound and 0 are no bound.
   */
  lemma ReopensExactly(c: Client, maxRetries: Option<int>, es: seq<Event>)
    requires Undisturbed(es)
    ensures var d := Step(c, Connect(maxRetries));
            var bound := if maxRetries.None? || maxRetries.value == 0 then -1 else maxRetries.value;
            var u, t := Run(d, es), Tallied(d, es, Tally(0, 0));
            && u.scheduled == Reopens(bound, t.failures)
            && u.timers + t.reopened == c.timers + u.scheduled
            && u.exceeded + u.scheduled == c.exceeded + t.failures
  {
    var d := Step(c, Connect(maxRetries));
    RunBooks(d, d, Bound(maxRetries), Tally(0, 0), es);
  }

  /** A failure that is reported ends the connection; one that is not leaves everything else to the reopen. */
  lemma FailureEnds(c: Client, e: Event)
    requires c.ws.Some? && c.ws.value.listening && IsFailure(e)
    ensures var d := Step(c, e);
            if d.exceeded > c.exceeded then GivenUp(c.(exceeded := c.exceeded + 1), d)
            else d.keys == c.keys && d.counts == c.counts && d.isConnected == c.isConnected
                 && d.ws == Some(c.ws.value.(ready := if e.SocketClosed? then Dead else c.ws.value.ready))
  {
  }

  // ----- a socket given up while connecting -----

  /**
   * When it closes or fails, that is for the client as if its current socket had failed, or had ended
   * if the code was 1000 or the error is none of the two: the current socket is given up with it.
   */
  lemma OrphanCountsAsCurrent(c: Client, code: int, retry: bool)
    requires c.orphans > 0 && c.ws.Some? && c.ws.value.listening
    ensures Step(c, OrphanError(retry)) == Step(c, SocketError(retry))
    ensures Step(c, OrphanClosed(code)) == Step(c, SocketError(code != 1000)).(orphans := c.orphans - 1)
  {
  }

  /** With no current socket it can still schedule a reopen, within the bound, and does nothing else. */
  lemma OrphanWithoutCurrent(c: Client, code: int, retry: bool)
    requires c.orphans > 0 && c.ws.None?
    ensures var within := c.maxRetries == -1 || c.connectionRetries <= c.maxRetries;
            && Step(c, OrphanError(retry)).timers == c.timers + (if retry && within then 1 else 0)
            && Step(c, OrphanClosed(code)).timers == c.timers + (if code != 1000 && within then 1 else 0)
            && Step(c, OrphanError(retry)).ws == Step(c, OrphanClosed(code)).ws == None
            && Step(c, OrphanClosed(code)).orphans == c.orphans - 1 && Step(c, OrphanError(retry)).orphans == c.orphans
  {
  }

  /** When it opens, the client takes itself for connected, and subscribes to its queries over the current socket. */
  lemma OrphanOpens(c: Client)
    requires c.orphans > 0
    ensures var d := Step(c, OrphanOpened);
            && d.isConnected && d.keys == c.keys && d.orphans == c.orphans
            && (!CanSend(c) ==> d == c.(isConnected := true))
            && (c.ws.Some? && c.ws.value.ready.Opened? ==>
                  && d.ws == Some(c.ws.value.(wire := c.ws.value.wire + SubscribeRequests(c.keys)))
                  && forall query :: query in c.counts ==> Count(d, query) == Count(c, query) + 1)
  {
  }

  // ----- a new socket -----

  /** A new socket, on which nothing has been sent, in place of the old one. */
  ghost predicate Fresh(c: Client, d: Client) {
    d.ws == Some(Socket(Connecting, true, [])) && (d.isConnected ==> c.isConnected && c.ws.None?)
  }

  /** A connect forgets all queries and retries; pending reopens stay pending. */
  lemma ConnectStartsOver(c: Client, maxRetries: Option<int>)
    ensures var d := Step(c, Connect(maxRetries));
            && Fresh(c, d) && d.keys == [] && d.counts == map[] && d.connectionRetries == 0 && d.scheduled == 0
            && d.timers == c.timers && d.exceeded == c.exceeded && d.orphans == c.orphans
  {
  }

  /**
   * A close forgets the queries and the socket, but not the reopens that are pending; the listeners of
   * a socket that never opened stay on it until it closes.
   */
  lemma CloseForgets(c: Client)
    ensures var d := Step(c, Close);
            && d.ws.None? && d.timers == c.timers && d.scheduled == c.scheduled && d.exceeded == c.exceeded
            && (c.ws.Some? ==> d.keys == [] && d.counts == map[])
            && (c.ws.Some? && c.isConnected ==> !d.isConnected && d.orphans == c.orphans)
            && (c.ws.Some? && !c.isConnected ==>
                  d.orphans == c.orphans + (if c.ws.value.listening && c.ws.value.ready != Dead then 1 else 0))
  {
  }

  /** What is sent over a new socket when it opens: each query once, in the order they were first subscribed. */
  lemma OpenRestores(c: Client)
    requires Inv(c) && c.ws == Some(Socket(Connecting, true, []))
    ensures var d := Step(c, SocketOpened);
            && Inv(d) && d.isConnected && d.timers == c.timers && d.keys == c.keys
            && d.ws == Some(Socket(Opened, true, SubscribeRequests(c.keys)))
  {
    StepKeeps(c, SocketOpened);
    assert [] + SubscribeRequests(c.keys) == SubscribeRequests(c.keys);
  }

  lemma ReopenFrom(c: Client)
    requires Inv(c) && c.timers > 0
    ensures var d := Step(Step(c, ReopenTimer), SocketOpened);
            && Fresh(c, Step(c, ReopenTimer)) && d.isConnected && d.timers == c.timers - 1
            && d.keys == c.keys && d.ws == Some(Socket(Opened, true, SubscribeRequests(c.keys)))
            && Net(d.ws.value.wire) == set query | query in c.keys
  {
    StepKeeps(c, ReopenTimer);
    OpenRestores(Step(c, ReopenTimer));
  }

  /**
   * Reconnection: when the timer has run and the new socket opens, the client is connected and has
   * subscribed to its queries again, each once, in the order in which they were first subscribed.
   */
  lemma ReopenRestores(es: seq<Event>)
    requires Run(NEW, es).timers > 0
    ensures var c := Run(NEW, es);
            var d := Step(Step(c, ReopenTimer), SocketOpened);
            && Fresh(c, Step(c, ReopenTimer)) && d.isConnected && d.timers == c.timers - 1
            && d.keys == c.keys && d.ws.Some? && d.ws.value.ready.Opened?
            && |d.ws.value.wire| == |c.keys|
            && (forall i :: 0 <= i < |c.keys| ==> d.ws.value.wire[i] == Subscribe(c.keys[i]))
            && (forall query :: query in Net(d.ws.value.wire) <==> query in c.keys)
  {
    RunKeeps(NEW, es);
    ReopenFrom(Run(NEW, es));
  }
}
