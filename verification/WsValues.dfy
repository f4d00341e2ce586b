/** The reconnecting WebSocket client, as a state machine on values. */
module WsValues {
  import opened Common

  datatype Ready = Connecting | Opened | Dead

  datatype Request = Subscribe(query: string) | Unsubscribe(query: string)

  /** One socket: its state, whether our listeners are on it, and what was really sent over it. */
  datatype Socket = Socket(ready: Ready, listening: bool, wire: seq<Request>)

  /**
   * `keys` and `counts` are the insertion-ordered map of subscribed queries; `timers` are the reopens
   * not yet run, `scheduled` those scheduled since the last connect; `orphans` are the sockets that
   * were given up while connecting and have not closed, with our listeners still on them.
   */
  datatype Client = Client(
    ws: Option<Socket>,
    isConnected: bool,
    connectionRetries: nat,
    maxRetries: int,
    keys: seq<string>,
    counts: map<string, nat>,
    timers: nat,
    scheduled: nat,
    exceeded: nat,
    orphans: nat)

  const NEW := Client(None, false, 0, -1, [], map[], 0, 0, 0, 0)

  // ----- the operations -----

  /** Sending throws without a socket or while it connects; a dead socket drops what is sent. */
  predicate CanSend(c: Client) {
    c.ws.Some? && !c.ws.value.ready.Connecting?
  }

  function Send(c: Client, r: Request): Client
    requires CanSend(c)
  {
    if c.ws.value.ready.Opened? then c.(ws := Some(c.ws.value.(wire := c.ws.value.wire + [r]))) else c
  }

  function Count(c: Client, query: string): nat {
    if query in c.counts then c.counts[query] else 0
  }

  /** The keys of the map once `query` is in it: a known one keeps its place. */
  function KeysWith(keys: seq<string>, counts: map<string, nat>, query: string): seq<string> {
    if query in counts then keys else keys + [query]
  }

  function DoSubscribe(c: Client, query: string): Client {
    if !CanSend(c) then c
    else
      var c1 := Send(c, Subscribe(query));
      c1.(keys := KeysWith(c1.keys, c1.counts, query),
          counts := c1.counts[query := Count(c1, query) + 1])
  }

  /** The keys of the map once `query` is deleted. */
  function Without(keys: seq<string>, query: string): seq<string> {
    if keys == [] then [] else (if keys[0] == query then [] else [keys[0]]) + Without(keys[1..], query)
  }

  function DoUnsubscribe(c: Client, query: string): Client {
    if Count(c, query) > 1 then c.(counts := c.counts[query := c.counts[query] - 1])
    else if !CanSend(c) then c
    else
      var c1 := Send(c, Unsubscribe(query));
      c1.(keys := Without(c1.keys, query), counts := c1.counts - {query})
  }

  lemma WithoutStep(keys: seq<string>, i: nat, query: string)
    requires i < |keys|
    ensures Without(keys[i..], query) == (if keys[i] == query then [] else [keys[i]]) + Without(keys[i + 1..], query)
  {
    assert keys[i..][1..] == keys[i + 1..];
  }

  function Disconnect(c: Client): Client
    requires c.ws.Some?
  {
    c.(ws := Some(c.ws.value.(ready := Dead, listening := false)), isConnected := false)
  }

  function Open(c: Client): Client {
    var c1 := if c.ws.Some? then Disconnect(c) else c;
    c1.(ws := Some(Socket(Connecting, true, [])))
  }

  /** The bound allows no further reopen. */
  predicate Exhausted(c: Client) {
    c.maxRetries != -1 && c.connectionRetries > c.maxRetries
  }

  /** Disconnecting throws, with nothing done, if the socket has been given up. */
  function TryDisconnect(c: Client): Client {
    if c.ws.Some? then Disconnect(c) else c
  }

  function Reconnect(c: Client): Client {
    if c.maxRetries == -1 then c.(timers := c.timers + 1, scheduled := c.scheduled + 1)
    else if c.connectionRetries <= c.maxRetries
    then c.(connectionRetries := c.connectionRetries + 1, timers := c.timers + 1, scheduled := c.scheduled + 1)
    else if c.ws.Some? then Disconnect(c).(exceeded := c.exceeded + 1)
    else c
  }

  function SubscribeRequests(keys: seq<string>): seq<Request> {
    seq(|keys|, i requires 0 <= i < |keys| => Subscribe(keys[i]))
  }

  /** The socket once these queries have been subscribed over it: a dead one drops the requests. */
  function WithRequests(w: Socket, keys: seq<string>): Socket {
    if w.ready.Opened? then w.(wire := w.wire + SubscribeRequests(keys)) else w
  }

  /** Every key is subscribed once more, in order; no key is added or removed. */
  function Resubscribed(c: Client): Client
    requires c.ws.Some?
  {
    c.(ws := Some(WithRequests(c.ws.value, c.keys)), counts := map q | q in c.counts :: c.counts[q] + 1)
  }

  /** The loop over the keys, which throws at the first one if nothing can be sent. */
  function TryResubscribe(c: Client): Client {
    if CanSend(c) then Resubscribed(c) else c
  }

  function OnOpen(c: Client): Client
    requires c.ws.Some?
  {
    Resubscribed(c.(ws := Some(c.ws.value.(ready := Opened)), isConnected := true))
  }

  // ----- events -----

  /** `maxRetries || -1`: an absent bound and a bound of zero both mean no bound. */
  function Bound(maxRetries: Option<int>): int {
    if maxRetries.None? || maxRetries.value == 0 then -1 else maxRetries.value
  }

  datatype Event =
    | Connect(maxRetries: Option<int>)
    | SocketOpened
    | SocketClosed(closeCode: int)
    | SocketError(retry: bool)     // the two error codes that ask for a retry, or any other
    | ReopenTimer
    | SubscribeCall(query: string)
    | UnsubscribeCall(query: string)
    | Close
    // of a socket given up while connecting:
    | OrphanOpened
    | OrphanClosed(orphanCode: int)
    | OrphanError(orphanRetry: bool)

  /** Our listeners will hear of this socket again. */
  predicate CanStillClose(w: Socket) {
    w.listening && !w.ready.Dead?
  }

  function Step(c: Client, e: Event): Client {
    match e
    case Connect(m) =>
      Open(c.(maxRetries := Bound(m), connectionRetries := 0, scheduled := 0, keys := [], counts := map[]))
    case SocketOpened =>
      if c.ws.Some? && c.ws.value.listening && c.ws.value.ready.Connecting? then OnOpen(c) else c
    case SocketClosed(code) =>
      if c.ws.Some? && c.ws.value.listening then
        var c1 := c.(ws := Some(c.ws.value.(ready := Dead)));
        if code == 1000 then Disconnect(c1) else Reconnect(c1)
      else c
    case SocketError(retry) =>
      if c.ws.Some? && c.ws.value.listening then if retry then Reconnect(c) else Disconnect(c) else c
    case ReopenTimer => if c.timers > 0 then Open(c.(timers := c.timers - 1)) else c
    case SubscribeCall(q) => DoSubscribe(c, q)
    case UnsubscribeCall(q) => DoUnsubscribe(c, q)
    case Close =>
      if c.ws.Some? then
        var c1 := if c.isConnected then Disconnect(c)
                  else c.(orphans := c.orphans + if CanStillClose(c.ws.value) then 1 else 0);
        c1.(ws := None, keys := [], counts := map[])
      else c
    case OrphanOpened => if c.orphans > 0 then TryResubscribe(c.(isConnected := true)) else c
    case OrphanClosed(code) =>
      if c.orphans > 0 then
        var c1 := c.(orphans := c.orphans - 1);
        if code == 1000 then TryDisconnect(c1) else Reconnect(c1)
      else c
    case OrphanError(retry) => if c.orphans > 0 then if retry then Reconnect(c) else TryDisconnect(c) else c
  }

  function Run(c: Client, es: seq<Event>): Client
    decreases es
  {
    if es == [] then c else Run(Step(c, es[0]), es[1..])
  }

  // ----- agreement with the node -----

  /** What the node is left subscribed to after these requests. */
  function Net(wire: seq<Request>): set<string> {
    if wire == [] then {}
    else
      var before := Net(wire[..|wire| - 1]);
      var last := wire[|wire| - 1];
      if last.Subscribe? then before + {last.query} else before - {last.query}
  }

  ghost predicate MapIsSound(keys: seq<string>, counts: map<string, nat>) {
    && (forall q :: q in keys <==> q in counts)
    && (forall q :: q in counts ==> counts[q] >= 1)
    && NoRepeats(keys)
  }

  /** An open socket is subscribed to exactly the keys of the map. */
  ghost predicate Agrees(c: Client) {
    c.ws.Some? && c.ws.value.ready.Opened? ==> Net(c.ws.value.wire) == set q | q in c.keys
  }

  /** With a bound of n, no more than n + 1 reopens have been scheduled since the connect. */
  ghost predicate WithinBound(c: Client) {
    c.maxRetries != -1 ==>
      c.scheduled == c.connectionRetries && (c.scheduled == 0 || c.scheduled <= c.maxRetries + 1)
  }

  ghost predicate Inv(c: Client) {
    && MapIsSound(c.keys, c.counts) && Agrees(c) && WithinBound(c)
    && (c.ws.Some? && c.ws.value.ready.Connecting? ==> c.ws.value.wire == [])
  }

  lemma NetOfOne(wire: seq<Request>, r: Request)
    ensures Net(wire + [r]) == if r.Subscribe? then Net(wire) + {r.query} else Net(wire) - {r.query}
  {
    assert (wire + [r])[..|wire + [r]| - 1] == wire;
  }

  lemma {:induction false} NetOfSubscribes(wire: seq<Request>, keys: seq<string>)
    ensures Net(wire + SubscribeRequests(keys)) == Net(wire) + set q | q in keys
  {
    if keys == [] {
      assert wire + SubscribeRequests(keys) == wire;
    } else {
      var front, q := keys[..|keys| - 1], keys[|keys| - 1];
      assert keys == front + [q];
      assert wire + SubscribeRequests(keys) == (wire + SubscribeRequests(front)) + [Subscribe(q)];
      NetOfSubscribes(wire, front);
      NetOfOne(wire + SubscribeRequests(front), Subscribe(q));
    }
  }

  /** Subscribing to every key of the map again leaves an agreeing socket agreeing. */
  lemma ResubscribeKeeps(c: Client)
    requires Inv(c)
    ensures Inv(TryResubscribe(c))
  {
    if CanSend(c) && c.ws.value.ready.Opened? {
      NetOfSubscribes(c.ws.value.wire, c.keys);
    }
  }

  /**
   * When the open handler finishes, the queries subscribed on the new socket are those of the map,
   * whose keys the reconnection has left as they were, counts aside.
   */
  lemma ReopenAgrees(c: Client)
    requires Inv(c) && c.ws.Some? && c.ws.value.ready.Connecting?
    ensures var d := OnOpen(c);
            && Net(d.ws.value.wire) == (set q | q in c.keys) && d.keys == c.keys
            && d.counts.Keys == c.counts.Keys && (forall q :: q in c.counts ==> d.counts[q] == c.counts[q] + 1)
            && Inv(d)
  {
    NetOfSubscribes([], c.keys);
  }

  // ----- the walk over the keys, while subscribing updates them -----

  /** The client once the first `i` keys have been walked. */
  function WalkedTo(c: Client, i: nat): Client
    requires i <= |c.keys|
  {
    if c.ws.None? then c
    else c.(ws := Some(WithRequests(c.ws.value, c.keys[..i])), counts := CountedTo(c, i))
  }

  function CountedTo(c: Client, i: nat): map<string, nat>
    requires i <= |c.keys|
  {
    map q | q in c.counts :: if q in c.keys[..i] then c.counts[q] + 1 else c.counts[q]
  }

  lemma WalkStarts(c: Client)
    ensures WalkedTo(c, 0) == c
  {
    if c.ws.Some? {
      assert c.ws.value.wire + SubscribeRequests(c.keys[..0]) == c.ws.value.wire;
    }
    assert CountedTo(c, 0) == c.counts;
  }

  lemma RequestsStep(w: Socket, keys: seq<string>, i: nat)
    requires i < |keys|
    ensures var now := WithRequests(w, keys[..i]);
            WithRequests(w, keys[..i + 1])
            == if w.ready.Opened? then now.(wire := now.wire + [Subscribe(keys[i])]) else now
  {
    assert SubscribeRequests(keys[..i + 1]) == SubscribeRequests(keys[..i]) + [Subscribe(keys[i])];
    assert w.wire + SubscribeRequests(keys[..i]) + [Subscribe(keys[i])] == w.wire + SubscribeRequests(keys[..i + 1]);
  }

  lemma CountsStep(c: Client, i: nat)
    requires MapIsSound(c.keys, c.counts) && i < |c.keys|
    ensures var now, q := CountedTo(c, i), c.keys[i];
            q in now && now[q := now[q] + 1] == CountedTo(c, i + 1)
  {
    var q := c.keys[i];
    assert c.keys[..i + 1] == c.keys[..i] + [q];
    assert q in c.counts && q !in c.keys[..i];
  }

  lemma WalkSteps(c: Client, i: nat)
    requires MapIsSound(c.keys, c.counts) && i < |c.keys|
    ensures CanSend(WalkedTo(c, i)) <==> CanSend(c)
    ensures CanSend(c) ==> DoSubscribe(WalkedTo(c, i), c.keys[i]) == WalkedTo(c, i + 1)
  {
    if CanSend(c) {
      WalkStep(c, i);
    }
  }

  lemma WalkStep(c: Client, i: nat)
    requires MapIsSound(c.keys, c.counts) && CanSend(c) && i < |c.keys|
    ensures DoSubscribe(WalkedTo(c, i), c.keys[i]) == WalkedTo(c, i + 1)
  {
    var d, q := WalkedTo(c, i), c.keys[i];
    CountsStep(c, i);
    RequestsStep(c.ws.value, c.keys, i);
    assert d.counts == CountedTo(c, i) && d.ws.value == WithRequests(c.ws.value, c.keys[..i]);
    SubscribeAgain(d, q);
  }

  /** Subscribing to a query already in the map sends the request and counts it; the keys stay. */
  lemma SubscribeAgain(d: Client, q: string)
    requires CanSend(d) && q in d.counts
    ensures DoSubscribe(d, q) == Send(d, Subscribe(q)).(counts := d.counts[q := d.counts[q] + 1])
  {
  }

  /** The walk ends with all keys, or with none if nothing can be sent. */
  lemma WalkEnds(c: Client, i: nat)
    requires MapIsSound(c.keys, c.counts) && i <= |c.keys|
    requires if CanSend(c) then i == |c.keys| else i == 0
    ensures WalkedTo(c, i) == TryResubscribe(c)
  {
    if CanSend(c) {
      assert c.keys[..|c.keys|] == c.keys;
      assert CountedTo(c, |c.keys|) == Resubscribed(c).counts;
    } else {
      WalkStarts(c);
    }
  }

  /** Counting one more subscription keeps the map sound. */
  lemma CountKeeps(keys: seq<string>, counts: map<string, nat>, query: string, n: nat)
    requires MapIsSound(keys, counts) && n >= 1
    ensures MapIsSound(KeysWith(keys, counts, query), counts[query := n])
    ensures (set q | q in KeysWith(keys, counts, query)) == (set q | q in keys) + {query}
  {
    if query !in counts {
      NoRepeatsConcat(keys, [query]);
    }
  }

  lemma SubscribeKeeps(c: Client, query: string)
    requires Inv(c)
    ensures Inv(DoSubscribe(c, query))
  {
    if CanSend(c) {
      CountKeeps(c.keys, c.counts, query, Count(c, query) + 1);
      NetOfOne(c.ws.value.wire, Subscribe(query));
    }
  }

  lemma {:induction false} WithoutMembers(keys: seq<string>, query: string)
    ensures forall q :: q in Without(keys, query) <==> q in keys && q != query
  {
    if keys != [] {
      WithoutMembers(keys[1..], query);
      assert keys == [keys[0]] + keys[1..];
    }
  }

  lemma HeadIsNew(keys: seq<string>)
    requires NoRepeats(keys) && keys != []
    ensures keys[0] !in keys[1..] && NoRepeats(keys[1..])
  {
  }

  lemma {:induction false} WithoutKeys(keys: seq<string>, query: string)
    requires NoRepeats(keys)
    ensures NoRepeats(Without(keys, query))
  {
    if keys != [] {
      HeadIsNew(keys);
      WithoutKeys(keys[1..], query);
      WithoutMembers(keys[1..], query);
      if keys[0] != query {
        NoRepeatsConcat([keys[0]], Without(keys[1..], query));
      } else {
        assert Without(keys, query) == Without(keys[1..], query);
      }
    }
  }

  /** Deleting the query's entry, together with the request, keeps map and socket in step. */
  lemma DeleteKeeps(c: Client, query: string)
    requires Inv(c) && CanSend(c)
    ensures Inv(Send(c, Unsubscribe(query)).(keys := Without(c.keys, query), counts := c.counts - {query}))
  {
    WithoutKeys(c.keys, query);
    WithoutMembers(c.keys, query);
    NetOfOne(c.ws.value.wire, Unsubscribe(query));
    assert (set q | q in Without(c.keys, query)) == (set q | q in c.keys) - {query};
  }

  lemma UnsubscribeKeeps(c: Client, query: string)
    requires Inv(c)
    ensures Inv(DoUnsubscribe(c, query))
  {
    if Count(c, query) <= 1 && CanSend(c) {
      DeleteKeeps(c, query);
    }
  }

  lemma ReconnectKeeps(c: Client)
    requires Inv(c)
    ensures Inv(Reconnect(c)) && Inv(TryDisconnect(c))
  {
  }

  lemma OpenKeeps(c: Client)
    requires MapIsSound(c.keys, c.counts) && WithinBound(c)
    ensures Inv(Open(c))
  {
  }

  lemma CloseKeeps(c: Client)
    requires Inv(c)
    ensures Inv(Step(c, Close))
  {
  }

  lemma StepKeeps(c: Client, e: Event)
    requires Inv(c)
    ensures Inv(Step(c, e))
  {
    match e
    case Connect(m) =>
      OpenKeeps(c.(maxRetries := Bound(m), connectionRetries := 0, scheduled := 0, keys := [], counts := map[]));
    case SocketOpened =>
      if c.ws.Some? && c.ws.value.ready.Connecting? {
        ReopenAgrees(c);
      }
    case SocketClosed(code) =>
      if c.ws.Some? {
        ReconnectKeeps(c.(ws := Some(c.ws.value.(ready := Dead))));
      }
    case SocketError(retry) => ReconnectKeeps(c);
    case ReopenTimer => if c.timers > 0 { OpenKeeps(c.(timers := c.timers - 1)); }
    case SubscribeCall(q) => SubscribeKeeps(c, q);
    case UnsubscribeCall(q) => UnsubscribeKeeps(c, q);
    case Close => CloseKeeps(c);
    case OrphanOpened => ResubscribeKeeps(c.(isConnected := true));
    case OrphanClosed(code) => if c.orphans > 0 { ReconnectKeeps(c.(orphans := c.orphans - 1)); }
    case OrphanError(retry) => ReconnectKeeps(c);
  }

  lemma {:induction false} RunKeeps(c: Client, es: seq<Event>)
    requires Inv(c)
    ensures Inv(Run(c, es))
    decreases es
  {
    if es != [] {
      StepKeeps(c, es[0]);
      RunKeeps(Step(c, es[0]), es[1..]);
    }
  }

  /**
   * Over every run: an open socket is subscribed to exactly the queries of the map, and with a
   * positive bound n at most n + 1 reopens have been scheduled since the last connect.
   */
  lemma AlwaysAgrees(es: seq<Event>)
    ensures var c := Run(NEW, es);
            && (c.ws.Some? && c.ws.value.ready.Opened? ==>
                  Net(c.ws.value.wire) == (set q | q in c.keys) && c.counts.Keys == set q | q in c.keys)
            && (c.maxRetries > 0 ==> c.scheduled <= c.maxRetries + 1)
  {
    RunKeeps(NEW, es);
  }

  /** A bound of zero is no bound: any number of failures schedules as many reopens. */
  lemma {:induction false} ZeroIsUnbounded(c: Client, n: nat)
    requires c.maxRetries == Bound(Some(0)) && c.ws.Some? && c.ws.value.listening
    ensures Run(c, seq(n, _ => SocketError(true))).scheduled == c.scheduled + n
    decreases n
  {
    if n > 0 {
      var es := seq(n, _ => SocketError(true));
      assert es[1..] == seq(n - 1, _ => SocketError(true));
      ZeroIsUnbounded(Step(c, es[0]), n - 1);
    }
  }

  // ----- staying closed -----

  /** Nothing is left that could open a socket again by itself. */
  predicate Quiescent(c: Client) {
    c.timers == 0 && (c.orphans == 0 || Exhausted(c))
  }

  predicate NoConnect(es: seq<Event>) {
    forall e :: e in es ==> !e.Connect?
  }

  lemma {:induction false} StaysClosed(c: Client, es: seq<Event>)
    requires c.ws.None? && Quiescent(c) && NoConnect(es)
    ensures Run(c, es).ws.None?
    decreases es
  {
    if es != [] {
      assert es[0] in es && forall e :: e in es[1..] ==> e in es;
      StaysClosed(Step(c, es[0]), es[1..]);
    }
  }

  /**
   * A client that has been closed stays closed until the next connect if and only if no reopen is
   * pending and no socket given up while connecting can still ask for one.
   */
  lemma StaysClosedExactly(c: Client)
    requires c.ws.None?
    ensures Quiescent(c) <==> forall es: seq<Event> :: NoConnect(es) ==> Run(c, es).ws.None?
  {
    if Quiescent(c) {
      forall es: seq<Event> | NoConnect(es) ensures Run(c, es).ws.None? {
        StaysClosed(c, es);
      }
    } else if c.timers > 0 {
      var es := [ReopenTimer];
      assert es[1..] == [] && NoConnect(es);
      assert Run(c, es) == Step(c, ReopenTimer);
    } else {
      var es := [OrphanClosed(1006), ReopenTimer] + [];
      RunTwo(c, OrphanClosed(1006), ReopenTimer, []);
      assert NoConnect(es);
    }
  }

  /** Closing while the socket connects is not the end: its own closing schedules a reopen. */
  lemma ReopensAfterClose()
    ensures Run(NEW, [Connect(None), Close]).ws.None?
    ensures Run(NEW, [Connect(None), Close, OrphanClosed(1006), ReopenTimer]).ws.Some?
  {
    var c := Step(Step(NEW, Connect(None)), Close);
    RunTwo(NEW, Connect(None), Close, []);
    RunTwo(NEW, Connect(None), Close, [OrphanClosed(1006), ReopenTimer]);
    RunTwo(c, OrphanClosed(1006), ReopenTimer, []);
    assert [Connect(None), Close] + [] == [Connect(None), Close];
    assert [OrphanClosed(1006), ReopenTimer] + [] == [OrphanClosed(1006), ReopenTimer];
    assert [Connect(None), Close] + [OrphanClosed(1006), ReopenTimer]
           == [Connect(None), Close, OrphanClosed(1006), ReopenTimer];
  }

  lemma RunTwo(c: Client, e: Event, e1: Event, rest: seq<Event>)
    ensures Run(c, [e, e1] + rest) == Run(Step(Step(c, e), e1), rest)
  {
    var es := [e, e1] + rest;
    assert es[1..] == [e1] + rest && es[1..][1..] == rest;
  }
}
