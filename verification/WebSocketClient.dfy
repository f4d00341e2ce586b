/** The client object: its socket, its retry counters and its map of subscribed queries. */
module WebSocketClient {
  import opened Common
  import opened WsValues

  class WsClient {
    var ws: Option<Socket>
    var isConnected: bool
    var connectionRetries: nat
    var maxRetries: int
    var keys: seq<string>
    var counts: map<string, nat>
    var timers: nat
    var scheduled: nat
    var exceeded: nat
    var orphans: nat

    constructor ()
      ensures Value() == NEW
    {
      ws, isConnected, connectionRetries, maxRetries := None, false, 0, -1;
      keys, counts, timers, scheduled, exceeded, orphans := [], map[], 0, 0, 0, 0;
    }

    ghost function Value(): Client
      reads this
    {
      Client(ws, isConnected, connectionRetries, maxRetries, keys, counts, timers, scheduled, exceeded, orphans)
    }

    method Send(r: Request)
      requires CanSend(Value())
      modifies this`ws
      ensures Value() == WsValues.Send(old(Value()), r)
    {
      if ws.value.ready.Opened? {
        ws := Some(ws.value.(wire := ws.value.wire + [r]));
      }
    }

    method Subscribe(query: string) returns (threw: bool)
      modifies this
      ensures Value() == DoSubscribe(old(Value()), query)
      ensures threw <==> !CanSend(old(Value()))
    {
      if ws.None? || ws.value.ready.Connecting? {
        return true;
      }
      Send(WsValues.Subscribe(query));
      var count := if query in counts then counts[query] else 0;
      if query !in counts {
        keys := keys + [query];
      }
      counts := counts[query := count + 1];
      return false;
    }

    method Unsubscribe(query: string) returns (threw: bool)
      modifies this
      ensures Value() == DoUnsubscribe(old(Value()), query)
      ensures threw <==> Count(old(Value()), query) <= 1 && !CanSend(old(Value()))
    {
      if query in counts && counts[query] > 1 {
        counts := counts[query := counts[query] - 1];
        return false;
      }
      if ws.None? || ws.value.ready.Connecting? {
        return true;
      }
      Send(WsValues.Unsubscribe(query));
      keys := KeysWithout(keys, query);
      counts := counts - {query};
      return false;
    }

    /** `Map.delete`: the query loses its place in the insertion order, and the others keep theirs. */
    static method KeysWithout(keys: seq<string>, query: string) returns (rest: seq<string>)
      ensures rest == Without(keys, query)
    {
      rest := [];
      for i := 0 to |keys|
        invariant rest + Without(keys[i..], query) == Without(keys, query)
      {
        WithoutStep(keys, i, query);
        if keys[i] != query {
          rest := rest + [keys[i]];
        }
      }
    }

    method Disconnect()
      requires ws.Some?
      modifies this`ws, this`isConnected
      ensures Value() == WsValues.Disconnect(old(Value()))
    {
      ws := Some(ws.value.(ready := Dead, listening := false));
      isConnected := false;
    }

    method Open()
      modifies this`ws, this`isConnected
      ensures Value() == WsValues.Open(old(Value()))
    {
      if ws.Some? {
        Disconnect();
      }
      ws := Some(Socket(Connecting, true, []));
    }

    /** Throws, with nothing done, if the bound is exceeded and the socket has been given up. */
    method Reconnect() returns (threw: bool)
      modifies this
      ensures Value() == WsValues.Reconnect(old(Value()))
      ensures threw <==> Exhausted(old(Value())) && old(ws).None?
    {
      if connectionRetries <= maxRetries || maxRetries == -1 {
        if maxRetries != -1 {
          connectionRetries := connectionRetries + 1;
        }
        timers, scheduled := timers + 1, scheduled + 1;
        return false;
      }
      if ws.None? {
        return true;
      }
      Disconnect();
      exceeded := exceeded + 1;
      return false;
    }

    /** One turn of the open handler's loop, for the key at `i`. */
    method SubscribeNext(ghost c: Client, i: nat) returns (threw: bool)
      requires MapIsSound(c.keys, c.counts) && i < |c.keys| && Value() == WalkedTo(c, i)
      modifies this
      ensures threw <==> !CanSend(c)
      ensures Value() == WalkedTo(c, if threw then i else i + 1)
    {
      WalkSteps(c, i);
      threw := Subscribe(keys[i]);
    }

    /**
     * The open handler's loop. It walks the keys of the map while subscribing changes that very map;
     * the walk ends because subscribing to a query that is already there adds no key.
     */
    method Resubscribe() returns (threw: bool)
      requires MapIsSound(keys, counts)
      modifies this
      ensures Value() == TryResubscribe(old(Value()))
      ensures threw <==> keys != [] && !CanSend(old(Value()))
    {
      ghost var c := Value();
      var i := 0;
      threw := false;
      WalkStarts(c);
      while i < |keys| && !threw
        invariant 0 <= i <= |c.keys| && Value() == WalkedTo(c, i)
        invariant if threw then i == 0 < |c.keys| && !CanSend(c) else i > 0 ==> CanSend(c)
        decreases |c.keys| - i, !threw
      {
        threw := SubscribeNext(c, i);
        i := if threw then i else i + 1;
      }
      WalkEnds(c, i);
    }

    method OnOpen()
      requires MapIsSound(keys, counts) && ws.Some?
      modifies this
      ensures Value() == WsValues.OnOpen(old(Value()))
    {
      ws, isConnected := Some(ws.value.(ready := Opened)), true;
      var _ := Resubscribe();
    }

    method Connect(bound: Option<int>)
      modifies this
      ensures Value() == Step(old(Value()), WsValues.Connect(bound))
    {
      maxRetries := if bound.None? || bound.value == 0 then -1 else bound.value;
      connectionRetries, scheduled, keys, counts := 0, 0, [], map[];
      Open();
    }

    method OnSocketOpened()
      requires MapIsSound(keys, counts)
      modifies this
      ensures Value() == Step(old(Value()), SocketOpened)
    {
      if ws.Some? && ws.value.listening && ws.value.ready.Connecting? {
        OnOpen();
      }
    }

    method OnSocketClosed(code: int)
      modifies this
      ensures Value() == Step(old(Value()), SocketClosed(code))
    {
      if ws.Some? && ws.value.listening {
        ws := Some(ws.value.(ready := Dead));
        if code == 1000 {
          Disconnect();
        } else {
          var _ := Reconnect();
        }
      }
    }

    method OnSocketError(retry: bool)
      modifies this
      ensures Value() == Step(old(Value()), SocketError(retry))
    {
      if ws.Some? && ws.value.listening {
        if retry {
          var _ := Reconnect();
        } else {
          Disconnect();
        }
      }
    }

    method OnReopenTimer()
      modifies this
      ensures Value() == Step(old(Value()), ReopenTimer)
    {
      if timers > 0 {
        timers := timers - 1;
        Open();
      }
    }

    method Close() returns (closed: bool)
      modifies this
      ensures Value() == Step(old(Value()), WsValues.Close)
      ensures closed <==> old(ws).Some?
    {
      if ws.None? {
        return false;
      }
      if isConnected {
        Disconnect();
      } else if CanStillClose(ws.value) {
        orphans := orphans + 1;
      }
      ws, keys, counts := None, [], map[];
      return true;
    }

    // The listeners that a socket given up while connecting still has; they speak for the client's own.

    method OnOrphanOpened() returns (threw: bool)
      requires MapIsSound(keys, counts)
      modifies this
      ensures Value() == Step(old(Value()), OrphanOpened)
    {
      threw := false;
      if orphans > 0 {
        isConnected := true;
        threw := Resubscribe();
      }
    }

    method OnOrphanClosed(code: int) returns (threw: bool)
      modifies this
      ensures Value() == Step(old(Value()), OrphanClosed(code))
    {
      threw := false;
      if orphans > 0 {
        orphans := orphans - 1;
        if code == 1000 {
          threw := DisconnectOwn();
        } else {
          threw := Reconnect();
        }
      }
    }

    method OnOrphanError(retry: bool) returns (threw: bool)
      modifies this
      ensures Value() == Step(old(Value()), OrphanError(retry))
    {
      threw := false;
      if orphans > 0 {
        if retry {
          threw := Reconnect();
        } else {
          threw := DisconnectOwn();
        }
      }
    }

    method DisconnectOwn() returns (threw: bool)
      modifies this`ws, this`isConnected
      ensures Value() == TryDisconnect(old(Value()))
      ensures threw <==> old(ws).None?
    {
      if ws.None? {
        return true;
      }
      Disconnect();
      return false;
    }
  }
}
