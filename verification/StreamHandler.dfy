/** The subscribe handler of one client: it feeds history to the client and the session, then hands over. */
module StreamHandler {
  import opened Common
  import opened BloomFilters
  import opened SessionValues
  import opened Session
  import opened CollectionValues
  import Collection
  import opened History
  import opened ClientStream

  lemma NothingNew(sent: seq<Message>, wire: seq<Wire>)
    ensures wire + Live(NewMessages(sent, sent)) == wire
  {
  }

  /** Writing the next pair, spelled out. */
  lemma PairIsWritten(st: Stream)
    requires Writes(st, WriteNext)
    ensures var item := st.todo[0];
            var u := Step(st.session, HistoricalBlockSent(item.merkleBlock.headerHash)).state;
            Act(st, WriteNext)
            == st.(session := u, todo := st.todo[1..], done := st.done + [item],
                   wire := st.wire + [Wire.Transactions(item.transactions), Proof(item.merkleBlock)]
                           + Live(NewMessages(st.session.sent, u.sent)))
  {
    var item := st.todo[0];
    assert [item][1..] == [] && Pairs([]) == [];
    assert Pairs([item]) == [Wire.Transactions(item.transactions), Proof(item.merkleBlock)];
    RunOne(st.session, HistoricalBlockSent(item.merkleBlock.headerHash));
  }

  class Handler {
    const session: LiveSession
    var todo: seq<Item>
    var done: seq<Item>
    var progress: Progress
    var wire: seq<Wire>

    constructor (session: LiveSession, items: seq<Item>)
      ensures this.session == session
      ensures Value() == Stream(session.Value(), items, [], Scanning, [])
    {
      this.session := session;
      todo, done, progress, wire := items, [], Scanning, [];
    }

    ghost function Value(): Stream
      reads this, session.Repr()
    {
      Stream(session.Value(), todo, done, progress, wire)
    }

    /** The mediator's listeners write what the session has sent since there were `before` messages. */
    method WriteSent(before: seq<Message>)
      modifies this`wire
      ensures Value() == old(Value()).(wire := old(wire) + Live(NewMessages(before, session.sent)))
    {
      wire := wire + Live(NewMessages(before, session.sent));
    }

    /** Sends the next pair and tells the session that its block has been sent. */
    method WriteNext()
      modifies this, session.Repr()
      ensures Value() == Act(old(Value()), ClientStream.WriteNext)
    {
      if progress != Scanning || todo == [] {
        NothingNew(session.sent, wire);
        return;
      }
      var before, item := session.sent, todo[0];
      PairIsWritten(Value());
      wire := wire + [Wire.Transactions(item.transactions), Proof(item.merkleBlock)];
      todo, done := todo[1..], done + [item];
      session.OnHistoricalBlockSent(item.merkleBlock.headerHash);
      WriteSent(before);
    }

    method Notify(e: NetworkEvent)
      modifies this, session.Repr()
      ensures Value() == Act(old(Value()), Broadcast(e))
    {
      var before := session.sent;
      RunOne(session.Value(), e);
      var _ := Collection.Notify(session, e);
      WriteSent(before);
    }

    method Wake()
      modifies this, session.Repr()
      ensures Value() == Act(old(Value()), ClientStream.Wake)
    {
      var before := session.sent;
      RunOne(session.Value(), LoopTurn);
      session.OnLoopTurn();
      WriteSent(before);
    }

    /** Once handed over: the session is disconnected, and a subscribed one leaves the collection. */
    method Cancel(collection: Collection.BloomFilterEmitterCollection)
      requires collection.Valid()
      modifies this, session.Repr(), collection
      ensures Value() == Act(old(Value()), ClientStream.Cancel)
      ensures collection.Valid()
      ensures collection.filters
              == if old(progress) == HandedOver && old(session.subscribed)
                 then RemoveAt(old(collection.filters), LastIndex(old(collection.filters), session))
                 else old(collection.filters)
    {
      var before := session.sent;
      NothingNew(before, wire);
      if progress == HandedOver {
        var leaves := session.subscribed;
        RunOne(session.Value(), ClientDisconnected);
        session.OnClientDisconnected();
        if leaves {
          collection.Remove(session);
        }
        WriteSent(before);
      }
    }

    /** Tests the mempool on all sessions of the collection, of which this one stands at `i`. */
    method TestMempool(collection: Collection.BloomFilterEmitterCollection, ghost i: nat,
                       transactions: seq<Transaction>)
      returns (ghost heard: nat, threw: bool)
      requires collection.Valid() && i < |collection.filters| && collection.filters[i] == session
      modifies collection.Footprint()
      ensures collection.Valid() && collection.filters == old(collection.filters)
      ensures Broadcasts(collection.Values(), threw) == DeliverAll(old(collection.Values()), transactions)
      ensures heard <= |transactions| && (!threw ==> heard == |transactions|)
      ensures Value() == old(Value()).(session := Run(old(session.Value()), Tests(transactions[..heard])))
    {
      ghost var ss := collection.Values();
      threw := collection.TestAll(transactions);
      heard := Arrived(ss, transactions, i);
      ArrivedTests(ss, transactions, i);
      assert collection.Values()[i] == session.Value();
    }

    /**
     * Reads the mempool and, unless testing it throws, hands over to the session's loop. `heard` is
     * how much of it reached this session; the others are left as the tests leave them.
     */
    method ReadMempool(collection: Collection.BloomFilterEmitterCollection, ghost i: nat,
                       transactions: seq<Transaction>)
      returns (ghost heard: nat, aborted: bool)
      requires collection.Valid() && i < |collection.filters| && collection.filters[i] == session
      requires progress == Scanning && todo == []
      modifies this, collection.Footprint()
      ensures heard <= |transactions| && (!aborted ==> heard == |transactions|)
      ensures Value() == Act(old(Value()), ClientStream.ReadMempool(transactions[..heard], aborted))
      ensures collection.Valid() && collection.filters == old(collection.filters)
      ensures aborted == DeliverAll(old(collection.Values()), transactions).threw
      ensures collection.Values() == DeliverAll(old(collection.Values()), transactions).sessions[i := session.Value()]
    {
      var before := session.sent;
      ghost var st := Value();
      heard, aborted := TestMempool(collection, i, transactions);
      EndScanAmong(collection, i, st, before, transactions[..heard], aborted);
    }

    /** Ending the scan changes this session and no other. */
    method EndScanAmong(ghost collection: Collection.BloomFilterEmitterCollection, ghost i: nat,
                        ghost st: Stream, before: seq<Message>, ghost heard: seq<Transaction>, aborted: bool)
      requires collection.Valid() && i < |collection.filters| && collection.filters[i] == session
      requires EndsScan(st, ClientStream.ReadMempool(heard, aborted)) && before == st.session.sent
      requires Value() == st.(session := Run(st.session, Tests(heard)))
      modifies this, session.Repr()
      ensures Value() == Act(st, ClientStream.ReadMempool(heard, aborted))
      ensures collection.Valid() && collection.filters == old(collection.filters)
      ensures collection.Values() == old(collection.Values())[i := session.Value()]
    {
      EndScan(st, before, heard, aborted);
      collection.OnlyChanged(i);
    }

    /** Ends the scan; without an abortion the session is told that the mempool data have been sent. */
    method EndScan(ghost st: Stream, before: seq<Message>, ghost heard: seq<Transaction>, aborted: bool)
      requires EndsScan(st, ClientStream.ReadMempool(heard, aborted)) && before == st.session.sent
      requires Value() == st.(session := Run(st.session, Tests(heard)))
      modifies this, session.Repr()
      ensures Value() == Act(st, ClientStream.ReadMempool(heard, aborted))
    {
      ScanEnds(st, heard, aborted);
      if aborted {
        progress := Aborted;
      } else {
        progress := HandedOver;
        session.OnMempoolDataSent();
      }
      WriteSent(before);
    }
  }

  // ----- the mempool, as one session of a collection hears it -----

  /** What the session hears at the end of the scan: the tests, and the hand-over unless they were aborted. */
  lemma ScanEnds(st: Stream, txs: seq<Transaction>, aborted: bool)
    requires EndsScan(st, ReadMempool(txs, aborted))
    ensures var tested := Run(st.session, Tests(txs));
            var u := if aborted then tested else Step(tested, MempoolDataSent).state;
            Act(st, ReadMempool(txs, aborted))
            == st.(session := u, progress := if aborted then Aborted else HandedOver,
                   wire := st.wire + Live(NewMessages(st.session.sent, u.sent)))
  {
    var tests := Tests(txs);
    assert tests + [] == tests;
    RunConcat(st.session, tests, [MempoolDataSent]);
    RunOne(Run(st.session, tests), MempoolDataSent);
  }

  /** How many of the transactions reach the session at `i` before a broadcast throws. */
  function Arrived(ss: seq<SessionState>, txs: seq<Transaction>, i: nat): (n: nat)
    requires i < |ss|
    ensures n <= |txs|
    decreases txs
  {
    if txs == [] || CutShort(ss, NewTransaction(txs[0]), i) then 0
    else if CutShort(ss, NewTransaction(txs[0]), |ss|) then 1
    else 1 + Arrived(Deliver(ss, NewTransaction(txs[0])), txs[1..], i)
  }

  lemma TestsHead(s: SessionState, txs: seq<Transaction>, n: nat)
    requires 0 < n <= |txs|
    ensures Run(s, Tests(txs[..n])) == Run(Step(s, NewTransaction(txs[0])).state, Tests(txs[1..][..n - 1]))
  {
    assert Tests(txs[..n])[1..] == Tests(txs[1..][..n - 1]);
  }

  /** A session of the collection ends as if it alone had tested the transactions that reached it. */
  lemma {:induction false} ArrivedTests(ss: seq<SessionState>, txs: seq<Transaction>, i: nat)
    requires i < |ss|
    ensures var n := Arrived(ss, txs, i);
            && DeliverAll(ss, txs).sessions[i] == Run(ss[i], Tests(txs[..n]))
            && (!DeliverAll(ss, txs).threw ==> n == |txs|)
    decreases txs
  {
    if txs != [] {
      var e: NetworkEvent := NewTransaction(txs[0]);
      DeliverAt(ss, e, i);
      if !CutShort(ss, e, i) {
        TestsHead(ss[i], txs, Arrived(ss, txs, i));
        if !CutShort(ss, e, |ss|) {
          ArrivedTests(Deliver(ss, e), txs[1..], i);
        }
      }
    }
  }
}
