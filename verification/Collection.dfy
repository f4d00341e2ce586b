/** The collection object: it broadcasts to the sessions it holds, each with its own objects. */
module Collection {
  import opened Common
  import opened BloomFilters
  import opened SessionValues
  import opened Session
  import opened CollectionValues

  /** A network event, handed to the listener it is for. */
  method Notify(session: LiveSession, e: NetworkEvent) returns (threw: bool)
    modifies session.Repr()
    ensures Effect(session.Value(), threw) == Step(old(session.Value()), e)
  {
    match e
    case NewTransaction(tx) => threw := session.OnNewTransaction(tx);
    case NewBlock(block) => threw := session.OnNewBlock(block);
    case NewInstantLock(lock, tx) => threw := session.OnNewInstantLock(lock, tx);
  }

  class BloomFilterEmitterCollection {
    var filters: seq<LiveSession>

    constructor ()
      ensures Valid() && filters == []
    {
      filters := [];
    }

    /** A set: no session twice; and sessions share no filter and no cache. */
    ghost predicate Valid()
      reads this
    {
      forall i, j :: 0 <= i < j < |filters| ==> filters[i].Repr() !! filters[j].Repr()
    }

    ghost function Footprint(): set<object>
      reads this
    {
      set i, o | 0 <= i < |filters| && o in filters[i].Repr() :: o
    }

    ghost function Values(): seq<SessionState>
      reads this, Footprint()
    {
      seq(|filters|, i requires 0 <= i < |filters| reads this, Footprint() => filters[i].Value())
    }

    /** A session already there keeps its place. */
    method Add(session: LiveSession)
      requires Valid() && (session in filters || session.Repr() !! Footprint())
      modifies this
      ensures Valid() && filters == old(filters) + if session in old(filters) then [] else [session]
    {
      if session !in filters {
        filters := filters + [session];
      }
    }

    /** The others stay in their order. */
    method Remove(session: LiveSession)
      requires Valid()
      modifies this
      ensures Valid() && session !in filters
      ensures filters == RemoveAt(old(filters), LastIndex(old(filters), session))
    {
      var i := 0;
      while i < |filters| && filters[i] != session
        invariant 0 <= i <= |filters|
        invariant forall k :: 0 <= k < i ==> filters[k] != session
      {
        i := i + 1;
      }
      if i < |filters| {
        assert filters[i] == session;
        forall j | i < j < |filters| ensures filters[j] != session {
          assert filters[i].Repr() !! filters[j].Repr();
        }
        LastIndexIs(filters, session, i);
        filters := filters[..i] + filters[i + 1..];
      } else {
        LastIndexIs(filters, session, -1);
      }
    }

    /** Sessions share nothing, so what changed the objects of one left the others alone. */
    twostate lemma OnlyChanged(i: nat)
      requires Valid() && unchanged(this) && i < |filters|
      requires unchanged(Footprint() - filters[i].Repr())
      ensures Values() == old(Values())[i := filters[i].Value()]
    {
      forall k | 0 <= k < |filters| && k != i ensures filters[k].Value() == old(filters[k].Value()) {
        assert filters[if k < i then k else i].Repr() !! filters[if k < i then i else k].Repr();
        assert filters[k].Repr() <= Footprint() - filters[i].Repr();
      }
    }

    /** Notifying one session changes that session alone. */
    method NotifyAt(i: nat, e: NetworkEvent) returns (threw: bool)
      requires Valid() && i < |filters|
      modifies filters[i].Repr()
      ensures Valid() && filters == old(filters)
      ensures threw <==> ThrowsAt(old(Values()), e, i)
      ensures Values() == old(Values())[i := StateAfter(old(Values()), e, i)]
    {
      threw := Notify(filters[i], e);
      OnlyChanged(i);
    }

    /** One turn of the broadcast, `before` being the states it started from. */
    method NotifyNext(i: nat, e: NetworkEvent, ghost before: seq<SessionState>) returns (threw: bool)
      requires Valid() && i < |filters| == |before| && Values() == Stepped(before, e, i)
      modifies filters[i].Repr()
      ensures Valid() && filters == old(filters)
      ensures Values() == Stepped(before, e, i + 1)
      ensures threw <==> ThrowsAt(before, e, i)
      ensures NoneThrows(before, e, i) && !threw ==> NoneThrows(before, e, i + 1)
    {
      SteppedOnce(before, e, i);
      threw := NotifyAt(i, e);
    }

    /** `test` and `emit`: the sessions in the order they were added, until one throws. */
    method Broadcast(e: NetworkEvent) returns (threw: bool)
      requires Valid()
      modifies Footprint()
      ensures Valid() && filters == old(filters)
      ensures Values() == Deliver(old(Values()), e)
      ensures threw <==> CutShort(old(Values()), e, |filters|)
    {
      ghost var before := Values();
      for i := 0 to |filters|
        invariant filters == old(filters)
        invariant Values() == Stepped(before, e, i) && NoneThrows(before, e, i)
      {
        threw := NotifyNext(i, e, before);
        if threw {
          DeliverUpTo(before, e, i + 1);
          return true;
        }
      }
      DeliverUpTo(before, e, |filters|);
      return false;
    }

    /** `forEach` over transactions: it stops at the first broadcast that throws. */
    method TestAll(transactions: seq<Transaction>) returns (threw: bool)
      requires Valid()
      modifies Footprint()
      ensures Valid() && filters == old(filters)
      ensures Broadcasts(Values(), threw) == DeliverAll(old(Values()), transactions)
    {
      ghost var before := Values();
      for i := 0 to |transactions|
        invariant filters == old(filters)
        invariant DeliverAll(before, transactions) == DeliverAll(Values(), transactions[i..])
      {
        assert transactions[i..][1..] == transactions[i + 1..];
        threw := Broadcast(NewTransaction(transactions[i]));
        if threw {
          return true;
        }
      }
      return false;
    }
  }

  // ----- the outcome of a broadcast, session by session -----

  ghost predicate ThrowsAt(ss: seq<SessionState>, e: NetworkEvent, i: nat)
    requires i < |ss|
  {
    Step(ss[i], e).threw
  }

  ghost function StateAfter(ss: seq<SessionState>, e: NetworkEvent, i: nat): SessionState
    requires i < |ss|
  {
    Step(ss[i], e).state
  }

  /** The states once the first `n` sessions have taken their step. */
  ghost function Stepped(ss: seq<SessionState>, e: NetworkEvent, n: nat): seq<SessionState> {
    seq(|ss|, i requires 0 <= i < |ss| => if i < n then StateAfter(ss, e, i) else ss[i])
  }

  lemma SteppedOnce(ss: seq<SessionState>, e: NetworkEvent, i: nat)
    requires i < |ss|
    ensures var now := Stepped(ss, e, i);
            now[i := StateAfter(now, e, i)] == Stepped(ss, e, i + 1) && (ThrowsAt(now, e, i) <==> ThrowsAt(ss, e, i))
  {
  }

  ghost predicate NoneThrows(ss: seq<SessionState>, e: NetworkEvent, n: nat)
    requires n <= |ss|
  {
    forall k :: 0 <= k < n ==> !ThrowsAt(ss, e, k)
  }

  /** The first `n` sessions have taken their step, and the last of them throws or nobody is left. */
  ghost predicate EndsAt(ss: seq<SessionState>, e: NetworkEvent, n: nat) {
    n <= |ss| && if n > 0 && ThrowsAt(ss, e, n - 1) then NoneThrows(ss, e, n - 1) else n == |ss| && NoneThrows(ss, e, n)
  }

  lemma CutShortAfter(ss: seq<SessionState>, e: NetworkEvent, n: nat, i: nat)
    requires EndsAt(ss, e, n) && i <= |ss|
    ensures CutShort(ss, e, i) <==> 0 < n <= i && ThrowsAt(ss, e, n - 1)
  {
    if CutShort(ss, e, i) {
      var j :| 0 <= j < i && Step(ss[j], e).threw;
      assert ThrowsAt(ss, e, j);
    }
  }

  /** A broadcast steps the sessions up to and including the first that throws. */
  lemma DeliverUpTo(ss: seq<SessionState>, e: NetworkEvent, n: nat)
    requires EndsAt(ss, e, n)
    ensures Deliver(ss, e) == Stepped(ss, e, n)
    ensures CutShort(ss, e, |ss|) <==> n > 0 && ThrowsAt(ss, e, n - 1)
  {
    CutShortAfter(ss, e, n, |ss|);
    forall i | 0 <= i < |ss| ensures Deliver(ss, e)[i] == Stepped(ss, e, n)[i] {
      DeliverAt(ss, e, i);
      CutShortAfter(ss, e, n, i);
    }
  }
}
