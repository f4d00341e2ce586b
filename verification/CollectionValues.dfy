/** The collection of subscribed sessions, as a sequence of states in the order they were added. */
module CollectionValues {
  import opened Common
  import opened BloomFilters
  import opened Bip37
  import opened CacheValues
  import opened SessionValues
  import opened Selections

  /** The events the collection broadcasts; the others reach a session through its own mediator. */
  type NetworkEvent = e: Event | e.NewTransaction? || e.NewBlock? || e.NewInstantLock?
    witness NewTransaction(Transaction([], [], []))

  /** Each session gets the event in turn; one that throws ends the broadcast. */
  function Deliver(ss: seq<SessionState>, e: NetworkEvent): (r: seq<SessionState>)
    ensures |r| == |ss|
    decreases ss
  {
    if ss == [] then []
    else
      var x := Step(ss[0], e);
      [x.state] + if x.threw then ss[1..] else Deliver(ss[1..], e)
  }

  /** Some session ahead of position `i` throws on the event. */
  predicate CutShort(ss: seq<SessionState>, e: NetworkEvent, i: nat)
    requires i <= |ss|
  {
    exists j :: 0 <= j < i && Step(ss[j], e).threw
  }

  lemma CutShortTail(ss: seq<SessionState>, e: NetworkEvent, i: nat)
    requires 0 < i <= |ss|
    ensures CutShort(ss, e, i) <==> Step(ss[0], e).threw || CutShort(ss[1..], e, i - 1)
  {
    var rest := ss[1..];
    assert forall j :: 0 < j < i ==> ss[j] == rest[j - 1];
    assert forall j :: 0 <= j < i - 1 ==> rest[j] == ss[j + 1];
  }

  /** What a broadcast does to one session: its own step, unless a session ahead of it throws. */
  lemma {:induction false} DeliverAt(ss: seq<SessionState>, e: NetworkEvent, i: nat)
    requires i < |ss|
    ensures Deliver(ss, e)[i] == if CutShort(ss, e, i) then ss[i] else Step(ss[i], e).state
    decreases ss
  {
    var x, rest := Step(ss[0], e), ss[1..];
    assert Deliver(ss, e) == [x.state] + if x.threw then rest else Deliver(rest, e);
    if i > 0 {
      CutShortTail(ss, e, i);
      if !x.threw {
        DeliverAt(rest, e, i - 1);
      }
    }
  }

  datatype Broadcasts = Broadcasts(sessions: seq<SessionState>, threw: bool)

  /** Transactions broadcast one after the other, until a broadcast throws. */
  function DeliverAll(ss: seq<SessionState>, txs: seq<Transaction>): (r: Broadcasts)
    ensures |r.sessions| == |ss|
    decreases txs
  {
    if txs == [] then Broadcasts(ss, false)
    else
      var next := Deliver(ss, NewTransaction(txs[0]));
      if CutShort(ss, NewTransaction(txs[0]), |ss|) then Broadcasts(next, true) else DeliverAll(next, txs[1..])
  }

  // ----- when nothing throws -----

  /** Every transaction the event carries has all its output scripts. */
  ghost predicate Parsed(e: NetworkEvent) {
    match e
    case NewTransaction(tx) => AllScriptsPresent(tx)
    case NewBlock(b) => forall t :: t in b.transactions ==> AllScriptsPresent(t)
    case NewInstantLock(_, tx) => AllScriptsPresent(tx)
  }

  lemma TestAnswers(f: Filter, tx: Transaction)
    requires AllScriptsPresent(tx)
    ensures Test(f, tx).0 != Throws
  {
    ThrowsExactly(f, tx);
  }

  lemma {:induction false} TestsAnswer(s: SessionState, txs: seq<Transaction>)
    requires forall t :: t in txs ==> AllScriptsPresent(t)
    ensures !TestTransactions(s, txs).threw
    decreases txs
  {
    if txs != [] {
      TestAnswers(s.filter, txs[0]);
      TestsAnswer(TestTransaction(s, txs[0]).state, txs[1..]);
    }
  }

  lemma {:induction false} ListenersAnswer(s: SessionState, ls: seq<LockListener>, lock: InstantLock, tx: Transaction)
    requires AllScriptsPresent(tx)
    ensures !CallLockListeners(s, ls, lock, tx).threw
    decreases ls
  {
    if ls != [] {
      TestAnswers(s.filter, tx);
      ListenersAnswer(OnLock(s, ls[0], lock, tx).state, ls[1..], lock, tx);
    }
  }

  lemma StepAnswers(s: SessionState, e: NetworkEvent)
    requires Parsed(e)
    ensures !Step(s, e).threw
  {
    match e
    case NewTransaction(tx) => TestAnswers(s.filter, tx);
    case NewBlock(b) => TestsAnswer(s, b.transactions);
    case NewInstantLock(lock, tx) => ListenersAnswer(s, s.lockListeners, lock, tx);
  }

  lemma DeliverParsed(ss: seq<SessionState>, e: NetworkEvent, i: nat)
    requires Parsed(e) && i < |ss|
    ensures Deliver(ss, e)[i] == Step(ss[i], e).state
  {
    DeliverAt(ss, e, i);
    forall j | 0 <= j < i ensures !Step(ss[j], e).threw {
      StepAnswers(ss[j], e);
    }
  }

  // ----- and that it takes no less -----

  /** A filter that contains nothing, and one that contains everything. */
  const NOTHING := Filter({1}, 0, (data: Bytes) => {0})
  const EVERYTHING := Filter({0}, 0, (data: Bytes) => {0})

  lemma NothingThrows(tx: Transaction)
    requires !AllScriptsPresent(tx)
    ensures Test(NOTHING, tx) == (Throws, NOTHING)
  {
    var o :| o in tx.outputs && o.script.None?;
    var k :| 0 <= k < |tx.outputs| && tx.outputs[k] == o;
    assert forall data: Bytes :: !NOTHING.Contains(data);
  }

  lemma NothingPasses(tx: Transaction)
    requires AllScriptsPresent(tx)
    ensures Test(NOTHING, tx) == (NoMatch, NOTHING)
  {
    assert forall data: Bytes :: !NOTHING.Contains(data);
  }

  lemma {:induction false} NothingThrowsOnBlock(s: SessionState, txs: seq<Transaction>)
    requires s.filter == NOTHING && exists t :: t in txs && !AllScriptsPresent(t)
    ensures TestTransactions(s, txs).threw
    decreases txs
  {
    if AllScriptsPresent(txs[0]) {
      NothingPasses(txs[0]);
      NothingThrowsOnBlock(s, txs[1..]);
    } else {
      NothingThrows(txs[0]);
    }
  }

  /** A session that contains nothing throws on whatever is not parsed. */
  lemma UnparsedThrows(e: NetworkEvent)
    requires !Parsed(e)
    ensures Step(Subscribe(NOTHING), e).threw
  {
    var s := Subscribe(NOTHING);
    match e
    case NewTransaction(tx) => NothingThrows(tx);
    case NewBlock(b) => NothingThrowsOnBlock(s, b.transactions);
    case NewInstantLock(lock, tx) => NothingThrows(tx);
  }

  /** A session that contains everything changes with every broadcast. */
  lemma EverythingNotices(e: NetworkEvent)
    ensures Step(Subscribe(EVERYTHING), e).state != Subscribe(EVERYTHING)
  {
    var s := Subscribe(EVERYTHING);
    assert forall data: Bytes :: EVERYTHING.Contains(data);
    match e
    case NewTransaction(tx) => assert Step(s, e).state.cache.transactions != [];
    case NewBlock(b) =>
      EverythingAnswers(s, b.transactions);
      assert Step(s, e).state.cache.blocksProcessed == 1;
    case NewInstantLock(lock, tx) => assert Step(s, e).state.cache.locks == [lock];
  }

  lemma {:induction false} EverythingAnswers(s: SessionState, txs: seq<Transaction>)
    requires s.filter == EVERYTHING
    ensures !TestTransactions(s, txs).threw
    ensures TestTransactions(s, txs).state.cache.blocksProcessed == s.cache.blocksProcessed
    decreases txs
  {
    if txs != [] {
      assert Test(s.filter, txs[0]) == (Match, s.filter);
      EverythingAnswers(TestTransaction(s, txs[0]).state, txs[1..]);
    }
  }

  /**
   * Every session takes its own step, whoever else is subscribed, exactly for the broadcasts whose
   * transactions have all their output scripts.
   */
  lemma ParsedExactly(e: NetworkEvent)
    ensures Parsed(e)
            <==> forall ss: seq<SessionState>, i: nat :: i < |ss| ==> Deliver(ss, e)[i] == Step(ss[i], e).state
  {
    if Parsed(e) {
      forall ss: seq<SessionState>, i: nat | i < |ss| ensures Deliver(ss, e)[i] == Step(ss[i], e).state {
        DeliverParsed(ss, e, i);
      }
    } else {
      var ss := [Subscribe(NOTHING), Subscribe(EVERYTHING)];
      UnparsedThrows(e);
      EverythingNotices(e);
      DeliverAt(ss, e, 1);
      assert Step(ss[0], e).threw && Deliver(ss, e)[1] != Step(ss[1], e).state;
    }
  }

  // ----- runs of the whole server -----

  datatype Member = Member(id: nat, session: SessionState)

  datatype ServerEvent =
    | Join(newId: nat, filter: Filter)
    | Network(event: NetworkEvent)
    | Private(id: nat, own: Event)    // delivered by the session's own mediator or loop
    | Leave(leaver: nat)

  function Sessions(ms: seq<Member>): seq<SessionState> {
    seq(|ms|, i requires 0 <= i < |ms| => ms[i].session)
  }

  function ServerStep(ms: seq<Member>, e: ServerEvent): seq<Member> {
    match e
    case Join(id, f) => ms + [Member(id, Subscribe(f))]
    case Network(n) =>
      var ss := Deliver(Sessions(ms), n);
      seq(|ms|, i requires 0 <= i < |ms| => Member(ms[i].id, ss[i]))
    case Private(id, own) =>
      seq(|ms|, i requires 0 <= i < |ms| =>
        if ms[i].id == id then Member(id, Step(ms[i].session, own).state) else ms[i])
    case Leave(id) => Without(ms, id)
  }

  function Without(ms: seq<Member>, id: nat): seq<Member> {
    if ms == [] then [] else (if ms[0].id == id then [] else [ms[0]]) + Without(ms[1..], id)
  }

  function ServerRun(ms: seq<Member>, es: seq<ServerEvent>): seq<Member>
    decreases es
  {
    if es == [] then ms else ServerRun(ServerStep(ms, es[0]), es[1..])
  }

  /** What a session hears of a server event if nothing keeps it away. */
  function MeantFor(e: ServerEvent, id: nat): seq<Event> {
    match e
    case Network(n) => [n]
    case Private(i, own) => if i == id then [own] else []
    case _ => []
  }

  /** What a session would hear if it were alone: every broadcast, and its own private events. */
  function HeardAlone(es: seq<ServerEvent>, id: nat): seq<Event> {
    if es == [] then [] else MeantFor(es[0], id) + HeardAlone(es[1..], id)
  }

  /** Some member ahead of every one of that id throws on the event. */
  predicate Misses(ms: seq<Member>, n: NetworkEvent, id: nat) {
    exists j :: 0 <= j < |ms| && Step(ms[j].session, n).threw && forall k :: 0 <= k <= j ==> ms[k].id != id
  }

  function HeardNow(ms: seq<Member>, e: ServerEvent, id: nat): seq<Event> {
    if e.Network? && Misses(ms, e.event, id) then [] else MeantFor(e, id)
  }

  /** What a session hears among the others: the broadcasts that reach it, and its own private events. */
  function HeardAmong(ms: seq<Member>, es: seq<ServerEvent>, id: nat): seq<Event>
    decreases es
  {
    if es == [] then []
    else HeardNow(ms, es[0], id) + HeardAmong(ServerStep(ms, es[0]), es[1..], id)
  }

  /** The one member of that id stands at `k`, in state `s`. */
  ghost predicate At(ms: seq<Member>, id: nat, k: nat, s: SessionState) {
    k < |ms| && ms[k] == Member(id, s) && forall j :: 0 <= j < |ms| && j != k ==> ms[j].id != id
  }

  ghost predicate Is(ms: seq<Member>, id: nat, s: SessionState) {
    exists k: nat :: At(ms, id, k, s)
  }

  /** Removing an id leaves the others in their order. */
  lemma {:induction false} WithoutAt(ms: seq<Member>, k: nat)
    requires k < |ms| && forall j :: 0 <= j < |ms| && j != k ==> ms[j].id != ms[k].id
    ensures Without(ms, ms[k].id) == RemoveAt(ms, k)
    decreases ms
  {
    if k == 0 {
      WithoutNone(ms[1..], ms[0].id);
    } else {
      WithoutAt(ms[1..], k - 1);
    }
  }

  lemma {:induction false} WithoutNone(ms: seq<Member>, id: nat)
    requires forall m :: m in ms ==> m.id != id
    ensures Without(ms, id) == ms
  {
    if ms != [] {
      WithoutNone(ms[1..], id);
    }
  }

  /** A member that is not the leaver stays as it is. */
  ghost function Remains(leaver: nat): (Member, Member) -> bool {
    (m: Member, n: Member) => m.id != leaver && n == m
  }

  lemma {:induction false} WithoutLeaver(ms: seq<Member>, id: nat)
    ensures Selected(Without(ms, id), ms, Remains(id))
  {
    if ms == [] {
      NothingSelected(Remains(id));
    } else {
      WithoutLeaver(ms[1..], id);
      SelectedFirst(ms, if ms[0].id == id then [] else [ms[0]], Without(ms[1..], id), Remains(id));
    }
  }

  lemma {:induction false} StaysGone(ms: seq<Member>, es: seq<ServerEvent>, id: nat)
    requires (forall m :: m in ms ==> m.id != id) && forall e :: e in es ==> !(e.Join? && e.newId == id)
    ensures forall m :: m in ServerRun(ms, es) ==> m.id != id
    decreases es
  {
    if es != [] {
      assert es[0] in es && forall e :: e in es[1..] ==> e in es;
      var rest := ServerStep(ms, es[0]);
      if es[0].Leave? {
        WithoutMembers(ms, es[0].leaver, id);
      }
      StaysGone(rest, es[1..], id);
    }
  }

  /** Leaving takes exactly the leaver out, leaves the others in their order, and is undone by a join only. */
  lemma LeaverIsGone(ms: seq<Member>, es: seq<ServerEvent>, id: nat)
    requires forall e :: e in es ==> !(e.Join? && e.newId == id)
    ensures Selected(ServerStep(ms, Leave(id)), ms, Remains(id))
    ensures forall m :: m in ServerRun(ServerStep(ms, Leave(id)), es) ==> m.id != id
  {
    WithoutLeaver(ms, id);
    NoLeaver(ms, id);
    StaysGone(ServerStep(ms, Leave(id)), es, id);
  }

  lemma {:induction false} NoLeaver(ms: seq<Member>, id: nat)
    ensures forall m :: m in Without(ms, id) ==> m.id != id
  {
    if ms != [] {
      NoLeaver(ms[1..], id);
    }
  }

  /** Removing another id leaves the one member of an id alone, wherever it comes to stand. */
  lemma {:induction false} WithoutOther(ms: seq<Member>, other: nat, id: nat, k: nat, s: SessionState) returns (l: nat)
    requires At(ms, id, k, s) && other != id
    ensures At(Without(ms, other), id, l, s)
    decreases ms
  {
    var rest := ms[1..];
    if k == 0 {
      l := 0;
      WithoutMembers(rest, other, id);
    } else {
      assert rest[k - 1] == ms[k] && forall j :: 0 <= j < |rest| ==> rest[j] == ms[j + 1];
      var m := WithoutOther(rest, other, id, k - 1, s);
      l := if ms[0].id == other then m else m + 1;
    }
  }

  lemma {:induction false} WithoutMembers(ms: seq<Member>, other: nat, id: nat)
    requires forall j :: 0 <= j < |ms| ==> ms[j].id != id
    ensures forall j :: 0 <= j < |Without(ms, other)| ==> Without(ms, other)[j].id != id
  {
    if ms != [] {
      WithoutMembers(ms[1..], other, id);
    }
  }

  lemma MissesIsCutShort(ms: seq<Member>, n: NetworkEvent, id: nat, k: nat, s: SessionState)
    requires At(ms, id, k, s)
    ensures Misses(ms, n, id) <==> CutShort(Sessions(ms), n, k)
  {
    var ss := Sessions(ms);
    if CutShort(ss, n, k) {
      var j :| 0 <= j < k && Step(ss[j], n).threw;
      assert Step(ms[j].session, n).threw;
    }
    forall j | 0 <= j < |ms| && Step(ms[j].session, n).threw && (forall l :: 0 <= l <= j ==> ms[l].id != id)
      ensures j < k && Step(ss[j], n).threw
    {
    }
  }

  lemma NetworkIsolated(ms: seq<Member>, n: NetworkEvent, id: nat, k: nat, s: SessionState)
    requires At(ms, id, k, s)
    ensures At(ServerStep(ms, Network(n)), id, k, if Misses(ms, n, id) then s else Step(s, n).state)
  {
    MissesIsCutShort(ms, n, id, k, s);
    DeliverAt(Sessions(ms), n, k);
    assert Sessions(ms)[k] == s;
  }

  lemma StepIsolated(ms: seq<Member>, e: ServerEvent, id: nat, s: SessionState)
    requires Is(ms, id, s) && e != Leave(id) && !(e.Join? && e.newId == id)
    ensures Is(ServerStep(ms, e), id, Run(s, HeardNow(ms, e, id)))
  {
    var k: nat :| At(ms, id, k, s);
    var heard := HeardNow(ms, e, id);
    if heard != [] {
      RunOne(s, heard[0]);
    }
    match e
    case Join(newId, f) => assert At(ServerStep(ms, e), id, k, s);
    case Network(n) => NetworkIsolated(ms, n, id, k, s);
    case Private(i, own) => assert At(ServerStep(ms, e), id, k, if i == id then Step(s, own).state else s);
    case Leave(other) => var l := WithoutOther(ms, other, id, k, s);
  }

  /**
   * Session isolation, for every server run. As long as it stays subscribed, a session ends in the
   * state it would have reached alone on the events that reached it; and the others have no say in
   * that but by throwing on a broadcast before its turn.
   */
  lemma {:induction false} Isolated(ms: seq<Member>, es: seq<ServerEvent>, id: nat, s: SessionState)
    requires Is(ms, id, s)
    requires forall e :: e in es ==> e != Leave(id) && !(e.Join? && e.newId == id)
    ensures Is(ServerRun(ms, es), id, Run(s, HeardAmong(ms, es, id)))
    decreases es
  {
    if es != [] {
      var now, ns := HeardNow(ms, es[0], id), ServerStep(ms, es[0]);
      assert es[0] in es && forall e :: e in es[1..] ==> e in es;
      StepIsolated(ms, es[0], id, s);
      Isolated(ns, es[1..], id, Run(s, now));
      RunConcat(s, now, HeardAmong(ns, es[1..], id));
    }
  }

  /** If all that is broadcast can be tested, a session hears what it would hear alone. */
  lemma {:induction false} ParsedReachesAll(ms: seq<Member>, es: seq<ServerEvent>, id: nat)
    requires forall e :: e in es && e.Network? ==> Parsed(e.event)
    ensures HeardAmong(ms, es, id) == HeardAlone(es, id)
    decreases es
  {
    if es != [] {
      assert es[0] in es && forall e :: e in es[1..] ==> e in es;
      ParsedIsHeard(ms, es[0], id);
      ParsedReachesAll(ServerStep(ms, es[0]), es[1..], id);
    }
  }

  lemma ParsedIsHeard(ms: seq<Member>, e: ServerEvent, id: nat)
    requires e.Network? ==> Parsed(e.event)
    ensures HeardNow(ms, e, id) == MeantFor(e, id)
  {
    if e.Network? {
      forall j | 0 <= j < |ms| ensures !Step(ms[j].session, e.event).threw {
        StepAnswers(ms[j].session, e.event);
      }
    }
  }

  /**
   * From its own join on, a session is what its filter and the events that reach it make it; these
   * are the events it would hear alone if every broadcast can be tested.
   */
  lemma IsolatedFromJoin(ms: seq<Member>, f: Filter, es: seq<ServerEvent>, id: nat)
    requires forall m :: m in ms ==> m.id != id
    requires forall e :: e in es ==> e != Leave(id) && !(e.Join? && e.newId == id)
    ensures var heard := HeardAmong(ServerStep(ms, Join(id, f)), es, id);
            && Is(ServerRun(ms, [Join(id, f)] + es), id, Run(Subscribe(f), heard))
            && ((forall e :: e in es && e.Network? ==> Parsed(e.event)) ==> heard == HeardAlone(es, id))
  {
    var ns := ServerStep(ms, Join(id, f));
    assert ([Join(id, f)] + es)[1..] == es;
    assert At(ns, id, |ms|, Subscribe(f));
    Isolated(ns, es, id, Subscribe(f));
    if forall e :: e in es && e.Network? ==> Parsed(e.event) {
      ParsedReachesAll(ns, es, id);
    }
  }
}
