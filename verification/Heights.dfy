/** Waiting for a block height: one listener that updates the height, and one more per waiter. */
module Heights {
  import opened Common

  /** The handlers attached to the block event, in the order they were added. */
  datatype Listener = Updater | Waiter(id: nat, height: int)

  /** `resolved` lists the waiters whose promises have been resolved, in order. */
  datatype Tracker = Tracker(currentHeight: int, listeners: seq<Listener>, resolved: seq<nat>)

  const START := Tracker(0, [Updater], [])

  function WaitFor(t: Tracker, id: nat, height: int): Tracker {
    if t.currentHeight >= height then t.(resolved := t.resolved + [id])
    else t.(listeners := t.listeners + [Waiter(id, height)])
  }

  function Call(t: Tracker, l: Listener, height: int): Tracker {
    match l
    case Updater => t.(currentHeight := height)
    case Waiter(id, h) =>
      if t.currentHeight >= h
      then t.(listeners := RemoveAt(t.listeners, LastIndex(t.listeners, l)), resolved := t.resolved + [id])
      else t
  }

  /** The emitter calls the handlers attached when the event was emitted, in order. */
  function Emit(t: Tracker, ls: seq<Listener>, height: int): Tracker
    decreases ls
  {
    if ls == [] then t else Emit(Call(t, ls[0], height), ls[1..], height)
  }

  function NewBlock(t: Tracker, height: int): Tracker {
    Emit(t, t.listeners, height)
  }

  // ----- the tracker object -----

  class HeightTracker {
    var currentHeight: int
    var listeners: seq<Listener>
    var resolved: seq<nat>

    constructor ()
      ensures Value() == START
    {
      currentHeight, listeners, resolved := 0, [Updater], [];
    }

    ghost function Value(): Tracker
      reads this
    {
      Tracker(currentHeight, listeners, resolved)
    }

    method WaitForHeight(id: nat, height: int) returns (now: bool)
      modifies this
      ensures Value() == WaitFor(old(Value()), id, height)
      ensures now <==> old(currentHeight) >= height
    {
      if currentHeight >= height {
        resolved := resolved + [id];
        return true;
      }
      listeners := listeners + [Waiter(id, height)];
      return false;
    }

    method OnNewBlock(height: int)
      modifies this
      ensures Value() == NewBlock(old(Value()), height)
    {
      var attached := listeners;
      for i := 0 to |attached|
        invariant Emit(old(Value()), attached, height) == Emit(Value(), attached[i..], height)
      {
        assert attached[i..][1..] == attached[i + 1..];
        match attached[i]
        case Updater => currentHeight := height;
        case Waiter(id, h) =>
          if currentHeight >= h {
            listeners := RemoveAt(listeners, LastIndex(listeners, attached[i]));
            resolved := resolved + [id];
          }
      }
    }
  }

  // ----- what a block does, in one step -----

  function Due(ls: seq<Listener>, height: int): seq<nat> {
    if ls == [] then []
    else (if ls[0].Waiter? && ls[0].height <= height then [ls[0].id] else []) + Due(ls[1..], height)
  }

  function StillWaiting(ls: seq<Listener>, height: int): seq<Listener> {
    if ls == [] then []
    else (if ls[0].Waiter? && ls[0].height <= height then [] else [ls[0]]) + StillWaiting(ls[1..], height)
  }

  ghost predicate Waiters(ls: seq<Listener>) {
    && (forall i :: 0 <= i < |ls| ==> ls[i].Waiter?)
    && (forall i, j :: 0 <= i < j < |ls| ==> ls[i].id != ls[j].id)
  }

  lemma WaitersTail(ls: seq<Listener>)
    requires Waiters(ls) && ls != []
    ensures ls[0].Waiter? && ls[0] !in ls[1..] && Waiters(ls[1..])
  {
  }

  lemma CallDue(t: Tracker, front: seq<Listener>, rest: seq<Listener>, height: int)
    requires rest != [] && rest[0].Waiter? && rest[0] !in rest[1..]
    requires t.listeners == front + rest && rest[0].height <= t.currentHeight
    ensures Call(t, rest[0], height) == t.(listeners := front + rest[1..], resolved := t.resolved + [rest[0].id])
  {
    assert t.listeners[|front| + 1..] == rest[1..];
    LastAt(t.listeners, |front|);
    RemoveHead(front, rest);
  }

  /** Where a run over the remaining handlers ends. */
  function AfterWaiters(t: Tracker, front: seq<Listener>, rest: seq<Listener>): Tracker {
    t.(listeners := front + StillWaiting(rest, t.currentHeight), resolved := t.resolved + Due(rest, t.currentHeight))
  }

  lemma AfterStep(t: Tracker, front: seq<Listener>, rest: seq<Listener>)
    requires rest != [] && rest[0].Waiter?
    ensures AfterWaiters(t, front, rest)
            == if rest[0].height <= t.currentHeight
               then AfterWaiters(t.(resolved := t.resolved + [rest[0].id]), front, rest[1..])
               else AfterWaiters(t, front + [rest[0]], rest[1..])
  {
    var still, due := StillWaiting(rest[1..], t.currentHeight), Due(rest[1..], t.currentHeight);
    assert t.resolved + [rest[0].id] + due == t.resolved + ([rest[0].id] + due);
    assert front + [rest[0]] + still == front + ([rest[0]] + still);
    assert [] + still == still && [] + due == due;
  }

  lemma {:induction false} EmitToWaiters(t: Tracker, front: seq<Listener>, rest: seq<Listener>, height: int)
    requires t.listeners == front + rest && Waiters(rest)
    ensures Emit(t, rest, height) == AfterWaiters(t, front, rest)
    decreases rest
  {
    if rest == [] {
      assert front + [] == front && t.resolved + [] == t.resolved;
    } else {
      WaitersTail(rest);
      AfterStep(t, front, rest);
      if rest[0].height <= t.currentHeight {
        CallDue(t, front, rest, height);
        EmitToWaiters(Call(t, rest[0], height), front, rest[1..], height);
      } else {
        assert front + rest == (front + [rest[0]]) + rest[1..];
        EmitToWaiters(t, front + [rest[0]], rest[1..], height);
      }
    }
  }

  /** The updater comes first, so every waiter sees the new height: exactly the due ones resolve. */
  lemma BlockResolvesDue(t: Tracker, ws: seq<Listener>, height: int)
    requires t.listeners == [Updater] + ws && Waiters(ws)
    ensures NewBlock(t, height)
            == Tracker(height, [Updater] + StillWaiting(ws, height), t.resolved + Due(ws, height))
  {
    assert t.listeners[1..] == ws;
    EmitToWaiters(t.(currentHeight := height), [Updater], ws, height);
  }

  /** Had the updater been attached after a waiter, that waiter would miss the block it waits for. */
  lemma UpdaterMustComeFirst(id: nat, height: int)
    requires height > 0
    ensures NewBlock(Tracker(0, [Waiter(id, height), Updater], []), height).resolved == []
  {
    var ls := [Waiter(id, height), Updater];
    var t := Tracker(0, ls, []);
    assert ls[1..] == [Updater] && [Updater][1..] == [];
    assert Emit(t, [Updater], height) == Call(t, Updater, height);
  }

  // ----- every run -----

  datatype Op = Wait(id: nat, height: int) | Block(height: int)

  function Apply(t: Tracker, op: Op): Tracker {
    match op
    case Wait(id, h) => WaitFor(t, id, h)
    case Block(h) => NewBlock(t, h)
  }

  function ApplyAll(t: Tracker, ops: seq<Op>): Tracker
    decreases ops
  {
    if ops == [] then t else ApplyAll(Apply(t, ops[0]), ops[1..])
  }

  /** Waiters behind the updater, each waiting for a height not yet reached, none of them resolved. */
  ghost predicate Settled(t: Tracker) {
    && |t.listeners| > 0 && t.listeners[0] == Updater && Waiters(t.listeners[1..])
    && (forall w :: w in t.listeners[1..] ==> t.currentHeight < w.height && w.id !in t.resolved)
    && NoRepeats(t.resolved)
  }

  /** The id has not been used for a waiter before. */
  ghost predicate Unused(t: Tracker, id: nat) {
    id !in t.resolved && forall w :: w in t.listeners && w.Waiter? ==> w.id != id
  }

  ghost predicate FreshIds(t: Tracker, ops: seq<Op>)
    decreases ops
  {
    ops == [] || ((ops[0].Wait? ==> Unused(t, ops[0].id)) && FreshIds(Apply(t, ops[0]), ops[1..]))
  }

  lemma {:induction false} StillWaitingMembers(ls: seq<Listener>, height: int, l: Listener)
    ensures l in StillWaiting(ls, height) <==> l in ls && !(l.Waiter? && l.height <= height)
  {
    if ls != [] {
      StillWaitingMembers(ls[1..], height, l);
      assert ls == [ls[0]] + ls[1..];
    }
  }

  lemma {:induction false} DueMembers(ls: seq<Listener>, height: int, id: nat)
    ensures id in Due(ls, height) <==> exists l :: l in ls && l.Waiter? && l.id == id && l.height <= height
  {
    if ls != [] {
      DueMembers(ls[1..], height, id);
      assert ls == [ls[0]] + ls[1..];
      if ls[0].Waiter? && ls[0].id == id && ls[0].height <= height {
        assert ls[0] in ls;
      }
    }
  }

  lemma {:induction false} SplitDistinct(ls: seq<Listener>, height: int)
    requires Waiters(ls)
    ensures Waiters(StillWaiting(ls, height)) && NoRepeats(Due(ls, height))
  {
    if ls != [] {
      var rest := ls[1..];
      SplitDistinct(rest, height);
      forall l | l in rest ensures l.id != ls[0].id {
        var j :| 0 <= j < |rest| && rest[j] == l;
        assert ls[j + 1] == l;
      }
      forall l | l in StillWaiting(rest, height) ensures l.id != ls[0].id {
        StillWaitingMembers(rest, height, l);
      }
      forall id | id in Due(rest, height) ensures id != ls[0].id {
        DueMembers(rest, height, id);
      }
      NoRepeatsConcat(if ls[0].height <= height then [ls[0].id] else [], Due(rest, height));
    }
  }

  lemma BlockSettled(t: Tracker, ws: seq<Listener>, height: int)
    requires Settled(t) && t.listeners == [Updater] + ws
    ensures Settled(NewBlock(t, height))
  {
    var u := NewBlock(t, height);
    assert ws == t.listeners[1..];
    BlockResolvesDue(t, ws, height);
    SplitDistinct(ws, height);
    assert u.listeners[1..] == StillWaiting(ws, height);
    forall id | id in Due(ws, height) ensures id !in t.resolved {
      DueMembers(ws, height, id);
    }
    NoRepeatsConcat(t.resolved, Due(ws, height));
    forall w | w in StillWaiting(ws, height) ensures height < w.height && w.id !in u.resolved {
      StillWaitingMembers(ws, height, w);
      DueMembers(ws, height, w.id);
      SameIdSameWaiter(ws, w);
    }
  }

  lemma SameIdSameWaiter(ws: seq<Listener>, w: Listener)
    requires Waiters(ws) && w in ws
    ensures forall l :: l in ws && l.id == w.id ==> l == w
  {
  }

  lemma ApplySettled(t: Tracker, op: Op)
    requires Settled(t) && (op.Wait? ==> Unused(t, op.id))
    ensures Settled(Apply(t, op))
  {
    var ws := t.listeners[1..];
    assert t.listeners == [Updater] + ws;
    match op
    case Wait(id, h) =>
      if t.currentHeight < h {
        assert Apply(t, op).listeners[1..] == ws + [Waiter(id, h)];
      }
    case Block(h) => BlockSettled(t, ws, h);
  }

  /** What one operation does to an attached waiter: it resolves exactly when a block reaches its height. */
  lemma ApplyWaiter(t: Tracker, op: Op, w: Listener)
    requires Settled(t) && (op.Wait? ==> Unused(t, op.id)) && w.Waiter? && w in t.listeners
    ensures op.Block? && w.height <= op.height ==> w !in Apply(t, op).listeners && w.id in Apply(t, op).resolved
    ensures !(op.Block? && w.height <= op.height) ==> w in Apply(t, op).listeners
    ensures t.resolved <= Apply(t, op).resolved
  {
    if op.Block? {
      var ws := t.listeners[1..];
      assert t.listeners == [Updater] + ws;
      BlockResolvesDue(t, ws, op.height);
      StillWaitingMembers(ws, op.height, w);
      DueMembers(ws, op.height, w.id);
    }
  }

  lemma {:induction false} ResolvedStays(t: Tracker, ops: seq<Op>, id: nat)
    requires Settled(t) && FreshIds(t, ops) && id in t.resolved
    ensures id in ApplyAll(t, ops).resolved && Settled(ApplyAll(t, ops))
    decreases ops
  {
    if ops != [] {
      ApplySettled(t, ops[0]);
      if ops[0].Block? {
        assert t.listeners == [Updater] + t.listeners[1..];
        BlockResolvesDue(t, t.listeners[1..], ops[0].height);
      }
      ResolvedStays(Apply(t, ops[0]), ops[1..], id);
    }
  }

  /**
   * A waiter that had to be attached is resolved at the end of a run exactly if some block of the
   * run reached its height, and attached exactly if none did; applied to every prefix, it resolves
   * once and at the first such block.
   */
  lemma {:induction false} ResolvesAtFirstReach(t: Tracker, ops: seq<Op>, w: Listener)
    requires Settled(t) && FreshIds(t, ops) && w.Waiter? && w in t.listeners
    ensures var reached := exists k :: 0 <= k < |ops| && ops[k].Block? && w.height <= ops[k].height;
            && (w.id in ApplyAll(t, ops).resolved <==> reached)
            && (w in ApplyAll(t, ops).listeners <==> !reached)
            && Settled(ApplyAll(t, ops))
    decreases ops
  {
    if ops == [] {
      assert w in t.listeners[1..];
    } else {
      var u := Apply(t, ops[0]);
      ApplySettled(t, ops[0]);
      ApplyWaiter(t, ops[0], w);
      if ops[0].Block? && w.height <= ops[0].height {
        ResolvedStays(u, ops[1..], w.id);
        var v := ApplyAll(u, ops[1..]);
        assert v.listeners == [Updater] + v.listeners[1..];
      } else {
        ResolvesAtFirstReach(u, ops[1..], w);
        assert forall k :: 0 < k < |ops| ==> ops[k] == ops[1..][k - 1];
        assert forall k :: 0 <= k < |ops[1..]| ==> ops[1..][k] == ops[k + 1];
      }
    }
  }

  /** From the moment of registration: at once if the height is already reached, else as above. */
  lemma WaitResolves(t: Tracker, id: nat, height: int, ops: seq<Op>)
    requires Settled(t) && FreshIds(t, [Wait(id, height)] + ops)
    ensures id in ApplyAll(t, [Wait(id, height)] + ops).resolved
            <==> t.currentHeight >= height || exists k :: 0 <= k < |ops| && ops[k].Block? && height <= ops[k].height
    ensures Settled(ApplyAll(t, [Wait(id, height)] + ops))
  {
    var op := Wait(id, height);
    assert ([op] + ops)[0] == op && ([op] + ops)[1..] == ops;
    ApplySettled(t, op);
    var u := Apply(t, op);
    if t.currentHeight >= height {
      ResolvedStays(u, ops, id);
    } else {
      assert u.listeners[|t.listeners|] == Waiter(id, height);
      ResolvesAtFirstReach(u, ops, Waiter(id, height));
    }
  }
}
