/**
 * Transactions before proofs over runs of a session: with admissible blocks the order holds, and
 * admissibility is exactly what it takes, in both phases; a stream of distinct blocks is in order.
 */
module ProofOrderExact {
  import opened Common
  import opened BloomFilters
  import opened CacheValues
  import opened SessionValues
  import opened SessionInvariants
  import opened Alignment
  import opened ProofBacking
  import opened ProofOrder
  import opened BlockConflicts

  /** History is reported in its phase, and blocks are admissible when they arrive. */
  ghost predicate AdmissibleEvent(known: set<Hash>, s: SessionState, e: Event) {
    Mediated(s, e) && (e.NewBlock? ==> Admissible(known, s, e.block))
  }

  ghost predicate AdmissibleRun(known: set<Hash>, s: SessionState, es: seq<Event>)
    decreases es
  {
    es == [] || (AdmissibleEvent(known, s, es[0]) && AdmissibleRun(known, Step(s, es[0]).state, es[1..]))
  }

  lemma HeldIsCached(known: set<Hash>, s: SessionState)
    requires Held(known, s) && s.subscribed
    ensures OwedIsCached(known, s)
  {
    SafeIsCached(known, s);
  }

  /** What holds all along a run of admissible events, whose blocks are all among `all`. */
  ghost predicate InOrder(known: set<Hash>, s: SessionState, all: seq<Block>) {
    && Held(known, s) && Marked(s) && Inv(s, []) && ProofsFollow(known, s.sent)
    && forall x :: x in s.cache.blocks ==> x in all
  }

  ghost predicate Among(bs: seq<Block>, all: seq<Block>) {
    forall x :: x in bs ==> x in all
  }

  lemma StepHeld(known: set<Hash>, s: SessionState, e: Event)
    requires Held(known, s) && Phased(s) && AdmissibleEvent(known, s, e)
    requires e.NewBlock? ==> Coherent(s.cache.blocks + [e.block])
    ensures Held(known, Step(s, e).state)
  {
    if e.NewBlock? {
      BlockExactly(known, s, e.block);
    } else {
      QuietHeld(known, s, e);
    }
  }

  lemma StepInOrder(known: set<Hash>, s: SessionState, all: seq<Block>, e: Event)
    requires InOrder(known, s, all) && Coherent(all) && AdmissibleEvent(known, s, e)
    requires e.NewBlock? ==> e.block in all
    ensures InOrder(known, Step(s, e).state, all)
  {
    if s.subscribed {
      HeldIsCached(known, s);
    }
    StepFollows(known, s, e);
    StepHeld(known, s, e);
    StepMarked(s, e);
    StepKeeps(s, e, []);
    forall x | x in Step(s, e).state.cache.blocks ensures x in all {
      StepBlocks(s, e, x);
    }
  }

  lemma {:induction false} RunInOrder(known: set<Hash>, s: SessionState, all: seq<Block>, es: seq<Event>)
    requires InOrder(known, s, all) && AdmissibleRun(known, s, es) && Coherent(all) && Among(BlocksOf(es), all)
    ensures InOrder(known, Run(s, es), all)
    decreases es
  {
    if es != [] {
      var rest := BlocksOf(es[1..]);
      assert BlocksOf(es) == Delivered(es[0]) + rest;
      if es[0].NewBlock? {
        assert es[0].block in BlocksOf(es);
      }
      assert forall x :: x in rest ==> x in BlocksOf(es);
      StepInOrder(known, s, all, es[0]);
      RunInOrder(known, Step(s, es[0]).state, all, es[1..]);
    }
  }

  lemma InOrderAmongMore(known: set<Hash>, s: SessionState, some: seq<Block>, all: seq<Block>)
    requires InOrder(known, s, some) && Among(some, all)
    ensures InOrder(known, s, all)
  {
  }

  lemma StartsInOrder(known: set<Hash>, f: Filter, all: seq<Block>)
    ensures InOrder(known, Subscribe(f), all)
  {
    Starts(f, []);
  }

  lemma FromSubscription(known: set<Hash>, f: Filter, es: seq<Event>)
    requires Coherent(BlocksOf(es)) && AdmissibleRun(known, Subscribe(f), es)
    ensures InOrder(known, Run(Subscribe(f), es), BlocksOf(es))
  {
    StartsInOrder(known, f, BlocksOf(es));
    RunInOrder(known, Subscribe(f), BlocksOf(es), es);
  }

  /** Over every run of admissible events, no proof precedes its transactions. */
  lemma TransactionsBeforeProofs(known: set<Hash>, f: Filter, es: seq<Event>)
    requires Coherent(BlocksOf(es)) && AdmissibleRun(known, Subscribe(f), es)
    ensures ProofsFollow(known, Run(Subscribe(f), es).sent)
  {
    FromSubscription(known, f, es);
  }

  lemma {:induction false} QuietIsAdmissible(known: set<Hash>, s: SessionState, es: seq<Event>)
    requires Quiet(s, es)
    ensures BlocksOf(es) == [] && AdmissibleRun(known, s, es)
    decreases es
  {
    if es != [] {
      QuietIsAdmissible(known, Step(s, es[0]).state, es[1..]);
    }
  }

  lemma AdmissibleContinues(known: set<Hash>, s: SessionState, b: Block, later: seq<Event>, all: seq<Block>)
    requires InOrder(known, s, all) && Coherent(all) && b in all && Among(BlocksOf(later), all)
    requires Admissible(known, s, b) && AdmissibleRun(known, Step(s, NewBlock(b)).state, later)
    ensures ProofsFollow(known, Run(Step(s, NewBlock(b)).state, later).sent)
  {
    StepInOrder(known, s, all, NewBlock(b));
    RunInOrder(known, Step(s, NewBlock(b)).state, all, later);
  }

  lemma InadmissibleShows(known: set<Hash>, s: SessionState, b: Block, all: seq<Block>) returns (later: seq<Event>)
    requires InOrder(known, s, all) && Coherent(all) && b in all && !Admissible(known, s, b)
    ensures var t := Step(s, NewBlock(b)).state;
            Quiet(t, later) && !ProofsFollow(known, Run(t, later).sent)
  {
    BlockExactly(known, s, b);
    StepKeeps(s, NewBlock(b), []);
    later := UnsafeShows(known, Step(s, NewBlock(b)).state);
  }

  /** The exact condition at a state in order, `seen` being the blocks delivered so far. */
  lemma AdmissibleFrom(known: set<Hash>, s: SessionState, seen: seq<Block>, b: Block)
    requires InOrder(known, s, seen) && Coherent(seen + [b])
    ensures var t := Step(s, NewBlock(b)).state;
            Admissible(known, s, b)
            <==> forall later: seq<Event> ::
                   Coherent(seen + [b] + BlocksOf(later)) && AdmissibleRun(known, t, later) ==>
                     ProofsFollow(known, Run(t, later).sent)
  {
    var t := Step(s, NewBlock(b)).state;
    if Admissible(known, s, b) {
      forall later: seq<Event> | Coherent(seen + [b] + BlocksOf(later)) && AdmissibleRun(known, t, later)
        ensures ProofsFollow(known, Run(t, later).sent)
      {
        InOrderAmongMore(known, s, seen, seen + [b] + BlocksOf(later));
        AdmissibleContinues(known, s, b, later, seen + [b] + BlocksOf(later));
      }
    } else {
      InOrderAmongMore(known, s, seen, seen + [b]);
      var later := InadmissibleShows(known, s, b, seen + [b]);
      QuietIsAdmissible(known, t, later);
      assert seen + [b] + BlocksOf(later) == seen + [b];
    }
  }

  /**
   * In both phases, after admissible events: a block is admissible exactly if no continuation made
   * of admissible events ever sends a proof before its transactions.
   */
  lemma AdmissibleExactly(known: set<Hash>, f: Filter, es: seq<Event>, b: Block)
    requires Coherent(BlocksOf(es) + [b]) && AdmissibleRun(known, Subscribe(f), es)
    ensures var s := Run(Subscribe(f), es);
            var t := Step(s, NewBlock(b)).state;
            Admissible(known, s, b)
            <==> forall later: seq<Event> ::
                   Coherent(BlocksOf(es) + [b] + BlocksOf(later)) && AdmissibleRun(known, t, later) ==>
                     ProofsFollow(known, Run(t, later).sent)
  {
    assert forall x :: x in BlocksOf(es) ==> x in BlocksOf(es) + [b];
    FromSubscription(known, f, es);
    AdmissibleFrom(known, Run(Subscribe(f), es), BlocksOf(es), b);
  }

  lemma NothingOwed(known: set<Hash>, s: SessionState, b: Block)
    requires Held(known, s) && forall h :: !Pending(known, s, h)
    ensures Admissible(known, s, b)
  {
    if s.subscribed {
      HeldIsCached(known, s);
      forall i: nat, h ensures !Owes(known, s, i, h) {
        assert Owes(known, s, i, h) ==> Pending(known, s, h);
      }
    }
  }

  /** After admissible events, with everything cached already sent, any block is admissible, re-deliveries included. */
  lemma NothingPendingAdmitsAll(known: set<Hash>, f: Filter, es: seq<Event>, b: Block)
    requires Coherent(BlocksOf(es)) && AdmissibleRun(known, Subscribe(f), es)
    requires forall h :: !Pending(known, Run(Subscribe(f), es), h)
    ensures Admissible(known, Run(Subscribe(f), es), b)
  {
    FromSubscription(known, f, es);
    NothingOwed(known, Run(Subscribe(f), es), b);
  }

  // ----- unrelated blocks -----

  /** Backed proofs owe nothing that is not cached, so every event keeps the order. */
  lemma {:induction false} BackedRunFollows(known: set<Hash>, s: SessionState, es: seq<Event>)
    requires CacheSound(s.cache) && Marked(s) && Inv(s, []) && ProofsFollow(known, s.sent) && UnrelatedRun(s, es)
    ensures ProofsFollow(known, Run(s, es).sent)
    decreases es
  {
    if es != [] {
      StepFollows(known, s, es[0]);
      StepBacked(s, es[0]);
      StepMarked(s, es[0]);
      StepKeeps(s, es[0], []);
      BackedRunFollows(known, Step(s, es[0]).state, es[1..]);
    }
  }

  /** Over every run whose blocks are unrelated to what is cached when they arrive, the order holds. */
  lemma UnrelatedRunIsOrdered(f: Filter, es: seq<Event>)
    requires UnrelatedRun(Subscribe(f), es)
    ensures ProofsFollow({}, Run(Subscribe(f), es).sent)
  {
    Starts(f, []);
    BackedRunFollows({}, Subscribe(f), es);
  }

  /**
   * If the block stream never repeats a hash and never puts one transaction in two blocks, then no
   * proof the session sends precedes a transaction it proves.
   */
  lemma DistinctStreamIsOrdered(f: Filter, es: seq<Event>)
    requires DistinctBlocks(BlocksOf(es))
    ensures ProofsFollow({}, Run(Subscribe(f), es).sent)
  {
    DistinctStreamIsUnrelated(f, es);
    UnrelatedRunIsOrdered(f, es);
  }
}
