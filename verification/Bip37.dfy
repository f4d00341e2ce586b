/**
 * The short-circuiting test against the full-scan form of BIP 37 matching, in which every output
 * is examined and every matching output updates the filter.
 */
module Bip37 {
  import opened Common
  import opened BloomFilters

  /** Scans the outputs from `i` on, inserting as it goes. */
  function ScanOutputs(f: Filter, tx: Transaction, i: nat): (bool, Filter)
    requires i <= |tx.outputs|
    decreases |tx.outputs| - i
  {
    if i == |tx.outputs| then (false, f)
    else if ContainsScript(f, tx.outputs[i].script) then
      (true, ScanOutputs(UpdateFor(f, tx, i), tx, i + 1).1)
    else ScanOutputs(f, tx, i + 1)
  }

  /** The full scan: outputs are examined (and the filter updated) whether or not the hash matched. */
  function FullScan(f: Filter, tx: Transaction): (bool, Filter) {
    var (hit, f') := ScanOutputs(f, tx, 0);
    (HashHit(f, tx) || hit || AnyInputHit(f', tx), f')
  }

  ghost predicate Within(f: Filter, g: Filter) {
    f.bits <= g.bits && f.nFlags == g.nFlags && f.index == g.index
  }

  predicate AllScriptsPresent(tx: Transaction) {
    forall o :: o in tx.outputs ==> o.script.Some?
  }

  lemma {:induction false} ScanGrows(f: Filter, tx: Transaction, i: nat)
    requires i <= |tx.outputs|
    ensures Within(f, ScanOutputs(f, tx, i).1)
    ensures !ScanOutputs(f, tx, i).0 ==> ScanOutputs(f, tx, i).1 == f
    decreases |tx.outputs| - i
  {
    if i < |tx.outputs| {
      if ContainsScript(f, tx.outputs[i].script) {
        ScanGrows(UpdateFor(f, tx, i), tx, i + 1);
      } else {
        ScanGrows(f, tx, i + 1);
      }
    }
  }

  lemma ContainsScriptMono(f: Filter, g: Filter, s: Option<Script>)
    requires Within(f, g)
    ensures ContainsScript(f, s) ==> ContainsScript(g, s)
  {
    if ContainsScript(f, s) {
      var c :| c in s.value.chunks && ChunkHit(f, c);
      assert ChunkHit(g, c);
    }
  }

  lemma AnyInputHitMono(f: Filter, g: Filter, tx: Transaction)
    requires Within(f, g)
    ensures AnyInputHit(f, tx) ==> AnyInputHit(g, tx)
  {
    if AnyInputHit(f, tx) {
      var i :| i in tx.inputs && InputHit(f, i);
      ContainsScriptMono(f, g, i.script);
      assert InputHit(g, i);
    }
  }

  /** A scan that starts at or before an output the smaller filter hits also hits, and makes its update. */
  lemma {:induction false} ScanReaches(f: Filter, g: Filter, tx: Transaction, i: nat, j: nat)
    requires Within(f, g) && i <= j < |tx.outputs| && ContainsScript(f, tx.outputs[j].script)
    ensures ScanOutputs(g, tx, i).0 && Within(UpdateFor(f, tx, j), ScanOutputs(g, tx, i).1)
    decreases j - i
  {
    ContainsScriptMono(f, g, tx.outputs[j].script);
    var hit := ContainsScript(g, tx.outputs[i].script);
    var g' := if hit then UpdateFor(g, tx, i) else g;
    if i == j {
      ScanGrows(g', tx, i + 1);
    } else {
      ScanReaches(f, g', tx, i + 1, j);
    }
  }

  /** Outputs a filter hits nowhere leave the scan without a hit. */
  lemma {:induction false} ScanMisses(f: Filter, tx: Transaction, i: nat)
    requires i <= |tx.outputs|
    requires forall k :: i <= k < |tx.outputs| ==> !ContainsScript(f, tx.outputs[k].script)
    ensures ScanOutputs(f, tx, i) == (false, f)
    decreases |tx.outputs| - i
  {
    if i < |tx.outputs| {
      ScanMisses(f, tx, i + 1);
    }
  }

  /** From the same filter the test and the full scan agree whenever the test answers. */
  lemma SameVerdict(f: Filter, tx: Transaction)
    ensures Test(f, tx).0 != Throws ==> (Test(f, tx).0 == Match <==> FullScan(f, tx).0)
  {
    var j := StopAt(f, tx.outputs);
    if j == |tx.outputs| {
      ScanMisses(f, tx, 0);
    } else if tx.outputs[j].script.Some? {
      ScanReaches(f, f, tx, 0, j);
    }
  }

  /** The test throws exactly when neither the hash nor an earlier output hits before an absent script. */
  lemma ThrowsExactly(f: Filter, tx: Transaction)
    ensures Test(f, tx).0 == Throws <==>
            !HashHit(f, tx)
            && exists j :: 0 <= j < |tx.outputs| && tx.outputs[j].script.None?
                        && forall i :: 0 <= i < j ==> !ContainsScript(f, tx.outputs[i].script)
    ensures Test(f, tx).0 == Throws ==> Test(f, tx).1 == f && !AllScriptsPresent(tx)
  {
    var s := StopAt(f, tx.outputs);
    if Test(f, tx).0 == Throws {
      assert tx.outputs[s].script.None?;
    }
    if j: nat :| j < |tx.outputs| && tx.outputs[j].script.None?
                 && (forall i :: 0 <= i < j ==> !ContainsScript(f, tx.outputs[i].script))
    {
      assert s <= j;
      assert s < j ==> tx.outputs[s].script.None?;
    }
  }

  /** One step of the simulation: a smaller filter stays smaller and matches no more. */
  lemma Simulates(f: Filter, g: Filter, tx: Transaction)
    requires Within(f, g)
    ensures Within(Test(f, tx).1, FullScan(g, tx).1)
    ensures Test(f, tx).0 == Match ==> FullScan(g, tx).0
  {
    ScanGrows(g, tx, 0);
    AnyInputHitMono(f, FullScan(g, tx).1, tx);
    var j := StopAt(f, tx.outputs);
    if !HashHit(f, tx) && j < |tx.outputs| && tx.outputs[j].script.Some? {
      ScanReaches(f, g, tx, 0, j);
    }
  }

  /** Output `j` would make no new insertion into `f`: it misses, needs no update, or is already in. */
  predicate AddsNothing(f: Filter, tx: Transaction, j: uint32)
    requires j < |tx.outputs|
  {
    ContainsScript(f, tx.outputs[j].script) && NeedsUpdate(f.nFlags, tx.outputs[j].script.value)
    ==> f.Contains(Outpoint(tx.hash, j))
  }

  lemma {:induction false} ScanFixed(f: Filter, tx: Transaction, i: nat)
    requires i <= |tx.outputs|
    ensures ScanOutputs(f, tx, i).1 == f <==> forall j: uint32 :: i <= j < |tx.outputs| ==> AddsNothing(f, tx, j)
    decreases |tx.outputs| - i
  {
    if i < |tx.outputs| {
      ScanFixed(f, tx, i + 1);
      if AddsNothing(f, tx, i) {
        assert f.bits + f.index(Outpoint(tx.hash, i)) == f.bits || !ContainsScript(f, tx.outputs[i].script)
               || !NeedsUpdate(f.nFlags, tx.outputs[i].script.value);
      } else {
        ScanGrows(UpdateFor(f, tx, i), tx, i + 1);
      }
    }
  }

  /** Outputs before the first hit leave the scan's filter alone. */
  lemma {:induction false} ScanSkips(f: Filter, tx: Transaction, i: nat, j: nat)
    requires i <= j <= |tx.outputs|
    requires forall k :: i <= k < j ==> !ContainsScript(f, tx.outputs[k].script)
    ensures ScanOutputs(f, tx, i) == ScanOutputs(f, tx, j)
    decreases j - i
  {
    if i < j {
      ScanSkips(f, tx, i + 1, j);
    }
  }

  /** The first output the test does not look at once it has a match. */
  function FirstUnscanned(f: Filter, tx: Transaction): nat {
    if HashHit(f, tx) then 0 else StopAt(f, tx.outputs) + 1
  }

  /**
   * Stopping early is not the full scan: the two filters agree after an answer exactly when no
   * output the test left unexamined would have added anything.
   */
  lemma FiltersAgreeExactly(f: Filter, tx: Transaction)
    requires Test(f, tx).0 != Throws
    ensures Test(f, tx).1 == FullScan(f, tx).1 <==>
            forall j: uint32 :: FirstUnscanned(f, tx) <= j < |tx.outputs| ==> AddsNothing(Test(f, tx).1, tx, j)
  {
    var s := StopAt(f, tx.outputs);
    if HashHit(f, tx) {
      ScanFixed(f, tx, 0);
    } else {
      ScanSkips(f, tx, 0, s);
      if s < |tx.outputs| {
        ScanFixed(UpdateFor(f, tx, s), tx, s + 1);
      }
    }
  }

  function TestAll(f: Filter, txs: seq<Transaction>): Filter
    decreases txs
  {
    if txs == [] then f else TestAll(Test(f, txs[0]).1, txs[1..])
  }

  function FullScanAll(f: Filter, txs: seq<Transaction>): Filter
    decreases txs
  {
    if txs == [] then f else FullScanAll(FullScan(f, txs[0]).1, txs[1..])
  }

  /**
   * Over any sequence of transactions, from the same starting filter, the filter stays within the
   * full scan's, so whatever the test matches next the full scan matches too.
   */
  lemma {:induction false} SimulatesAll(f: Filter, g: Filter, txs: seq<Transaction>, next: Transaction)
    requires Within(f, g)
    ensures Within(TestAll(f, txs), FullScanAll(g, txs))
    ensures Test(TestAll(f, txs), next).0 == Match ==> FullScan(FullScanAll(g, txs), next).0
    decreases txs
  {
    if txs == [] {
      Simulates(f, g, next);
    } else {
      Simulates(f, g, txs[0]);
      SimulatesAll(Test(f, txs[0]).1, FullScan(g, txs[0]).1, txs[1..], next);
    }
  }

  lemma {:induction false} TestAllGrows(f: Filter, txs: seq<Transaction>)
    ensures Within(f, TestAll(f, txs))
    decreases txs
  {
    if txs != [] {
      TestAllGrows(Test(f, txs[0]).1, txs[1..]);
    }
  }

  /**
   * Spend-chain closure. When the outputs of `tx` produce the match and the flags call for an
   * update, then after any intervening tests a transaction spending that output is not rejected,
   * and is matched if all its output scripts are present.
   */
  lemma SpendChainCloses(f: Filter, tx: Transaction, between: seq<Transaction>, spend: Transaction, i: Input)
    requires !HashHit(f, tx)
    requires var j := StopAt(f, tx.outputs);
             j < |tx.outputs| && tx.outputs[j].script.Some? && NeedsUpdate(f.nFlags, tx.outputs[j].script.value)
             && i in spend.inputs && i.prevTxId == Some(tx.hash) && i.outputIndex == j
    ensures var v := Test(TestAll(Test(f, tx).1, between), spend).0;
            v != NoMatch && (AllScriptsPresent(spend) ==> v == Match)
  {
    var f1 := Test(f, tx).1;
    var f2 := TestAll(f1, between);
    TestAllGrows(f1, between);
    assert f1.Contains(Outpoint(tx.hash, i.outputIndex));
    assert f2.Contains(Outpoint(tx.hash, i.outputIndex));
    assert InputHit(f2, i);
    ThrowsExactly(f2, spend);
  }

  /**
   * Over several transactions the short-circuit can lose a match: with two matching outputs only
   * the first outpoint is inserted, and a spend of the second goes unnoticed.
   */
  lemma StoppingEarlyCanMiss()
    ensures exists f: Filter, tx: Transaction, spend: Transaction ::
              && |tx.hash| == |spend.hash| == 32 && tx.hash != spend.hash
              && spend.inputs == [Input(Some(tx.hash), 1, None)] && |tx.outputs| == 2
              && Test(Test(f, tx).1, spend).0 == NoMatch && FullScan(FullScan(f, tx).1, spend).0
  {
    var tx, spend := Transaction(HASH, [], [PAYS, PAYS]), Transaction(SPEND_HASH, [Input(Some(HASH), 1, None)], []);
    assert HASH[0] != SPEND_HASH[0];
    FirstOnly(tx, spend);
    BothSeen(tx, spend);
  }

  // The data of that example.

  const HASH := HashOf(5)
  const SPEND_HASH := HashOf(6)
  const PAYS := Output(Some(Script([Chunk(1, Some([7]))], false, false)))

  /** Short data share position 0; longer data are told apart by their fourth byte from the end. */
  const SPREAD: Bytes -> set<nat> := (d: Bytes) => if |d| < 4 then {0} else {1 + d[|d| - 4] as int}
  const SMALL := Filter({0}, BLOOM_UPDATE_ALL, SPREAD)

  /** The test inserts the first outpoint alone and misses the spend of the second. */
  lemma FirstOnly(tx: Transaction, spend: Transaction)
    requires tx == Transaction(HASH, [], [PAYS, PAYS])
    requires spend == Transaction(SPEND_HASH, [Input(Some(HASH), 1, None)], [])
    ensures Test(Test(SMALL, tx).1, spend).0 == NoMatch
  {
    assert ChunkHit(SMALL, PAYS.script.value.chunks[0]);
    assert StopAt(SMALL, tx.outputs) == 0;
    var f1 := Test(SMALL, tx).1;
    assert f1.bits == {0, 1};
    assert !f1.Contains(Outpoint(HASH, 1));
    assert forall i :: i in spend.inputs ==> !InputHit(f1, i);
  }

  /** The full scan inserts both and sees it. */
  lemma BothSeen(tx: Transaction, spend: Transaction)
    requires tx == Transaction(HASH, [], [PAYS, PAYS])
    requires spend == Transaction(SPEND_HASH, [Input(Some(HASH), 1, None)], [])
    ensures FullScan(FullScan(SMALL, tx).1, spend).0
  {
    var g1 := UpdateFor(SMALL, tx, 0);
    var g2 := UpdateFor(g1, tx, 1);
    assert ChunkHit(SMALL, PAYS.script.value.chunks[0]) && ChunkHit(g1, PAYS.script.value.chunks[0]);
    assert ScanOutputs(g2, tx, 2) == (false, g2);
    assert ScanOutputs(g1, tx, 1).1 == g2;
    assert FullScan(SMALL, tx).1 == g2;
    assert g2.Contains(Outpoint(HASH, 1));
    assert ScanOutputs(g2, spend, 0) == (false, g2);
    assert InputHit(g2, spend.inputs[0]);
  }
}
