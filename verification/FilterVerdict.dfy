/**
 * The verdict of the filter test, said of the data of a transaction alone: its hash, what its scripts
 * push at any position, and the outpoints it spends.
 */
module FilterVerdict {
  import opened Common
  import opened BloomFilters
  import opened Bip37

  // ----- the data -----

  ghost predicate Pushes(s: Option<Script>, d: Bytes) {
    s.Some? && exists k :: 0 <= k < |s.value.chunks| && s.value.chunks[k].opcodenum != 0
                           && s.value.chunks[k].buf == Some(d)
  }

  /** `d` is the hash and, behind it, the four bytes of the index, the lowest first. */
  predicate Encodes(d: Bytes, hash: Hash, n: int) {
    && |d| == |hash| + 4 && d[..|hash|] == hash
    && n == d[|hash|] as int + 0x100 * d[|hash| + 1] as int
            + 0x1_0000 * d[|hash| + 2] as int + 0x100_0000 * d[|hash| + 3] as int
  }

  ghost predicate OffersIn(i: Input, d: Bytes) {
    Pushes(i.script, d) || (i.prevTxId.Some? && Encodes(d, i.prevTxId.value, i.outputIndex))
  }

  /** The data of a transaction that the test may look up. */
  ghost predicate Offers(tx: Transaction, d: Bytes) {
    || d == tx.hash
    || (exists o :: o in tx.outputs && Pushes(o.script, d))
    || (exists i :: i in tx.inputs && OffersIn(i, d))
  }

  /** Every bit that the hash functions select for the datum is set. */
  predicate Holds(f: Filter, d: Bytes) {
    f.index(d) <= f.bits
  }

  ghost predicate HoldsPush(f: Filter, s: Option<Script>) {
    exists d :: Pushes(s, d) && Holds(f, d)
  }

  ghost predicate Matches(f: Filter, tx: Transaction) {
    exists d :: Offers(tx, d) && Holds(f, d)
  }

  /** The flags ask for an update: 1 always, 2 for a payment to a public key or a multisig, others never. */
  predicate AsksUpdate(nFlags: int, s: Script) {
    if nFlags == 1 then true else nFlags == 2 && (s.isPublicKeyOut || s.isMultisigOut)
  }

  /** The hash is not in the filter, and of the outputs the one at `j` is the first that is. */
  ghost predicate FirstHit(f: Filter, tx: Transaction, j: nat) {
    && !Holds(f, tx.hash) && j < |tx.outputs| && HoldsPush(f, tx.outputs[j].script)
    && forall i :: 0 <= i < j ==> tx.outputs[i].script.Some? && !HoldsPush(f, tx.outputs[i].script)
  }

  /** Neither the hash nor an output before the first one without a script is in the filter. */
  ghost predicate CutOff(f: Filter, tx: Transaction) {
    !Holds(f, tx.hash) && exists j :: 0 <= j < |tx.outputs| && tx.outputs[j].script.None?
                                      && forall i :: 0 <= i < j ==> !HoldsPush(f, tx.outputs[i].script)
  }

  // ----- the searches -----

  lemma PushesChunk(f: Filter, s: Script, d: Bytes)
    requires Pushes(Some(s), d) && Holds(f, d)
    ensures ContainsScript(f, Some(s))
  {
    var k :| 0 <= k < |s.chunks| && s.chunks[k].opcodenum != 0 && s.chunks[k].buf == Some(d);
    assert s.chunks[k] in s.chunks && ChunkHit(f, s.chunks[k]);
  }

  lemma ScriptExactly(f: Filter, s: Option<Script>)
    ensures ContainsScript(f, s) <==> HoldsPush(f, s)
  {
    if ContainsScript(f, s) {
      var c :| c in s.value.chunks && ChunkHit(f, c);
      assert Pushes(s, c.buf.value) && Holds(f, c.buf.value);
    }
    if d :| Pushes(s, d) && Holds(f, d) {
      PushesChunk(f, s.value, d);
    }
  }

  lemma OutpointEncodes(hash: Hash, n: uint32, d: Bytes)
    ensures Encodes(d, hash, n) <==> d == Outpoint(hash, n)
  {
    var e := Outpoint(hash, n);
    assert e[..|hash|] == hash && e[|hash|..] == LittleEndian32(n);
    if Encodes(d, hash, n) {
      assert d == hash + [d[|hash|], d[|hash| + 1], d[|hash| + 2], d[|hash| + 3]];
      DigitsAreUnique(LittleEndian32(n), d[|hash|..]);
    }
  }

  lemma DigitsAreUnique(a: Bytes, b: Bytes)
    requires |a| == |b| == 4
    requires a[0] as int + 0x100 * a[1] as int + 0x1_0000 * a[2] as int + 0x100_0000 * a[3] as int
             == b[0] as int + 0x100 * b[1] as int + 0x1_0000 * b[2] as int + 0x100_0000 * b[3] as int
    ensures a == b
  {
    SameDigits(a[0], a[1], a[2], a[3], b[0], b[1], b[2], b[3]);
    assert a == [a[0], a[1], a[2], a[3]] && b == [b[0], b[1], b[2], b[3]];
  }

  lemma SameDigits(a0: byte, a1: byte, a2: byte, a3: byte, b0: byte, b1: byte, b2: byte, b3: byte)
    requires a0 as int + 0x100 * a1 as int + 0x1_0000 * a2 as int + 0x100_0000 * a3 as int
             == b0 as int + 0x100 * b1 as int + 0x1_0000 * b2 as int + 0x100_0000 * b3 as int
    ensures a0 == b0 && a1 == b1 && a2 == b2 && a3 == b3
  {
    var x, y := a2 as int + 0x100 * a3 as int, b2 as int + 0x100 * b3 as int;
    LowDigit(a0, a1 as int + 0x100 * x, b0, b1 as int + 0x100 * y);
    LowDigit(a1, x, b1, y);
    LowDigit(a2, a3, b2, b3);
  }

  lemma LowDigit(d: byte, high: int, e: byte, other: int)
    requires d as int + 0x100 * high == e as int + 0x100 * other
    ensures d == e && high == other
  {
  }

  lemma InputExactly(f: Filter, i: Input)
    ensures InputHit(f, i) <==> exists d :: OffersIn(i, d) && Holds(f, d)
  {
    ScriptExactly(f, i.script);
    if i.prevTxId.Some? {
      var e := Outpoint(i.prevTxId.value, i.outputIndex);
      OutpointEncodes(i.prevTxId.value, i.outputIndex, e);
      assert Holds(f, e) ==> OffersIn(i, e);
    }
    if HoldsPush(f, i.script) {
      var d :| Pushes(i.script, d) && Holds(f, d);
      assert OffersIn(i, d);
    }
    if d :| OffersIn(i, d) && Holds(f, d) && !Pushes(i.script, d) {
      OutpointEncodes(i.prevTxId.value, i.outputIndex, d);
    }
  }

  lemma InputsExactly(f: Filter, tx: Transaction)
    ensures AnyInputHit(f, tx) <==> exists i, d :: i in tx.inputs && OffersIn(i, d) && Holds(f, d)
  {
    if AnyInputHit(f, tx) {
      var i :| i in tx.inputs && InputHit(f, i);
      InputExactly(f, i);
    }
    if i, d :| i in tx.inputs && OffersIn(i, d) && Holds(f, d) {
      InputExactly(f, i);
    }
  }

  /** The output at which the search stops, on the data. */
  lemma StopExactly(f: Filter, tx: Transaction)
    ensures var j := StopAt(f, tx.outputs);
            && (forall i :: 0 <= i < j ==> tx.outputs[i].script.Some? && !HoldsPush(f, tx.outputs[i].script))
            && (j < |tx.outputs| ==> tx.outputs[j].script.None? || HoldsPush(f, tx.outputs[j].script))
  {
    forall i | 0 <= i < |tx.outputs|
      ensures ContainsScript(f, tx.outputs[i].script) <==> HoldsPush(f, tx.outputs[i].script)
    {
      ScriptExactly(f, tx.outputs[i].script);
    }
  }

  // ----- the laws -----

  /** Whenever the test answers, it answers that the filter holds a datum of the transaction or that it does not. */
  lemma MatchExactly(f: Filter, tx: Transaction)
    requires Test(f, tx).0 != Throws
    ensures Test(f, tx).0 == Match <==> Matches(f, tx)
  {
    if Test(f, tx).0 == Match {
      MatchHasDatum(f, tx);
    }
    if Matches(f, tx) {
      var d :| Offers(tx, d) && Holds(f, d);
      DatumMatches(f, tx, d);
    }
  }

  lemma DatumMatches(f: Filter, tx: Transaction, d: Bytes)
    requires Test(f, tx).0 != Throws && Offers(tx, d) && Holds(f, d)
    ensures Test(f, tx).0 == Match
  {
    StopExactly(f, tx);
    InputsExactly(f, tx);
    if o :| o in tx.outputs && Pushes(o.script, d) {
      var i :| 0 <= i < |tx.outputs| && tx.outputs[i] == o;
      assert HoldsPush(f, tx.outputs[i].script);
    }
  }

  lemma MatchHasDatum(f: Filter, tx: Transaction)
    requires Test(f, tx).0 == Match
    ensures Matches(f, tx)
  {
    var j := StopAt(f, tx.outputs);
    StopExactly(f, tx);
    InputsExactly(f, tx);
    if Holds(f, tx.hash) {
      assert Offers(tx, tx.hash);
    } else if j < |tx.outputs| {
      var d :| Pushes(tx.outputs[j].script, d) && Holds(f, d);
      assert tx.outputs[j] in tx.outputs && Offers(tx, d);
    } else {
      var i, d :| i in tx.inputs && OffersIn(i, d) && Holds(f, d);
      assert Offers(tx, d);
    }
  }

  lemma FailsExactly(f: Filter, tx: Transaction)
    ensures Test(f, tx).0 == Throws <==> CutOff(f, tx)
  {
    var s := StopAt(f, tx.outputs);
    StopExactly(f, tx);
    if j: nat :| j < |tx.outputs| && tx.outputs[j].script.None?
                 && (forall i :: 0 <= i < j ==> !HoldsPush(f, tx.outputs[i].script))
    {
      assert s <= j;
      if s < j {
        assert !HoldsPush(f, tx.outputs[s].script);
      }
      assert tx.outputs[s].script.None?;
    }
  }

  /** The filter gains the outpoint of the first output it holds, if the flags ask for it, and nothing else. */
  lemma UpdateExactly(f: Filter, tx: Transaction, j: nat)
    requires FirstHit(f, tx, j)
    ensures tx.outputs[j].script.Some?
    ensures if AsksUpdate(f.nFlags, tx.outputs[j].script.value)
            then exists d :: Encodes(d, tx.hash, j) && Test(f, tx).1 == f.(bits := f.bits + f.index(d))
            else Test(f, tx).1 == f
  {
    StopExactly(f, tx);
    assert StopAt(f, tx.outputs) == j;
    OutpointEncodes(tx.hash, j, Outpoint(tx.hash, j));
  }

  lemma NoUpdateOtherwise(f: Filter, tx: Transaction)
    requires forall j :: !FirstHit(f, tx, j)
    ensures Test(f, tx).1 == f
  {
    var j := StopAt(f, tx.outputs);
    StopExactly(f, tx);
    assert !FirstHit(f, tx, j);
  }

  // ----- over several transactions -----

  /** The three answers, on the data. */
  lemma VerdictExactly(f: Filter, tx: Transaction)
    ensures Test(f, tx).0 == if CutOff(f, tx) then Throws else if Matches(f, tx) then Match else NoMatch
    ensures CutOff(f, tx) ==> Test(f, tx).1 == f
  {
    FailsExactly(f, tx);
    if !CutOff(f, tx) {
      MatchExactly(f, tx);
    } else {
      CutOffHasNoHit(f, tx);
      NoUpdateOtherwise(f, tx);
    }
  }

  lemma CutOffHasNoHit(f: Filter, tx: Transaction)
    requires CutOff(f, tx)
    ensures forall j :: !FirstHit(f, tx, j)
  {
  }

  /** What matches a filter still matches it when it has grown. */
  lemma MatchesStays(f: Filter, g: Filter, tx: Transaction)
    requires Within(f, g) && Matches(f, tx)
    ensures Matches(g, tx)
  {
    var d :| Offers(tx, d) && Holds(f, d);
    assert Holds(g, d);
  }

  /** Of these transactions, tested in turn, the one at `k` is found by the filter as it is by then. */
  ghost predicate FoundByNow(f: Filter, txs: seq<Transaction>, k: nat) {
    k < |txs| && Matches(TestAll(f, txs[..k]), txs[k])
  }

  ghost predicate Found(f: Filter, txs: seq<Transaction>, h: Hash) {
    exists k: nat :: FoundByNow(f, txs, k) && txs[k].hash == h
  }

  ghost predicate CutOffAt(f: Filter, txs: seq<Transaction>, k: nat) {
    k < |txs| && CutOff(TestAll(f, txs[..k]), txs[k])
  }

  lemma TestAllFirst(f: Filter, txs: seq<Transaction>, k: nat)
    requires 0 < k <= |txs|
    ensures TestAll(f, txs[..k]) == TestAll(Test(f, txs[0]).1, txs[1..][..k - 1])
  {
    assert txs[..k][0] == txs[0] && txs[..k][1..] == txs[1..][..k - 1];
  }

  lemma FoundFirst(f: Filter, txs: seq<Transaction>, h: Hash)
    requires txs != []
    ensures Found(f, txs, h) <==> (Matches(f, txs[0]) && txs[0].hash == h) || Found(Test(f, txs[0]).1, txs[1..], h)
  {
    var g, rest := Test(f, txs[0]).1, txs[1..];
    assert TestAll(f, txs[..0]) == f;
    if Matches(f, txs[0]) && txs[0].hash == h {
      assert FoundByNow(f, txs, 0);
    }
    if k: nat :| FoundByNow(f, txs, k) && txs[k].hash == h {
      if k > 0 {
        TestAllFirst(f, txs, k);
        assert FoundByNow(g, rest, k - 1);
      }
    }
    if k: nat :| FoundByNow(g, rest, k) && rest[k].hash == h {
      TestAllFirst(f, txs, k + 1);
      assert FoundByNow(f, txs, k + 1);
    }
  }

  lemma CutOffFirst(f: Filter, txs: seq<Transaction>)
    requires txs != []
    ensures (exists k: nat :: CutOffAt(f, txs, k))
            <==> CutOff(f, txs[0]) || exists k: nat :: CutOffAt(Test(f, txs[0]).1, txs[1..], k)
  {
    var g, rest := Test(f, txs[0]).1, txs[1..];
    assert TestAll(f, txs[..0]) == f;
    if CutOff(f, txs[0]) {
      assert CutOffAt(f, txs, 0);
    }
    if k: nat :| CutOffAt(f, txs, k) {
      if k > 0 {
        TestAllFirst(f, txs, k);
        assert CutOffAt(g, rest, k - 1);
      }
    }
    if k: nat :| CutOffAt(g, rest, k) {
      TestAllFirst(f, txs, k + 1);
      assert CutOffAt(f, txs, k + 1);
    }
  }

  /** Whatever matches the filter from the start is found. */
  lemma MatchingIsFound(f: Filter, txs: seq<Transaction>, k: nat)
    requires k < |txs| && Matches(f, txs[k])
    ensures Found(f, txs, txs[k].hash)
  {
    TestAllGrows(f, txs[..k]);
    MatchesStays(f, TestAll(f, txs[..k]), txs[k]);
    assert FoundByNow(f, txs, k);
  }
}
