/** Transactions as the filter sees them, the Bloom filter, and the filter test. */
module BloomFilters {
  import opened Common

  /** One script operation; `buf` is the data it pushes, if any. */
  datatype Chunk = Chunk(opcodenum: int, buf: Option<Bytes>)

  datatype Script = Script(chunks: seq<Chunk>, isPublicKeyOut: bool, isMultisigOut: bool)

  type uint32 = n: int | 0 <= n < 0x1_0000_0000

  /** A script that could not be parsed is absent. */
  datatype Output = Output(script: Option<Script>)

  datatype Input = Input(prevTxId: Option<Hash>, outputIndex: uint32, script: Option<Script>)

  /** JavaScript arrays hold fewer than 2^32 elements. */
  type Outputs = s: seq<Output> | |s| < 0x1_0000_0000

  datatype Transaction = Transaction(hash: Hash, inputs: seq<Input>, outputs: Outputs)

  const BLOOM_UPDATE_ALL := 1
  const BLOOM_UPDATE_P2PUBKEY_ONLY := 2

  /**
   * The value of a Bloom filter: the bit positions that are set, and the function from data
   * to the positions its hash functions select (murmur hashing stays uninterpreted).
   */
  datatype Filter = Filter(bits: set<nat>, nFlags: int, index: Bytes -> set<nat>) {
    predicate Contains(data: Bytes) {
      index(data) <= bits
    }

    function Insert(data: Bytes): Filter {
      this.(bits := bits + index(data))
    }
  }

  /** The test either answers, or throws on an output whose script is absent. */
  datatype Verdict = Match | NoMatch | Throws

  // ----- the outpoint encoding -----

  function LittleEndian32(n: uint32): (r: Bytes)
    ensures |r| == 4
    ensures n == (r[0] as int) + 0x100 * (r[1] as int) + 0x1_0000 * (r[2] as int) + 0x100_0000 * (r[3] as int)
  {
    var n1 := n / 0x100;
    var n2 := n1 / 0x100;
    var n3 := n2 / 0x100;
    [n % 0x100, n1 % 0x100, n2 % 0x100, n3]
  }

  function Outpoint(hash: Hash, n: uint32): Bytes {
    hash + LittleEndian32(n)
  }

  /** Two outpoints encode alike only if both the transaction and the index agree. */
  lemma OutpointInjective(h1: Hash, n1: uint32, h2: Hash, n2: uint32)
    requires Outpoint(h1, n1) == Outpoint(h2, n2)
    ensures h1 == h2 && n1 == n2
  {
    var e1, e2 := Outpoint(h1, n1), Outpoint(h2, n2);
    assert h1 == e1[..|e1| - 4] && LittleEndian32(n1) == e1[|e1| - 4..];
    assert h2 == e2[..|e2| - 4] && LittleEndian32(n2) == e2[|e2| - 4..];
  }

  // ----- the test as a function of the filter's value -----

  predicate ChunkHit(f: Filter, c: Chunk) {
    c.opcodenum != 0 && c.buf.Some? && f.Contains(c.buf.value)
  }

  predicate ContainsScript(f: Filter, script: Option<Script>) {
    script.Some? && exists c :: c in script.value.chunks && ChunkHit(f, c)
  }

  predicate NeedsUpdate(nFlags: int, s: Script) {
    nFlags == BLOOM_UPDATE_ALL
    || (nFlags == BLOOM_UPDATE_P2PUBKEY_ONLY && (s.isPublicKeyOut || s.isMultisigOut))
  }

  /** The output at which the scan stops: the first that hits or has no script; the length if none. */
  function StopAt(f: Filter, outs: seq<Output>): (j: nat)
    ensures j <= |outs|
    ensures forall i :: 0 <= i < j ==> outs[i].script.Some? && !ContainsScript(f, outs[i].script)
    ensures j < |outs| ==> outs[j].script.None? || ContainsScript(f, outs[j].script)
  {
    if outs == [] then 0
    else if outs[0].script.None? || ContainsScript(f, outs[0].script) then 0
    else 1 + StopAt(f, outs[1..])
  }

  predicate HashHit(f: Filter, tx: Transaction) {
    f.Contains(tx.hash)
  }

  predicate InputHit(f: Filter, i: Input) {
    (i.prevTxId.Some? && f.Contains(Outpoint(i.prevTxId.value, i.outputIndex))) || ContainsScript(f, i.script)
  }

  predicate AnyInputHit(f: Filter, tx: Transaction) {
    exists i :: i in tx.inputs && InputHit(f, i)
  }

  function UpdateFor(f: Filter, tx: Transaction, j: uint32): Filter
    requires j < |tx.outputs| && tx.outputs[j].script.Some?
  {
    if NeedsUpdate(f.nFlags, tx.outputs[j].script.value) then f.Insert(Outpoint(tx.hash, j)) else f
  }

  function TestOutputs(f: Filter, tx: Transaction): (Verdict, Filter) {
    var j := StopAt(f, tx.outputs);
    if j == |tx.outputs| then (NoMatch, f)
    else if tx.outputs[j].script.None? then (Throws, f)
    else (Match, UpdateFor(f, tx, j))
  }

  function Test(f: Filter, tx: Transaction): (Verdict, Filter) {
    if HashHit(f, tx) then (Match, f)
    else
      var (v, f') := TestOutputs(f, tx);
      if v.NoMatch? then (if AnyInputHit(f, tx) then Match else NoMatch, f) else (v, f')
  }

  // ----- the filter object and the methods that run the test in place -----

  class BloomFilter {
    const nFlags: int
    const index: Bytes -> set<nat>
    var bits: set<nat>

    constructor (nFlags: int, index: Bytes -> set<nat>, bits: set<nat>)
      ensures Value() == Filter(bits, nFlags, index)
    {
      this.nFlags, this.index, this.bits := nFlags, index, bits;
    }

    ghost function Value(): Filter
      reads this
    {
      Filter(bits, nFlags, index)
    }

    predicate Contains(data: Bytes)
      reads this
      ensures Contains(data) <==> Value().Contains(data)
    {
      index(data) <= bits
    }

    method Insert(data: Bytes)
      modifies this
      ensures Value() == old(Value()).Insert(data)
    {
      bits := bits + index(data);
    }
  }

  method FilterContainsScript(filter: BloomFilter, script: Option<Script>) returns (r: bool)
    ensures r <==> ContainsScript(filter.Value(), script)
  {
    if script.None? {
      return false;
    }
    for i := 0 to |script.value.chunks|
      invariant forall k :: 0 <= k < i ==> !ChunkHit(filter.Value(), script.value.chunks[k])
    {
      var chunk := script.value.chunks[i];
      if chunk.opcodenum != 0 && chunk.buf.Some? && filter.Contains(chunk.buf.value) {
        assert ChunkHit(filter.Value(), chunk);
        return true;
      }
    }
    return false;
  }

  lemma StopAtIs(f: Filter, outs: seq<Output>, j: nat)
    requires j <= |outs|
    requires forall i :: 0 <= i < j ==> outs[i].script.Some? && !ContainsScript(f, outs[i].script)
    requires j < |outs| ==> outs[j].script.None? || ContainsScript(f, outs[j].script)
    ensures StopAt(f, outs) == j
  {
  }

  /** `find` over the outputs; the callback inserts the outpoint of the output it stops at. */
  method CheckOutputs(filter: BloomFilter, tx: Transaction) returns (v: Verdict)
    modifies filter
    ensures (v, filter.Value()) == TestOutputs(old(filter.Value()), tx)
  {
    ghost var f := filter.Value();
    var index := 0;
    while index < |tx.outputs|
      invariant 0 <= index <= |tx.outputs|
      invariant filter.Value() == f
      invariant forall i :: 0 <= i < index ==>
                              tx.outputs[i].script.Some? && !ContainsScript(f, tx.outputs[i].script)
    {
      var script := tx.outputs[index].script;
      var isMatchFound := FilterContainsScript(filter, script);
      if script.None? {
        StopAtIs(f, tx.outputs, index);
        return Throws;
      }
      if isMatchFound {
        StopAtIs(f, tx.outputs, index);
        if NeedsUpdate(filter.nFlags, script.value) {
          filter.Insert(Outpoint(tx.hash, index));
        }
        return Match;
      }
      index := index + 1;
    }
    StopAtIs(f, tx.outputs, index);
    return NoMatch;
  }

  method CheckInputs(filter: BloomFilter, tx: Transaction) returns (r: bool)
    ensures r <==> AnyInputHit(filter.Value(), tx)
  {
    for i := 0 to |tx.inputs|
      invariant forall k :: 0 <= k < i ==> !InputHit(filter.Value(), tx.inputs[k])
    {
      var input := tx.inputs[i];
      var containsPreviousOutput :=
        input.prevTxId.Some? && filter.Contains(Outpoint(input.prevTxId.value, input.outputIndex));
      var containsScript := FilterContainsScript(filter, input.script);
      if containsPreviousOutput || containsScript {
        assert InputHit(filter.Value(), input);
        return true;
      }
    }
    return false;
  }

  method TestTransactionAgainstFilter(filter: BloomFilter, tx: Transaction) returns (v: Verdict)
    modifies filter
    ensures (v, filter.Value()) == Test(old(filter.Value()), tx)
  {
    if filter.Contains(tx.hash) {
      return Match;
    }
    v := CheckOutputs(filter, tx);
    if v.NoMatch? {
      var inputHit := CheckInputs(filter, tx);
      v := if inputHit then Match else NoMatch;
    }
  }
}
