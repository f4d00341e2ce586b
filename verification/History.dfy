/** The historical scan: how the requested range is clamped, cut into batches and read from Core. */
module History {
  import opened Common
  import opened BloomFilters
  import opened CacheValues
  import opened Selections

  const MAX_HEADERS_PER_REQUEST := 2000

  /**
   * What Core answers: the height of its tip, the proof of the block at a height under a filter
   * (if the block matches), the transaction of a hash, and where a block hash stands.
   */
  datatype Core = Core(
    tip: nat,
    proofAt: (Filter, nat) -> Option<MerkleBlock>,
    transactionOf: Hash -> Transaction,
    blockAt: Hash -> Option<BlockInfo>,
    hashAt: nat -> Hash)

  datatype BlockInfo = BlockInfo(height: nat, onBestChain: bool)

  datatype Item = Item(merkleBlock: MerkleBlock, transactions: seq<Transaction>, index: nat)

  // ----- one unbounded scan -----

  /** The proofs of the heights from `lo` up to, not including, `hi`. */
  function Scan(proof: nat -> Option<MerkleBlock>, lo: nat, hi: int): seq<MerkleBlock>
    decreases hi - lo
  {
    if hi <= lo then []
    else (if proof(lo).Some? then [proof(lo).value] else []) + Scan(proof, lo + 1, hi)
  }

  lemma {:induction false} ScanSplits(proof: nat -> Option<MerkleBlock>, lo: nat, mid: nat, hi: int)
    requires lo <= mid <= hi
    ensures Scan(proof, lo, hi) == Scan(proof, lo, mid) + Scan(proof, mid, hi)
    decreases mid - lo
  {
    if lo < mid {
      ScanSplits(proof, lo + 1, mid, hi);
    }
  }

  lemma {:induction false} ScanAgrees(p: nat -> Option<MerkleBlock>, q: nat -> Option<MerkleBlock>, lo: nat, hi: int)
    requires forall h: nat :: lo <= h < hi ==> p(h) == q(h)
    ensures Scan(p, lo, hi) == Scan(q, lo, hi)
    decreases hi - lo
  {
    if lo < hi {
      ScanAgrees(p, q, lo + 1, hi);
    }
  }

  /** The hashes a merkle block flags, in block order. */
  function MatchedHashes(m: MerkleBlock, i: nat): seq<Hash>
    decreases |m.txHashes| - i
  {
    if i >= |m.txHashes| || i >= |m.flags| then []
    else (if m.flags[i] then [m.txHashes[i]] else []) + MatchedHashes(m, i + 1)
  }

  function Transactions(core: Core, hashes: seq<Hash>): seq<Transaction> {
    seq(|hashes|, i requires 0 <= i < |hashes| => core.transactionOf(hashes[i]))
  }

  /** The items for a list of proofs, numbered from `first`. */
  function Numbered(core: Core, ms: seq<MerkleBlock>, first: nat): seq<Item> {
    seq(|ms|, i requires 0 <= i < |ms| => Item(ms[i], Transactions(core, MatchedHashes(ms[i], 0)), first + i))
  }

  // ----- batches -----

  /** `Math.ceil(count / MAX_HEADERS_PER_REQUEST)`. */
  function NumberOfBatches(count: int): int {
    (count + MAX_HEADERS_PER_REQUEST - 1) / MAX_HEADERS_PER_REQUEST
  }

  function BatchStart(from: nat, i: nat): nat {
    from + i * MAX_HEADERS_PER_REQUEST
  }

  function BlocksToScan(batchIndex: nat, numberOfBatches: int, totalCount: int): int {
    if batchIndex + 1 == numberOfBatches then totalCount - batchIndex * MAX_HEADERS_PER_REQUEST
    else MAX_HEADERS_PER_REQUEST
  }

  /**
   * The batches tile the requested range: each takes 1 to 2000 heights, starts where the one before
   * it ended, and the last ends with the range; a count that is not positive has none.
   */
  lemma BatchesTile(from: nat, count: int, i: nat)
    requires i < NumberOfBatches(count)
    ensures var n := NumberOfBatches(count);
            var end := BatchStart(from, i) + BlocksToScan(i, n, count);
            && 1 <= BlocksToScan(i, n, count) <= MAX_HEADERS_PER_REQUEST
            && end == (if i + 1 < n then BatchStart(from, i + 1) else from + count)
            && end <= from + count
    ensures BatchStart(from, 0) == from
  {
    var n := NumberOfBatches(count);
    assert n * MAX_HEADERS_PER_REQUEST >= count > (n - 1) * MAX_HEADERS_PER_REQUEST;
    if i + 1 < n {
      assert (i + 1) * MAX_HEADERS_PER_REQUEST <= (n - 1) * MAX_HEADERS_PER_REQUEST;
    }
  }

  lemma NoBatches(count: int)
    ensures NumberOfBatches(count) <= 0 <==> count <= 0
  {
  }

  /** Every height of the range lies in the batch its distance from the start selects, and in no other. */
  lemma BatchOfHeight(from: nat, count: int, h: nat, i: nat)
    requires from <= h < from + count && i < NumberOfBatches(count)
    ensures 0 <= (h - from) / MAX_HEADERS_PER_REQUEST < NumberOfBatches(count)
    ensures BatchStart(from, i) <= h < BatchStart(from, i) + BlocksToScan(i, NumberOfBatches(count), count)
            <==> i == (h - from) / MAX_HEADERS_PER_REQUEST
  {
    var n := NumberOfBatches(count);
    BatchesTile(from, count, i);
    var q := (h - from) / MAX_HEADERS_PER_REQUEST;
    assert q * MAX_HEADERS_PER_REQUEST <= h - from < (q + 1) * MAX_HEADERS_PER_REQUEST;
    if i < q {
      assert (i + 1) * MAX_HEADERS_PER_REQUEST <= q * MAX_HEADERS_PER_REQUEST;
      assert (n - 1) * MAX_HEADERS_PER_REQUEST < count;
    } else if q < i {
      assert (q + 1) * MAX_HEADERS_PER_REQUEST <= i * MAX_HEADERS_PER_REQUEST;
    }
  }

  /** The proof a batched scan sees at a height, when the filter may have grown between batches. */
  function SeenAt(core: Core, filterAt: nat -> Filter, from: nat): nat -> Option<MerkleBlock> {
    (h: nat) => if h < from then None else core.proofAt(filterAt((h - from) / MAX_HEADERS_PER_REQUEST), h)
  }

  /** Where a range asked of Core really ends. */
  function Bounded(core: Core, hi: int): int {
    if hi <= core.tip + 1 then hi else core.tip + 1
  }

  /** Core's `getmerkleblocks`: the proofs of up to `count` heights from `start` on, none above the tip. */
  method GetMerkleBlocks(core: Core, filter: Filter, start: nat, count: int) returns (ms: seq<MerkleBlock>)
    requires start <= core.tip && 1 <= count <= MAX_HEADERS_PER_REQUEST
    ensures ms == Scan((h: nat) => core.proofAt(filter, h), start, Bounded(core, start + count))
  {
    ghost var proof := (h: nat) => core.proofAt(filter, h);
    var hi := Bounded(core, start + count);
    ms := [];
    for h := start to hi
      invariant ms == Scan(proof, start, h)
    {
      ScanSplits(proof, start, h, h + 1);
      var p := core.proofAt(filter, h);
      if p.Some? {
        ms := ms + [p.value];
      }
    }
  }

  /** How far the batches before `batchIndex` reach. */
  function ScannedTo(from: nat, count: int, batchIndex: nat): int {
    if batchIndex < NumberOfBatches(count) || batchIndex == 0 then BatchStart(from, batchIndex) else from + count
  }

  /** Yields the items of one answer, counting on from those already yielded. */
  method YieldItems(core: Core, items: seq<Item>, ms: seq<MerkleBlock>, ghost seen: seq<MerkleBlock>)
    returns (r: seq<Item>)
    requires items == Numbered(core, seen, 0)
    ensures r == Numbered(core, seen + ms, 0)
  {
    r := items;
    var merkleBlockIndex := |items|;
    for j := 0 to |ms|
      invariant |r| == merkleBlockIndex + j
      invariant r == Numbered(core, seen + ms[..j], 0)
    {
      assert seen + ms[..j + 1] == (seen + ms[..j]) + [ms[j]];
      r := r + [Item(ms[j], Transactions(core, MatchedHashes(ms[j], 0)), merkleBlockIndex + j)];
    }
    assert ms[..|ms|] == ms;
  }

  /** One more batch extends what has been scanned to where the next batch starts. */
  lemma BatchExtends(core: Core, filterAt: nat -> Filter, from: nat, count: int, i: nat)
    requires i < NumberOfBatches(count) && BatchStart(from, i) <= core.tip
    ensures var proof := SeenAt(core, filterAt, from);
            var hi := Bounded(core, BatchStart(from, i) + BlocksToScan(i, NumberOfBatches(count), count));
            && Bounded(core, ScannedTo(from, count, i)) == BatchStart(from, i)
            && Bounded(core, ScannedTo(from, count, i + 1)) == hi
            && Scan(proof, from, hi) == Scan(proof, from, BatchStart(from, i)) + Scan(proof, BatchStart(from, i), hi)
  {
    BatchesTile(from, count, i);
    var hi := Bounded(core, BatchStart(from, i) + BlocksToScan(i, NumberOfBatches(count), count));
    ScanSplits(SeenAt(core, filterAt, from), from, BatchStart(from, i), hi);
  }

  /** A batch that would start above the tip has nothing left to find. */
  lemma NothingAboveTip(core: Core, from: nat, count: int, i: nat)
    requires i < NumberOfBatches(count) && BatchStart(from, i) > core.tip
    ensures Bounded(core, ScannedTo(from, count, i)) == Bounded(core, from + count) == core.tip + 1
    ensures BatchStart(from, NumberOfBatches(count) - 1) > core.tip
  {
    BatchesTile(from, count, i);
    BatchesMonotone(from, i, NumberOfBatches(count) - 1);
  }

  /** Within a batch the filter is the one the batch was asked with. */
  lemma BatchSees(core: Core, filterAt: nat -> Filter, from: nat, count: int, i: nat)
    requires i < NumberOfBatches(count) && BatchStart(from, i) <= core.tip
    ensures var hi := Bounded(core, BatchStart(from, i) + BlocksToScan(i, NumberOfBatches(count), count));
            Scan((h: nat) => core.proofAt(filterAt(i), h), BatchStart(from, i), hi)
            == Scan(SeenAt(core, filterAt, from), BatchStart(from, i), hi)
  {
    var hi := Bounded(core, BatchStart(from, i) + BlocksToScan(i, NumberOfBatches(count), count));
    BatchesTile(from, count, i);
    forall h: nat | BatchStart(from, i) <= h < hi
      ensures SeenAt(core, filterAt, from)(h) == core.proofAt(filterAt(i), h)
    {
      BatchOfHeight(from, count, h, i);
    }
    ScanAgrees((h: nat) => core.proofAt(filterAt(i), h), SeenAt(core, filterAt, from), BatchStart(from, i), hi);
  }

  /** What has been yielded when a batch starts. */
  function YieldedBefore(core: Core, filterAt: nat -> Filter, from: nat, count: int, batchIndex: nat): seq<MerkleBlock>
  {
    Scan(SeenAt(core, filterAt, from), from, Bounded(core, ScannedTo(from, count, batchIndex)))
  }

  /** One batch: asks Core for its heights and yields what comes back. */
  method YieldBatch(core: Core, filterAt: nat -> Filter, from: nat, count: int, batchIndex: nat, items: seq<Item>)
    returns (r: seq<Item>)
    requires batchIndex < NumberOfBatches(count) && BatchStart(from, batchIndex) <= core.tip
    requires items == Numbered(core, YieldedBefore(core, filterAt, from, count, batchIndex), 0)
    ensures r == Numbered(core, YieldedBefore(core, filterAt, from, count, batchIndex + 1), 0)
  {
    var blocksToScan := BlocksToScan(batchIndex, NumberOfBatches(count), count);
    BatchesTile(from, count, batchIndex);
    var ms := GetMerkleBlocks(core, filterAt(batchIndex), BatchStart(from, batchIndex), blocksToScan);
    BatchSees(core, filterAt, from, count, batchIndex);
    BatchExtends(core, filterAt, from, count, batchIndex);
    r := YieldItems(core, items, ms, YieldedBefore(core, filterAt, from, count, batchIndex));
  }

  /**
   * The iterator, run to its end. It fails if a batch would start above the tip; what it yields,
   * failed or not, is what one scan of the whole range yields, numbered in order.
   */
  method GetHistoricalTransactions(core: Core, filterAt: nat -> Filter, from: nat, count: int)
    returns (items: seq<Item>, failed: bool)
    ensures items == Numbered(core, Scan(SeenAt(core, filterAt, from), from, Bounded(core, from + count)), 0)
    ensures failed <==> count > 0 && BatchStart(from, NumberOfBatches(count) - 1) > core.tip
  {
    var numberOfBatches := NumberOfBatches(count);
    NoBatches(count);
    items := [];
    var batchIndex := 0;
    while batchIndex < numberOfBatches
      invariant 0 <= batchIndex && (batchIndex > 0 ==> batchIndex <= numberOfBatches)
      invariant items == Numbered(core, YieldedBefore(core, filterAt, from, count, batchIndex), 0)
      invariant batchIndex > 0 ==> BatchStart(from, batchIndex - 1) <= core.tip
      decreases numberOfBatches - batchIndex
    {
      if BatchStart(from, batchIndex) > core.tip {
        NothingAboveTip(core, from, count, batchIndex);
        return items, true;
      }
      items := YieldBatch(core, filterAt, from, count, batchIndex, items);
      batchIndex := batchIndex + 1;
    }
    failed := false;
  }

  lemma BatchesMonotone(from: nat, i: nat, j: nat)
    requires i <= j
    ensures BatchStart(from, i) <= BatchStart(from, j)
  {
    assert i * MAX_HEADERS_PER_REQUEST <= j * MAX_HEADERS_PER_REQUEST;
  }

  /** The proofs of a chain under one filter. */
  function ProofUnder(core: Core, f: Filter): nat -> Option<MerkleBlock> {
    (h: nat) => core.proofAt(f, h)
  }

  /** With one filter throughout, the batched scan is the single scan under that filter. */
  lemma OneFilterOneScan(core: Core, filterAt: nat -> Filter, f: Filter, from: nat, hi: int)
    requires forall i :: filterAt(i) == f
    ensures Scan(SeenAt(core, filterAt, from), from, hi) == Scan(ProofUnder(core, f), from, hi)
  {
    ScanAgrees(SeenAt(core, filterAt, from), ProofUnder(core, f), from, hi);
  }

  /** Every item carries a transaction for each hash its merkle block proves, if Core answers with the right ones. */
  lemma {:induction false} MatchedHashesComplete(m: MerkleBlock, i: nat, k: nat)
    requires i <= k < |m.txHashes| && k < |m.flags| && m.flags[k]
    ensures m.txHashes[k] in MatchedHashes(m, i)
    decreases k - i
  {
    if i < k {
      MatchedHashesComplete(m, i + 1, k);
    }
  }

  ghost predicate Carries(item: Item) {
    forall h :: h in Matched(item.merkleBlock) ==> exists t :: t in item.transactions && t.hash == h
  }

  lemma ItemsCarryMatches(core: Core, ms: seq<MerkleBlock>, first: nat, i: nat)
    requires i < |ms| && forall h :: core.transactionOf(h).hash == h
    ensures Carries(Numbered(core, ms, first)[i])
  {
    var item := Numbered(core, ms, first)[i];
    forall h | h in Matched(item.merkleBlock) ensures exists t :: t in item.transactions && t.hash == h {
      var m := ms[i];
      var k :| 0 <= k < |m.txHashes| && k < |m.flags| && m.flags[k] && m.txHashes[k] == h;
      MatchedHashesComplete(m, 0, k);
      var hs := MatchedHashes(m, 0);
      var j :| 0 <= j < |hs| && hs[j] == h;
      assert item.transactions[j] == core.transactionOf(h);
    }
  }

  // ----- what is scanned, said of the heights of the chain -----

  /** The positions of a list of `n` things, or the heights of a chain below `n`. */
  function UpTo(n: nat): seq<nat> {
    seq(n, i => i)
  }

  function ProofsOf(proof: nat -> Option<MerkleBlock>): (nat, MerkleBlock) -> bool {
    (h: nat, m: MerkleBlock) => proof(h) == Some(m)
  }

  /** The heights from `lo` up to, not including, `hi`. */
  function Between(lo: nat, hi: nat): seq<nat>
    requires lo <= hi
  {
    seq(hi - lo, i requires 0 <= i < hi - lo => lo + i)
  }

  lemma BetweenFirst(lo: nat, hi: nat)
    requires lo < hi
    ensures Between(lo, hi)[0] == lo && Between(lo, hi)[1..] == Between(lo + 1, hi)
  {
  }

  lemma {:induction false} ScanInOrder(proof: nat -> Option<MerkleBlock>, lo: nat, hi: nat)
    requires lo <= hi
    ensures Selected(Scan(proof, lo, hi), Between(lo, hi), ProofsOf(proof))
    decreases hi - lo
  {
    if lo == hi {
      NothingSelected(ProofsOf(proof));
      assert Between(lo, hi) == [];
    } else {
      ScanInOrder(proof, lo + 1, hi);
      var head := if proof(lo).Some? then [proof(lo).value] else [];
      BetweenFirst(lo, hi);
      SelectedFirst(Between(lo, hi), head, Scan(proof, lo + 1, hi), ProofsOf(proof));
    }
  }

  /** The transaction of a flagged position. */
  function FlaggedTransaction(core: Core, m: MerkleBlock): (nat, Transaction) -> bool {
    (k: nat, t: Transaction) =>
      k < |m.txHashes| && k < |m.flags| && m.flags[k] && t == core.transactionOf(m.txHashes[k])
  }

  lemma TransactionsConcat(core: Core, head: seq<Hash>, rest: seq<Hash>)
    ensures Transactions(core, head + rest) == Transactions(core, head) + Transactions(core, rest)
  {
  }

  lemma {:induction false} FlaggedInOrder(core: Core, m: MerkleBlock, i: nat)
    requires i <= |m.txHashes|
    ensures Selected(Transactions(core, MatchedHashes(m, i)), Between(i, |m.txHashes|), FlaggedTransaction(core, m))
    decreases |m.txHashes| - i
  {
    var gives, from := FlaggedTransaction(core, m), Between(i, |m.txHashes|);
    if i == |m.txHashes| {
      NothingSelected(gives);
      assert from == [] && Transactions(core, []) == [];
    } else {
      FlaggedInOrder(core, m, i + 1);
      var head := if i < |m.flags| && m.flags[i] then [m.txHashes[i]] else [];
      BetweenFirst(i, |m.txHashes|);
      SelectedFirst(from, Transactions(core, head), Transactions(core, MatchedHashes(m, i + 1)), gives);
      TransactionsConcat(core, head, MatchedHashes(m, i + 1));
      if i >= |m.flags| {
        assert MatchedHashes(m, i + 1) == [];
      }
    }
  }

  /** The item numbered `i`: the merkle block, and a transaction for each flagged hash, in block order. */
  ghost predicate IsItem(core: Core, item: Item, m: MerkleBlock, i: nat) {
    && item.merkleBlock == m && item.index == i
    && Selected(item.transactions, UpTo(|m.txHashes|), FlaggedTransaction(core, m))
  }

  lemma ItemsExactly(core: Core, ms: seq<MerkleBlock>, i: nat)
    requires i < |ms|
    ensures |Numbered(core, ms, 0)| == |ms| && IsItem(core, Numbered(core, ms, 0)[i], ms[i], i)
  {
    FlaggedInOrder(core, ms[i], 0);
    assert UpTo(|ms[i].txHashes|) == Between(0, |ms[i].txHashes|);
  }

  // ----- the request -----

  /** An absent hash means the range starts at the given height. */
  datatype Request = Request(fromBlockHash: Option<Hash>, fromBlockHeight: nat, count: nat)

  datatype ScanError = MinimumHeightIsOne | HeightOutOfRange | HashNotFound | NotOnBestChain

  datatype Result<T> = Ok(value: T) | Err(error: ScanError)

  /** Core knows the blocks of its chain by height. */
  ghost predicate WellFormed(core: Core) {
    && (forall h: nat :: h <= core.tip ==> core.blockAt(core.hashAt(h)) == Some(BlockInfo(h, true)))
    && (forall x :: core.blockAt(x).Some? && core.blockAt(x).value.onBestChain ==>
                      core.blockAt(x).value.height <= core.tip)
  }

  /** The number of blocks scanned for a request: all up to the best one, or fewer if asked for. */
  function HistoricalCount(count: nat, fromHeight: nat, bestBlockHeight: nat): int {
    if count == 0 || fromHeight + count > bestBlockHeight + 1 then bestBlockHeight - fromHeight + 1 else count
  }

  /** The last height scanned for a request. */
  function LastHeight(count: nat, fromHeight: nat, bestBlockHeight: nat): int {
    if count == 0 || bestBlockHeight < fromHeight + count - 1 then bestBlockHeight else fromHeight + count - 1
  }

  /** Clamping: the range runs from the start to the last height asked for or the best block, whichever is lower. */
  lemma ClampedRange(count: nat, from: nat, best: nat)
    ensures from + HistoricalCount(count, from, best) - 1 == LastHeight(count, from, best) <= best
    ensures from <= best ==> HistoricalCount(count, from, best) >= 1
  {
  }

  /** ... and then no batch starts or ends above it. */
  lemma BatchesBelowTip(count: nat, from: nat, best: nat, i: nat)
    requires i < NumberOfBatches(HistoricalCount(count, from, best))
    ensures var n := HistoricalCount(count, from, best);
            BatchStart(from, i) <= BatchStart(from, i) + BlocksToScan(i, NumberOfBatches(n), n) - 1 <= best
  {
    ClampedRange(count, from, best);
    BatchesTile(from, HistoricalCount(count, from, best), i);
  }

  /** The height of the block a request names by its hash or by its height. */
  function StartHeight(core: Core, request: Request): Option<nat> {
    if request.fromBlockHash.None? then Some(request.fromBlockHeight)
    else
      var b := core.blockAt(request.fromBlockHash.value);
      if b.None? then None else Some(b.value.height)
  }

  /** Why a request is refused, if it is. */
  ghost predicate Refused(core: Core, request: Request, error: ScanError) {
    match error
    case MinimumHeightIsOne => request.fromBlockHash.None? && request.fromBlockHeight == 0
    case HeightOutOfRange => request.fromBlockHash.None? && request.fromBlockHeight > core.tip
    case HashNotFound => request.fromBlockHash.Some? && core.blockAt(request.fromBlockHash.value).None?
    case NotOnBestChain =>
      request.fromBlockHash.Some? && core.blockAt(request.fromBlockHash.value).Some?
      && !core.blockAt(request.fromBlockHash.value).value.onBestChain
  }

  /** The handler resolves a height to a hash first, and then looks the hash up in either case. */
  method FindStart(core: Core, request: Request) returns (r: Result<nat>)
    requires WellFormed(core)
    ensures forall error :: r == Err(error) <==> Refused(core, request, error)
    ensures r.Ok? ==> StartHeight(core, request) == Some(r.value) && r.value <= core.tip
  {
    var hash;
    if request.fromBlockHash.None? {
      if request.fromBlockHeight == 0 {
        return Err(MinimumHeightIsOne);
      }
      if request.fromBlockHeight > core.tip {
        return Err(HeightOutOfRange);
      }
      hash := core.hashAt(request.fromBlockHeight);
    } else {
      hash := request.fromBlockHash.value;
    }
    var block := core.blockAt(hash);
    if block.None? {
      return Err(HashNotFound);
    }
    if !block.value.onBestChain {
      return Err(NotOnBestChain);
    }
    return Ok(block.value.height);
  }

  /** What a block of the chain adds to a scan that starts at `from`: its proof under the filter of its batch. */
  function ScannedProof(core: Core, filterAt: nat -> Filter, from: nat, count: nat): (nat, MerkleBlock) -> bool {
    (h: nat, m: MerkleBlock) =>
      from <= h && (count == 0 || h < from + count) && core.proofAt(filterAt((h - from) / 2000), h) == Some(m)
  }

  /** The items of a scan, in chain order: of the blocks up to the best one, `count` of them from `from`, or all. */
  ghost predicate ScannedItems(core: Core, filterAt: nat -> Filter, from: nat, count: nat, best: nat,
                               items: seq<Item>)
  {
    exists ms :: |items| == |ms| && (forall i :: 0 <= i < |ms| ==> IsItem(core, items[i], ms[i], i))
                 && Selected(ms, UpTo(best + 1), ScannedProof(core, filterAt, from, count))
  }

  lemma {:induction false} ScanNothing(proof: nat -> Option<MerkleBlock>, lo: nat, hi: int)
    requires forall h: nat :: lo <= h < hi ==> proof(h).None?
    ensures Scan(proof, lo, hi) == []
    decreases hi - lo
  {
    if lo < hi {
      ScanNothing(proof, lo + 1, hi);
    }
  }

  /** The proofs in the range, and none elsewhere. */
  function InRange(core: Core, filterAt: nat -> Filter, from: nat, count: nat): nat -> Option<MerkleBlock> {
    (h: nat) => if from <= h && (count == 0 || h < from + count) then SeenAt(core, filterAt, from)(h) else None
  }

  /** The scan of the range is the scan of the whole chain for what is in the range. */
  lemma RangeOfChain(core: Core, filterAt: nat -> Filter, from: nat, count: nat, best: nat)
    ensures Scan(SeenAt(core, filterAt, from), from, LastHeight(count, from, best) + 1)
            == Scan(InRange(core, filterAt, from, count), 0, best + 1)
  {
    var seen, within := SeenAt(core, filterAt, from), InRange(core, filterAt, from, count);
    var hi := LastHeight(count, from, best) + 1;
    if hi <= from {
      ScanNothing(within, 0, best + 1);
    } else {
      ScanSplits(within, 0, from, best + 1);
      ScanNothing(within, 0, from);
      ScanSplits(within, from, hi, best + 1);
      ScanNothing(within, hi, best + 1);
      ScanAgrees(seen, within, from, hi);
    }
  }

  lemma SameGivers<U(!new)>(r: seq<U>, s: seq<nat>, g1: (nat, U) -> bool, g2: (nat, U) -> bool)
    requires Selected(r, s, g1) && forall x, u :: g1(x, u) == g2(x, u)
    ensures Selected(r, s, g2)
  {
    var ps :| SelectedAt(r, s, g1, ps);
    forall k | 0 <= k < |s| && Gives(s[k], g2) ensures Gives(s[k], g1) {
      var u :| g2(s[k], u);
      assert g1(s[k], u);
    }
    assert SelectedAt(r, s, g2, ps);
  }

  lemma InRangeProofs(core: Core, filterAt: nat -> Filter, from: nat, count: nat)
    ensures forall h, m ::
              ProofsOf(InRange(core, filterAt, from, count))(h, m) == ScannedProof(core, filterAt, from, count)(h, m)
  {
    var within := InRange(core, filterAt, from, count);
    forall h: nat, m
      ensures ProofsOf(within)(h, m) == ScannedProof(core, filterAt, from, count)(h, m)
    {
      if from <= h && (count == 0 || h < from + count) {
        assert within(h) == SeenAt(core, filterAt, from)(h) == core.proofAt(filterAt((h - from) / 2000), h);
      } else {
        assert within(h) == None;
      }
    }
  }

  lemma RangeSelected(core: Core, filterAt: nat -> Filter, from: nat, count: nat, best: nat)
    ensures Selected(Scan(InRange(core, filterAt, from, count), 0, best + 1), UpTo(best + 1),
                     ScannedProof(core, filterAt, from, count))
  {
    var within := InRange(core, filterAt, from, count);
    ScanInOrder(within, 0, best + 1);
    assert UpTo(best + 1) == Between(0, best + 1);
    InRangeProofs(core, filterAt, from, count);
    SameGivers(Scan(within, 0, best + 1), UpTo(best + 1), ProofsOf(within), ScannedProof(core, filterAt, from, count));
  }

  lemma AllAreItems(core: Core, ms: seq<MerkleBlock>)
    ensures |Numbered(core, ms, 0)| == |ms|
    ensures forall i :: 0 <= i < |ms| ==> IsItem(core, Numbered(core, ms, 0)[i], ms[i], i)
  {
    forall i | 0 <= i < |ms| ensures IsItem(core, Numbered(core, ms, 0)[i], ms[i], i) {
      ItemsExactly(core, ms, i);
    }
  }

  lemma ScanIsScanned(core: Core, filterAt: nat -> Filter, from: nat, count: nat, best: nat)
    ensures ScannedItems(core, filterAt, from, count, best,
                         Numbered(core, Scan(SeenAt(core, filterAt, from), from, LastHeight(count, from, best) + 1), 0))
  {
    RangeOfChain(core, filterAt, from, count, best);
    RangeSelected(core, filterAt, from, count, best);
    AllAreItems(core, Scan(InRange(core, filterAt, from, count), 0, best + 1));
  }

  /** The items of a scan from the block that the request names. */
  ghost predicate Scanned(core: Core, filterAt: nat -> Filter, request: Request, best: nat, items: seq<Item>) {
    && StartHeight(core, request).Some?
    && ScannedItems(core, filterAt, StartHeight(core, request).value, request.count, best, items)
  }

  /** No batch of a clamped range starts above the tip. */
  lemma ClampedNeverFails(core: Core, count: nat, from: nat, best: nat)
    requires best <= core.tip
    ensures var n := HistoricalCount(count, from, best);
            !(n > 0 && BatchStart(from, NumberOfBatches(n) - 1) > core.tip)
  {
    var n := HistoricalCount(count, from, best);
    NoBatches(n);
    if n > 0 {
      BatchesBelowTip(count, from, best, NumberOfBatches(n) - 1);
    }
  }

  lemma ClampedIsScanned(core: Core, filterAt: nat -> Filter, from: nat, count: nat, best: nat, items: seq<Item>)
    requires best <= core.tip
    requires items == Numbered(core, Scan(SeenAt(core, filterAt, from), from,
                                          Bounded(core, from + HistoricalCount(count, from, best))), 0)
    ensures ScannedItems(core, filterAt, from, count, best, items)
  {
    ClampedRange(count, from, best);
    ScanIsScanned(core, filterAt, from, count, best);
  }

  /** The clamped range, read to its end: no batch of it can fail. */
  method ReadRange(core: Core, filterAt: nat -> Filter, from: nat, count: nat, bestBlockHeight: nat)
    returns (items: seq<Item>)
    requires bestBlockHeight <= core.tip
    ensures ScannedItems(core, filterAt, from, count, bestBlockHeight, items)
  {
    var failed;
    items, failed := GetHistoricalTransactions(core, filterAt, from, HistoricalCount(count, from, bestBlockHeight));
    ClampedNeverFails(core, count, from, bestBlockHeight);
    assert !failed;
    ClampedIsScanned(core, filterAt, from, count, bestBlockHeight, items);
  }

  /**
   * The historical part of a request: refused for exactly four reasons, and otherwise the items of
   * the chain from the block it names, and nothing more can fail.
   */
  method HistoricalScan(core: Core, filterAt: nat -> Filter, request: Request, bestBlockHeight: nat)
    returns (r: Result<seq<Item>>)
    requires WellFormed(core) && bestBlockHeight <= core.tip
    ensures forall error :: r == Err(error) <==> Refused(core, request, error)
    ensures r.Ok? ==> Scanned(core, filterAt, request, bestBlockHeight, r.value)
  {
    var start := FindStart(core, request);
    if start.Err? {
      return Err(start.error);
    }
    var items := ReadRange(core, filterAt, start.value, request.count, bestBlockHeight);
    return Ok(items);
  }
}
