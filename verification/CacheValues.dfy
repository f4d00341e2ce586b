/**
 * The per-client cache of matched transactions, blocks and merkle blocks, with the waiting list
 * for instant locks, as operations on values.
 */
module CacheValues {
  import opened Common
  import opened BloomFilters

  const CACHE_SIZE := 10
  const BLOCKS_TO_STAY_IN_INSTANT_LOCK_CACHE := 10

  /** `hash` stands for the header's hash as well. */
  datatype Block = Block(hash: Hash, transactions: seq<Transaction>)

  /** What a merkle block says: the header, and which of the block's transactions it proves. */
  datatype MerkleBlock = MerkleBlock(headerHash: Hash, txHashes: seq<Hash>, flags: seq<bool>)

  datatype TxEntry = TxEntry(transaction: Transaction, isRetrieved: bool)

  datatype MerkleEntry = MerkleEntry(merkleBlock: MerkleBlock, isRetrieved: bool)

  datatype InstantLock = InstantLock(txid: Hash, signature: Bytes)

  /** What happened to a cached item, for the accounting of the conservation laws. */
  datatype Note =
    | Appended(hash: Hash)         // a transaction entered the cache
    | DroppedUnsent(hash: Hash)    // it left the cache without having been retrieved
    | ProofAppended(hash: Hash)    // a merkle block of that header entered the cache
    | ProofDroppedUnsent(hash: Hash)
    | Registered(hash: Hash)       // a transaction hash entered the waiting list
    | Expired(hash: Hash)          // it left the list because its blocks had passed

  datatype State = State(
    transactions: seq<TxEntry>,
    merkleBlocks: seq<MerkleEntry>,
    blocks: seq<Block>,
    waiting: map<Hash, nat>,
    blocksProcessed: nat,
    locks: seq<InstantLock>,
    history: multiset<Note>)

  const EMPTY := State([], [], [], map[], 0, [], multiset{})

  // ----- projections -----

  function TxHashes(ts: seq<TxEntry>): set<Hash> {
    set e | e in ts :: e.transaction.hash
  }

  function TxIds(b: Block): set<Hash> {
    set t | t in b.transactions :: t.hash
  }

  function BlockIds(bs: seq<Block>): seq<Hash> {
    seq(|bs|, i requires 0 <= i < |bs| => bs[i].hash)
  }

  function ProofIds(ms: seq<MerkleEntry>): seq<Hash> {
    seq(|ms|, i requires 0 <= i < |ms| => ms[i].merkleBlock.headerHash)
  }

  /** The transactions a merkle block proves. */
  function Matched(m: MerkleBlock): set<Hash> {
    set i | 0 <= i < |m.txHashes| && i < |m.flags| && m.flags[i] :: m.txHashes[i]
  }

  // ----- operations on values -----

  function AppendIfNew(c: State, tx: Transaction): State {
    if tx.hash in TxHashes(c.transactions) then c
    else c.(transactions := c.transactions + [TxEntry(tx, false)],
            history := c.history + multiset{Appended(tx.hash)})
  }

  function RegisterIfNew(c: State, h: Hash): State {
    if h in c.waiting then c
    else c.(waiting := c.waiting[h := c.blocksProcessed], history := c.history + multiset{Registered(h)})
  }

  function AddTransaction(c: State, tx: Transaction): State {
    RegisterIfNew(AppendIfNew(c, tx), tx.hash)
  }

  /** The waiting hashes whose blocks have passed once one more block is counted. */
  function Overdue(c: State): set<Hash> {
    set h | h in c.waiting && c.waiting[h] < c.blocksProcessed + 1 - BLOCKS_TO_STAY_IN_INSTANT_LOCK_CACHE
  }

  function ExpiryNotes(hs: set<Hash>): multiset<Note> {
    multiset(set h | h in hs :: Expired(h))
  }

  function CountBlock(c: State): State {
    c.(blocksProcessed := c.blocksProcessed + 1,
       waiting := c.waiting - Overdue(c),
       history := c.history + ExpiryNotes(Overdue(c)))
  }

  predicate HasMatch(c: State, b: Block) {
    exists t :: t in b.transactions && t.hash in TxHashes(c.transactions)
  }

  function BuildMerkleBlock(c: State, b: Block): MerkleBlock {
    MerkleBlock(b.hash,
                seq(|b.transactions|, i requires 0 <= i < |b.transactions| => b.transactions[i].hash),
                seq(|b.transactions|, i requires 0 <= i < |b.transactions| =>
                  b.transactions[i].hash in TxHashes(c.transactions)))
  }

  /** The entries that survive the removal of the given hashes, in order. */
  function Keep(ts: seq<TxEntry>, drop: set<Hash>): seq<TxEntry> {
    if ts == [] then []
    else (if ts[0].transaction.hash in drop then [] else [ts[0]]) + Keep(ts[1..], drop)
  }

  function DropNotes(ts: seq<TxEntry>, drop: set<Hash>): multiset<Note> {
    if ts == [] then multiset{}
    else (if ts[0].transaction.hash in drop && !ts[0].isRetrieved
          then multiset{DroppedUnsent(ts[0].transaction.hash)} else multiset{})
         + DropNotes(ts[1..], drop)
  }

  function ProofDropNotes(ms: seq<MerkleEntry>, i: int): multiset<Note>
    requires -1 <= i < |ms|
  {
    if i >= 0 && !ms[i].isRetrieved then multiset{ProofDroppedUnsent(ms[i].merkleBlock.headerHash)} else multiset{}
  }

  /** The merkle blocks without the last one of that header. */
  function WithoutProof(ms: seq<MerkleEntry>, hash: Hash): seq<MerkleEntry> {
    RemoveAt(ms, LastIndex(ProofIds(ms), hash))
  }

  /** The blocks without the last one of that hash. */
  function WithoutBlock(bs: seq<Block>, hash: Hash): seq<Block> {
    RemoveAt(bs, LastIndex(BlockIds(bs), hash))
  }

  function RemovalNotes(c: State, b: Block): multiset<Note> {
    DropNotes(c.transactions, TxIds(b))
    + ProofDropNotes(c.merkleBlocks, LastIndex(ProofIds(c.merkleBlocks), b.hash))
  }

  function RemoveDataByBlock(c: State, b: Block): State {
    c.(transactions := Keep(c.transactions, TxIds(b)),
       merkleBlocks := WithoutProof(c.merkleBlocks, b.hash),
       blocks := WithoutBlock(c.blocks, b.hash),
       history := c.history + RemovalNotes(c, b))
  }

  function PushBlock(c: State, b: Block): State {
    c.(merkleBlocks := c.merkleBlocks + [MerkleEntry(BuildMerkleBlock(c, b), false)],
       blocks := c.blocks + [b],
       history := c.history + multiset{ProofAppended(b.hash)})
  }

  /** Shifts the oldest block out, with its data. */
  function EvictFirst(c: State): State
    requires c.blocks != []
  {
    RemoveDataByBlock(c.(blocks := c.blocks[1..]), c.blocks[0])
  }

  /** Appends the block and its proof, and makes room when the cache is over its size. */
  function StoreBlock(c: State, b: Block): State {
    var c1 := PushBlock(c, b);
    if |c1.blocks| > CACHE_SIZE then EvictFirst(c1) else c1
  }

  function AddBlock(c: State, b: Block): State {
    var c1 := CountBlock(c);
    if HasMatch(c1, b) then StoreBlock(c1, b) else c1
  }

  /** The first block cached under that hash, if any. */
  function FindBlock(bs: seq<Block>, hash: Hash): (r: Option<Block>)
    ensures r.None? <==> forall b :: b in bs ==> b.hash != hash
    ensures r.Some? ==> r.value in bs && r.value.hash == hash
  {
    if bs == [] then None else if bs[0].hash == hash then Some(bs[0]) else FindBlock(bs[1..], hash)
  }

  function RemoveDataByBlockHash(c: State, hash: Hash): State {
    var b := FindBlock(c.blocks, hash);
    if b.Some? then RemoveDataByBlock(c, b.value) else c
  }

  function RemoveFromWaitingList(c: State, hash: Hash): State {
    c.(waiting := c.waiting - {hash})
  }

  function UnretrievedTransactions(ts: seq<TxEntry>): seq<Transaction> {
    if ts == [] then []
    else (if ts[0].isRetrieved then [] else [ts[0].transaction]) + UnretrievedTransactions(ts[1..])
  }

  function UnretrievedMerkleBlocks(ms: seq<MerkleEntry>): seq<MerkleBlock> {
    if ms == [] then []
    else (if ms[0].isRetrieved then [] else [ms[0].merkleBlock]) + UnretrievedMerkleBlocks(ms[1..])
  }

  function TakeTransactions(c: State): State {
    c.(transactions := seq(|c.transactions|, i requires 0 <= i < |c.transactions| =>
                         c.transactions[i].(isRetrieved := true)))
  }

  function TakeMerkleBlocks(c: State): State {
    c.(merkleBlocks := seq(|c.merkleBlocks|, i requires 0 <= i < |c.merkleBlocks| =>
                         c.merkleBlocks[i].(isRetrieved := true)))
  }

  /** `Map.set`: a txid already present keeps its place and takes the new lock. */
  function PutLock(locks: seq<InstantLock>, lock: InstantLock): seq<InstantLock> {
    if locks == [] then [lock]
    else if locks[0].txid == lock.txid then [lock] + locks[1..]
    else [locks[0]] + PutLock(locks[1..], lock)
  }

  function AddInstantLock(c: State, lock: InstantLock): State {
    c.(locks := PutLock(c.locks, lock))
  }

  function TakeInstantLocks(c: State): State {
    c.(locks := [])
  }
}
