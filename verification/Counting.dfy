/** Counting items of the cache and of the message stream, and what the cache operations do to the counts. */
module Counting {
  import opened Common
  import opened BloomFilters
  import opened CacheValues
  import opened SessionValues

  function Count<T>(s: seq<T>, p: T -> bool): nat {
    if s == [] then 0 else (if p(s[0]) then 1 else 0) + Count(s[1..], p)
  }

  lemma {:induction false} CountConcat<T>(a: seq<T>, b: seq<T>, p: T -> bool)
    ensures Count(a + b, p) == Count(a, p) + Count(b, p)
  {
    if a == [] {
      assert a + b == b;
    } else {
      assert (a + b)[1..] == a[1..] + b;
      CountConcat(a[1..], b, p);
    }
  }

  lemma {:induction false} CountNone<T>(s: seq<T>, p: T -> bool)
    requires forall x :: x in s ==> !p(x)
    ensures Count(s, p) == 0
  {
    if s != [] {
      CountNone(s[1..], p);
    }
  }

  lemma CountRemoveAt<T>(s: seq<T>, i: int, p: T -> bool)
    requires -1 <= i < |s|
    ensures Count(s, p) == Count(RemoveAt(s, i), p) + if i >= 0 && p(s[i]) then 1 else 0
  {
    if i >= 0 {
      var a, b := s[..i], s[i..];
      assert s == a + b && b[1..] == s[i + 1..];
      CountConcat(a, b, p);
      CountConcat(a, b[1..], p);
    }
  }

  // ----- what is counted -----

  function TransactionOf(h: Hash): Message -> bool {
    (m: Message) => m.TransactionMsg? && m.transaction.hash == h
  }

  function ProofOf(h: Hash): Message -> bool {
    (m: Message) => m.ProofMsg? && m.merkleBlock.headerHash == h
  }

  function LockOf(h: Hash, collected: bool): Message -> bool {
    (m: Message) => m.LockMsg? && m.lock.txid == h && m.collected == collected
  }

  function UnsentTransaction(h: Hash): TxEntry -> bool {
    (e: TxEntry) => e.transaction.hash == h && !e.isRetrieved
  }

  function UnsentProof(h: Hash): MerkleEntry -> bool {
    (e: MerkleEntry) => e.merkleBlock.headerHash == h && !e.isRetrieved
  }

  function LockFor(h: Hash): InstantLock -> bool {
    (l: InstantLock) => l.txid == h
  }

  // ----- removal -----

  lemma {:induction false} KeepCount(ts: seq<TxEntry>, drop: set<Hash>, h: Hash)
    ensures Count(ts, UnsentTransaction(h))
            == Count(Keep(ts, drop), UnsentTransaction(h)) + DropNotes(ts, drop)[DroppedUnsent(h)]
    ensures forall n :: n in DropNotes(ts, drop) ==> n.DroppedUnsent?
  {
    if ts != [] {
      KeepCount(ts[1..], drop, h);
      var head := if ts[0].transaction.hash in drop then [] else [ts[0]];
      CountConcat(head, Keep(ts[1..], drop), UnsentTransaction(h));
    }
  }

  /** The removal loop leaves exactly the entries outside the block, flags included. */
  lemma {:induction false} KeepMembers(ts: seq<TxEntry>, drop: set<Hash>, e: TxEntry)
    ensures e in Keep(ts, drop) <==> e in ts && e.transaction.hash !in drop
  {
    if ts != [] {
      KeepMembers(ts[1..], drop, e);
      assert ts == [ts[0]] + ts[1..];
    }
  }

  function EntryIds(ts: seq<TxEntry>): seq<Hash> {
    seq(|ts|, i requires 0 <= i < |ts| => ts[i].transaction.hash)
  }

  ghost predicate Distinct(ts: seq<TxEntry>) {
    NoRepeats(EntryIds(ts))
  }

  /** ... and in their order: two survivors stand as they stood. */
  lemma {:induction false} KeepOrder(ts: seq<TxEntry>, drop: set<Hash>, i: nat, j: nat)
    requires i < j < |Keep(ts, drop)|
    ensures exists i', j' :: 0 <= i' < j' < |ts| && ts[i'] == Keep(ts, drop)[i] && ts[j'] == Keep(ts, drop)[j]
  {
    var rest := Keep(ts[1..], drop);
    if ts[0].transaction.hash in drop {
      KeepOrder(ts[1..], drop, i, j);
      var i', j' :| 0 <= i' < j' < |ts[1..]| && ts[1..][i'] == rest[i] && ts[1..][j'] == rest[j];
      assert ts[i' + 1] == Keep(ts, drop)[i] && ts[j' + 1] == Keep(ts, drop)[j];
    } else if i == 0 {
      KeepMembers(ts[1..], drop, rest[j - 1]);
      var j' :| 0 <= j' < |ts[1..]| && ts[1..][j'] == rest[j - 1];
      assert ts[0] == Keep(ts, drop)[i] && ts[j' + 1] == Keep(ts, drop)[j];
    } else {
      KeepOrder(ts[1..], drop, i - 1, j - 1);
      var i', j' :| 0 <= i' < j' < |ts[1..]| && ts[1..][i'] == rest[i - 1] && ts[1..][j'] == rest[j - 1];
      assert ts[i' + 1] == Keep(ts, drop)[i] && ts[j' + 1] == Keep(ts, drop)[j];
    }
  }

  lemma KeepDistinct(ts: seq<TxEntry>, drop: set<Hash>)
    requires Distinct(ts)
    ensures Distinct(Keep(ts, drop))
  {
    var ids, kept := EntryIds(ts), EntryIds(Keep(ts, drop));
    forall i, j | 0 <= i < j < |kept| ensures kept[i] != kept[j] {
      KeepOrder(ts, drop, i, j);
      var i', j' :| 0 <= i' < j' < |ts| && ts[i'] == Keep(ts, drop)[i] && ts[j'] == Keep(ts, drop)[j];
      assert ids[i'] == kept[i] && ids[j'] == kept[j];
    }
  }

  lemma {:induction false} DistinctCount(ts: seq<TxEntry>, h: Hash)
    requires Distinct(ts)
    ensures Count(ts, UnsentTransaction(h))
            == if exists e :: e in ts && e.transaction.hash == h && !e.isRetrieved then 1 else 0
  {
    if ts != [] {
      var ids := EntryIds(ts);
      assert EntryIds(ts[1..]) == ids[1..];
      DistinctCount(ts[1..], h);
      assert ts == [ts[0]] + ts[1..];
      if UnsentTransaction(h)(ts[0]) {
        assert ts[0] in ts;
        forall k | 0 < k < |ts| ensures ts[k].transaction.hash != h {
          assert ids[0] == h && ids[k] == ts[k].transaction.hash;
        }
      }
    }
  }

  // ----- the sets of hashes -----

  lemma KeepHashes(ts: seq<TxEntry>, drop: set<Hash>)
    ensures TxHashes(Keep(ts, drop)) == TxHashes(ts) - drop
  {
    forall e: TxEntry ensures e in Keep(ts, drop) <==> e in ts && e.transaction.hash !in drop {
      KeepMembers(ts, drop, e);
    }
  }

  lemma MatchedByBuild(c: State, b: Block)
    ensures Matched(BuildMerkleBlock(c, b)) == TxIds(b) * TxHashes(c.transactions)
  {
    var m := BuildMerkleBlock(c, b);
    forall h | h in TxIds(b) * TxHashes(c.transactions) ensures h in Matched(m) {
      var t :| t in b.transactions && t.hash == h;
      var i :| 0 <= i < |b.transactions| && b.transactions[i] == t;
      assert m.flags[i] && m.txHashes[i] == h;
    }
  }

  lemma AddedHashes(c: State, tx: Transaction)
    ensures TxHashes(AddTransaction(c, tx).transactions) == TxHashes(c.transactions) + {tx.hash}
  {
    var added := c.transactions + [TxEntry(tx, false)];
    assert added[|c.transactions|] in added;
    assert forall e :: e in added <==> e in c.transactions || e == TxEntry(tx, false);
  }

  lemma TakenHashes(c: State)
    ensures TxHashes(TakeTransactions(c).transactions) == TxHashes(c.transactions)
  {
    var ts, us := c.transactions, TakeTransactions(c).transactions;
    forall h | h in TxHashes(ts) ensures h in TxHashes(us) {
      var i :| 0 <= i < |ts| && ts[i].transaction.hash == h;
      assert us[i] in us;
    }
  }

  // ----- retrieval -----

  lemma {:induction false} UnretrievedCount(ts: seq<TxEntry>, h: Hash)
    ensures Count(TransactionMsgs(UnretrievedTransactions(ts)), TransactionOf(h)) == Count(ts, UnsentTransaction(h))
  {
    if ts != [] {
      UnretrievedCount(ts[1..], h);
      var head := if ts[0].isRetrieved then [] else [ts[0].transaction];
      var rest := UnretrievedTransactions(ts[1..]);
      assert TransactionMsgs(head + rest) == TransactionMsgs(head) + TransactionMsgs(rest);
      CountConcat(TransactionMsgs(head), TransactionMsgs(rest), TransactionOf(h));
    }
  }

  lemma {:induction false} UnretrievedProofCount(ms: seq<MerkleEntry>, h: Hash)
    ensures Count(ProofMsgs(UnretrievedMerkleBlocks(ms)), ProofOf(h)) == Count(ms, UnsentProof(h))
  {
    if ms != [] {
      UnretrievedProofCount(ms[1..], h);
      var head := if ms[0].isRetrieved then [] else [ms[0].merkleBlock];
      var rest := UnretrievedMerkleBlocks(ms[1..]);
      assert ProofMsgs(head + rest) == ProofMsgs(head) + ProofMsgs(rest);
      CountConcat(ProofMsgs(head), ProofMsgs(rest), ProofOf(h));
    }
  }

  // ----- collected locks -----

  lemma {:induction false} LockMsgsCount(locks: seq<InstantLock>, waiting: set<Hash>, h: Hash)
    ensures Count(LockMsgs(locks, waiting), LockOf(h, true)) == if h in waiting then Count(locks, LockFor(h)) else 0
    ensures forall m :: m in LockMsgs(locks, waiting) ==> m.LockMsg? && m.collected && m.lock.txid in waiting
  {
    if locks != [] {
      LockMsgsCount(locks[1..], waiting, h);
      var head := if locks[0].txid in waiting then [LockMsg(locks[0], true)] else [];
      CountConcat(head, LockMsgs(locks[1..], waiting), LockOf(h, true));
    }
  }

  lemma {:induction false} PutLockCount(locks: seq<InstantLock>, lock: InstantLock, h: Hash)
    ensures Count(PutLock(locks, lock), LockFor(h))
            == if h == lock.txid && Count(locks, LockFor(h)) == 0 then 1 else Count(locks, LockFor(h))
  {
    if locks != [] {
      PutLockCount(locks[1..], lock, h);
      CountConcat([lock], locks[1..], LockFor(h));
      CountConcat([locks[0]], PutLock(locks[1..], lock), LockFor(h));
    }
  }
}
