/** Small shared vocabulary: options, bytes, and the removal idiom of JavaScript arrays. */
module Common {
  datatype Option<+T> = None | Some(value: T)

  type byte = b: int | 0 <= b < 0x100
  type Bytes = seq<byte>

  /** A transaction or block hash, as the buffer its hex string denotes. */
  type Hash = Bytes

  /** An example of a hash, of the 32 bytes that double SHA-256 gives. */
  function HashOf(n: byte): (r: Hash)
    ensures |r| == 32 && forall i :: 0 <= i < 32 ==> r[i] == n
  {
    seq(32, _ => n)
  }

  /** The position of the last occurrence of `x`, or -1: the element a backward loop with `break` stops at. */
  function LastIndex<T(==)>(s: seq<T>, x: T): (r: int)
    ensures -1 <= r < |s|
    ensures r >= 0 ==> s[r] == x && forall k :: r < k < |s| ==> s[k] != x
    ensures r < 0 <==> x !in s
  {
    if s == [] then -1
    else if s[|s| - 1] == x then |s| - 1
    else
      var r := LastIndex(s[..|s| - 1], x);
      assert s == s[..|s| - 1] + [s[|s| - 1]];
      r
  }

  lemma LastIndexIs<T>(s: seq<T>, x: T, i: int)
    requires -1 <= i < |s|
    requires i >= 0 ==> s[i] == x
    requires forall k :: i < k < |s| ==> s[k] != x
    ensures LastIndex(s, x) == i
  {
  }

  /** `splice(i, 1)`, where -1 stands for "nothing found". */
  function RemoveAt<T>(s: seq<T>, i: int): seq<T>
    requires -1 <= i < |s|
  {
    if i < 0 then s else s[..i] + s[i + 1..]
  }

  /** Removing one occurrence lowers the multiplicity of that element by one and of no other. */
  lemma RemoveAtMultiset<T>(s: seq<T>, i: int)
    requires -1 <= i < |s|
    ensures multiset(RemoveAt(s, i)) == if i < 0 then multiset(s) else multiset(s) - multiset{s[i]}
  {
    if i >= 0 {
      assert s == s[..i] + [s[i]] + s[i + 1..];
    }
  }

  lemma RemoveLastCount<T>(s: seq<T>, x: T, y: T)
    ensures multiset(RemoveAt(s, LastIndex(s, x)))[y] == multiset(s)[y] - if y == x && x in s then 1 else 0
  {
    RemoveAtMultiset(s, LastIndex(s, x));
  }

  /** `off`: an element that does not occur again is its own last occurrence ... */
  lemma LastAt<T>(s: seq<T>, i: nat)
    requires i < |s| && s[i] !in s[i + 1..]
    ensures LastIndex(s, s[i]) == i
  {
    forall k | i < k < |s| ensures s[k] != s[i] {
      assert s[i + 1..][k - i - 1] == s[k];
    }
    LastIndexIs(s, s[i], i);
  }

  /** ... and its removal from the front of `b` leaves the rest of `b` behind `a`. */
  lemma RemoveHead<T>(a: seq<T>, b: seq<T>)
    requires b != []
    ensures RemoveAt(a + b, |a|) == a + b[1..]
  {
    assert (a + b)[..|a|] == a;
    assert (a + b)[|a| + 1..] == b[1..];
  }

  // ----- sequences without repetition, and removal from them -----

  ghost predicate NoRepeats<T>(s: seq<T>) {
    forall i, j :: 0 <= i < j < |s| ==> s[i] != s[j]
  }

  lemma NoRepeatsRemoveAt<T>(s: seq<T>, k: int)
    requires NoRepeats(s) && -1 <= k < |s|
    ensures NoRepeats(RemoveAt(s, k))
  {
    var r := RemoveAt(s, k);
    forall i, j | 0 <= i < j < |r| ensures r[i] != r[j] {
      assert r[i] == s[Origin(i, k)] && r[j] == s[Origin(j, k)];
    }
  }

  lemma NoRepeatsConcat<T>(a: seq<T>, b: seq<T>)
    requires NoRepeats(a) && NoRepeats(b) && forall x :: x in b ==> x !in a
    ensures NoRepeats(a + b)
  {
    forall i, j | 0 <= i < j < |a + b| ensures (a + b)[i] != (a + b)[j] {
      if i < |a| <= j {
        assert (a + b)[j] in b;
      }
    }
  }

  /** Where the element at `i` stands once position `k` has been removed. */
  function Shifted(i: nat, k: int): (j: nat)
    requires i != k && k >= -1
    ensures j == i || j == i - 1
  {
    if k < 0 || i < k then i else i - 1
  }

  lemma RemoveAtShifts<T>(s: seq<T>, k: int, i: nat)
    requires -1 <= k < |s| && i < |s| && i != k
    ensures Shifted(i, k) < |RemoveAt(s, k)| && RemoveAt(s, k)[Shifted(i, k)] == s[i]
  {
  }

  /** Where the element at `j` stood before position `k` was removed. */
  function Origin(j: nat, k: int): (i: nat)
    requires k >= -1
    ensures i != k && Shifted(i, k) == j
  {
    if k < 0 || j < k then j else j + 1
  }

  /** An element that stays is the last of its value exactly if it was, unless the removed one had that value. */
  lemma LastAfterRemoval<T>(s: seq<T>, k: int, i: nat, x: T)
    requires -1 <= k < |s| && i < |s| && i != k
    ensures LastIndex(s, x) == i ==> LastIndex(RemoveAt(s, k), x) == Shifted(i, k)
    ensures LastIndex(RemoveAt(s, k), x) == Shifted(i, k) && (k < 0 || s[k] != x) ==> LastIndex(s, x) == i
  {
    var r, j := RemoveAt(s, k), Shifted(i, k);
    RemoveAtShifts(s, k, i);
    if LastIndex(s, x) == i {
      forall l | j < l < |r| ensures r[l] != x {
        assert r[l] == s[Origin(l, k)];
      }
      LastIndexIs(r, x, j);
    } else if LastIndex(r, x) == j && (k < 0 || s[k] != x) {
      forall l | i < l < |s| ensures s[l] != x {
        if l != k {
          RemoveAtShifts(s, k, l);
        }
      }
      LastIndexIs(s, x, i);
    }
  }
}
