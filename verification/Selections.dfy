/** Choosing elements of a sequence in their order, said of positions and not of the loop that does it. */
module Selections {

  ghost predicate Ascending(ps: seq<nat>) {
    forall i, j :: 0 <= i < j < |ps| ==> ps[i] < ps[j]
  }

  ghost predicate GivenAt<T, U>(r: seq<U>, s: seq<T>, gives: (T, U) -> bool, ps: seq<nat>) {
    |ps| == |r| && forall i :: 0 <= i < |ps| ==> ps[i] < |s| && gives(s[ps[i]], r[i])
  }

  ghost predicate Gives<T, U(!new)>(x: T, gives: (T, U) -> bool) {
    exists u :: gives(x, u)
  }

  ghost predicate AllAt<T, U(!new)>(s: seq<T>, gives: (T, U) -> bool, ps: seq<nat>) {
    forall k :: 0 <= k < |s| && Gives(s[k], gives) ==> k in ps
  }

  /** `ps` are, in order, exactly the positions of `s` that give something, and `r` is what they give. */
  ghost predicate SelectedAt<T, U(!new)>(r: seq<U>, s: seq<T>, gives: (T, U) -> bool, ps: seq<nat>) {
    Ascending(ps) && GivenAt(r, s, gives, ps) && AllAt(s, gives, ps)
  }

  ghost predicate Selected<T, U(!new)>(r: seq<U>, s: seq<T>, gives: (T, U) -> bool) {
    exists ps: seq<nat> :: SelectedAt(r, s, gives, ps)
  }

  function Later(ps: seq<nat>): seq<nat> {
    seq(|ps|, i requires 0 <= i < |ps| => ps[i] + 1)
  }

  lemma NothingSelected<T, U(!new)>(gives: (T, U) -> bool)
    ensures Selected([], [], gives)
  {
    var none: seq<nat> := [];
    assert SelectedAt([], [], gives, none);
  }

  /** A position after the first is one of the rest. */
  lemma LaterHas(ps: seq<nat>, k: nat)
    requires k > 0 && k - 1 in ps
    ensures k in Later(ps)
  {
    var i :| 0 <= i < |ps| && ps[i] == k - 1;
    assert Later(ps)[i] == k;
  }

  /** The positions of the rest, and the first one if it is taken. */
  function Positions(taken: bool, ps: seq<nat>): (all: seq<nat>)
    ensures |all| == |ps| + if taken then 1 else 0
  {
    (if taken then [0] else []) + Later(ps)
  }

  lemma PositionsAscend(taken: bool, ps: seq<nat>)
    requires Ascending(ps)
    ensures Ascending(Positions(taken, ps))
  {
  }

  lemma PositionsCover<T, U(!new)>(s: seq<T>, gives: (T, U) -> bool, taken: bool, ps: seq<nat>)
    requires s != [] && AllAt(s[1..], gives, ps) && (Gives(s[0], gives) ==> taken)
    ensures AllAt(s, gives, Positions(taken, ps))
  {
    var all := Positions(taken, ps);
    forall k | 0 <= k < |s| && Gives(s[k], gives) ensures k in all {
      if k == 0 {
        assert all[0] == k;
      } else {
        assert s[1..][k - 1] == s[k];
        LaterHas(ps, k);
      }
    }
  }

  lemma PositionsGive<T, U(!new)>(s: seq<T>, head: seq<U>, rest: seq<U>, gives: (T, U) -> bool, ps: seq<nat>)
    requires s != [] && GivenAt(rest, s[1..], gives, ps) && |head| <= 1 && (head != [] ==> gives(s[0], head[0]))
    ensures GivenAt(head + rest, s, gives, Positions(head != [], ps))
  {
    var all := Positions(head != [], ps);
    forall i | 0 <= i < |all| ensures all[i] < |s| && gives(s[all[i]], (head + rest)[i]) {
      if i >= |head| {
        assert all[i] == ps[i - |head|] + 1 && s[all[i]] == s[1..][ps[i - |head|]];
      }
    }
  }

  /** The first element gives `head`, which is one element or none, and the others give `rest`. */
  lemma SelectedFirst<T, U(!new)>(s: seq<T>, head: seq<U>, rest: seq<U>, gives: (T, U) -> bool)
    requires s != [] && Selected(rest, s[1..], gives) && |head| <= 1
    requires if head == [] then !Gives(s[0], gives) else gives(s[0], head[0])
    ensures Selected(head + rest, s, gives)
  {
    var ps :| SelectedAt(rest, s[1..], gives, ps);
    PositionsAscend(head != [], ps);
    PositionsCover(s, gives, head != [], ps);
    PositionsGive(s, head, rest, gives, ps);
    assert SelectedAt(head + rest, s, gives, Positions(head != [], ps));
  }

  /** Nothing that gives something is left out. */
  lemma NothingLeftOut<T, U(!new)>(r: seq<U>, s: seq<T>, gives: (T, U) -> bool, k: nat)
    requires Selected(r, s, gives) && k < |s| && Gives(s[k], gives)
    ensures exists u :: u in r && gives(s[k], u)
  {
    var ps :| SelectedAt(r, s, gives, ps);
    var i :| 0 <= i < |ps| && ps[i] == k;
    assert r[i] in r;
  }
}
