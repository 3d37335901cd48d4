/** Reading a set of identifiers in ascending order, a bounded number at a time. */
module Ordered {

  lemma {:induction false} MinExists(s: set<nat>)
    requires s != {}
    ensures exists m :: m in s && forall x :: x in s ==> m <= x
  {
    var y :| y in s;
    var rest := s - {y};
    if rest != {} {
      MinExists(rest);
      var m :| m in rest && forall x :: x in rest ==> m <= x;
      var least := if y < m then y else m;
      forall x | x in s ensures least <= x {
        if x != y { assert x in rest; }
      }
      assert least in s;
    } else {
      assert s == {y};
    }
  }

  function Min(s: set<nat>): (m: nat)
    requires s != {}
    ensures m in s && forall x :: x in s ==> m <= x
  {
    MinExists(s);
    var m :| m in s && forall x :: x in s ==> m <= x;
    m
  }

  /** The k smallest members in ascending order, or all of them when there are fewer. */
  function FirstK(s: set<nat>, k: nat): seq<nat>
    decreases k
  {
    if k == 0 || s == {} then [] else [Min(s)] + FirstK(s - {Min(s)}, k - 1)
  }

  ghost predicate Ascending(xs: seq<nat>) { forall i, j :: 0 <= i < j < |xs| ==> xs[i] < xs[j] }

  function SetOf(xs: seq<nat>): set<nat> { set x | x in xs }

  lemma SetOfCons(x: nat, xs: seq<nat>)
    ensures SetOf([x] + xs) == {x} + SetOf(xs)
  {
  }

  /** What FirstK picks is part of s, and everything it leaves is larger than everything it picks. */
  lemma {:induction false} FirstKLowest(s: set<nat>, k: nat)
    ensures SetOf(FirstK(s, k)) <= s
    ensures forall x, y :: x in SetOf(FirstK(s, k)) && y in s && y !in SetOf(FirstK(s, k)) ==> x < y
    decreases k
  {
    if k == 0 || s == {} {
    } else {
      var m, rest := Min(s), FirstK(s - {Min(s)}, k - 1);
      FirstKLowest(s - {m}, k - 1);
      SetOfCons(m, rest);
      forall x, y | x in SetOf(FirstK(s, k)) && y in s && y !in SetOf(FirstK(s, k)) ensures x < y {
        if x == m {
          assert m <= y && m in SetOf([m] + rest);
        } else {
          assert x in SetOf(rest) && y in s - {m};
        }
      }
    }
  }

  lemma {:induction false} FirstKAscending(s: set<nat>, k: nat)
    ensures Ascending(FirstK(s, k))
    decreases k
  {
    if k == 0 || s == {} {
    } else {
      var m, rest := Min(s), FirstK(s - {Min(s)}, k - 1);
      FirstKAscending(s - {m}, k - 1);
      FirstKLowest(s - {m}, k - 1);
      forall i | 0 <= i < |rest| ensures m < rest[i] {
        assert rest[i] in SetOf(rest);
      }
    }
  }

  lemma {:induction false} FirstKLength(s: set<nat>, k: nat)
    ensures |FirstK(s, k)| == if |s| <= k then |s| else k
    decreases k
  {
    if k == 0 || s == {} {
    } else {
      FirstKLength(s - {Min(s)}, k - 1);
    }
  }

  lemma {:induction false} SetOfSize(xs: seq<nat>)
    requires Ascending(xs)
    ensures |SetOf(xs)| == |xs|
  {
    if xs == [] {
    } else {
      SetOfSize(xs[1..]);
      SetOfCons(xs[0], xs[1..]);
      assert xs == [xs[0]] + xs[1..];
    }
  }

  /** It picks k members, or all of them when there are fewer. */
  lemma FirstKSize(s: set<nat>, k: nat)
    ensures |FirstK(s, k)| == |SetOf(FirstK(s, k))| == if |s| <= k then |s| else k
    ensures |s - SetOf(FirstK(s, k))| == if |s| <= k then 0 else |s| - k
  {
    FirstKLowest(s, k);
    FirstKAscending(s, k);
    FirstKLength(s, k);
    SetOfSize(FirstK(s, k));
  }
}
