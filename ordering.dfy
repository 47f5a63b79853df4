/** Python's `sorted(...)` over the keys of a dict: integer hours, and (hour, interval) pairs in
    lexicographic order. */
module Ordering {

  lemma Element<T>(s: set<T>) returns (y: T)
    requires s != {}
    ensures y in s
  {
    assert |s| > 0;
    y :| y in s;
  }

  predicate StrictlyIncreasing(s: seq<int>) {
    forall i, j :: 0 <= i < j < |s| ==> s[i] < s[j]
  }

  lemma {:induction false} LeastOf(s: set<int>) returns (m: int)
    requires s != {}
    ensures m in s && forall x :: x in s ==> m <= x
    decreases |s|
  {
    var y := Element(s);
    var rest := s - {y};
    if rest == {} {
      m := y;
      forall x | x in s
        ensures x == y
      {
        assert x !in rest;
      }
    } else {
      var least := LeastOf(rest);
      m := if y < least then y else least;
      forall x | x in s
        ensures m <= x
      {
        if x != y {
          assert x in rest;
        }
      }
    }
  }

  lemma MinExists(s: set<int>)
    requires s != {}
    ensures exists m :: m in s && forall x :: x in s ==> m <= x
  {
    var m := LeastOf(s);
  }

  ghost function Least(s: set<int>): (m: int)
    requires s != {}
    ensures m in s && forall x :: x in s ==> m <= x
  {
    MinExists(s);
    var m :| m in s && forall x :: x in s ==> m <= x; m
  }

  /** The elements of `s` in ascending order. */
  ghost function Ascending(s: set<int>): seq<int>
    decreases |s|
  {
    if s == {} then [] else [Least(s)] + Ascending(s - {Least(s)})
  }

  /** `Ascending(s)` lists every element of `s` once, in increasing order. */
  lemma {:induction false} AscendingSpec(s: set<int>)
    ensures StrictlyIncreasing(Ascending(s))
    ensures |Ascending(s)| == |s|
    ensures forall x :: x in Ascending(s) <==> x in s
    decreases |s|
  {
    if s != {} {
      var m := Least(s);
      AscendingSpec(s - {m});
      var rest := Ascending(s - {m});
      var r := Ascending(s);
      assert r == [m] + rest;
      forall i, j | 0 <= i < j < |r|
        ensures r[i] < r[j]
      {
        assert r[j] == rest[j - 1] && rest[j - 1] in s - {m};
        if i > 0 {
          assert r[i] == rest[i - 1];
        }
      }
    }
  }

  lemma AscendingFromLeast(s: set<int>, m: int)
    requires m in s && forall x :: x in s ==> m <= x
    ensures Ascending(s) == [m] + Ascending(s - {m})
  {
    assert Least(s) == m;
  }

  /** `sorted(keys)`: repeatedly take the least key not yet listed. */
  method Sorted(s: set<int>) returns (r: seq<int>)
    ensures r == Ascending(s)
  {
    r := [];
    var left := s;
    while left != {}
      invariant r + Ascending(left) == Ascending(s)
      decreases |left|
    {
      MinExists(left);
      var m :| m in left && forall x :: x in left ==> m <= x;
      AscendingFromLeast(left, m);
      r, left := r + [m], left - {m};
    }
  }

  /** Lexicographic order on (hour, interval) keys, as Python compares tuples. */
  predicate PairLess(a: (int, int), b: (int, int)) {
    a.0 < b.0 || (a.0 == b.0 && a.1 < b.1)
  }

  predicate PairsIncreasing(s: seq<(int, int)>) {
    forall i, j :: 0 <= i < j < |s| ==> PairLess(s[i], s[j])
  }

  predicate IsLeastPair(m: (int, int), s: set<(int, int)>) {
    m in s && forall x :: x in s && x != m ==> PairLess(m, x)
  }

  lemma {:induction false} LeastPairOf(s: set<(int, int)>) returns (m: (int, int))
    requires s != {}
    ensures IsLeastPair(m, s)
    decreases |s|
  {
    var y := Element(s);
    var rest := s - {y};
    if rest == {} {
      m := y;
      forall x | x in s
        ensures x == y
      {
        assert x !in rest;
      }
    } else {
      var least := LeastPairOf(rest);
      m := if PairLess(y, least) then y else least;
      forall x | x in s && x != m
        ensures PairLess(m, x)
      {
        if x != y {
          assert x in rest;
        }
      }
    }
  }

  lemma LeastPairExists(s: set<(int, int)>)
    requires s != {}
    ensures exists m :: IsLeastPair(m, s)
  {
    var m := LeastPairOf(s);
  }

  ghost function LeastPair(s: set<(int, int)>): (m: (int, int))
    requires s != {}
    ensures IsLeastPair(m, s)
  {
    LeastPairExists(s);
    var m :| IsLeastPair(m, s); m
  }

  /** The keys of `s` in ascending lexicographic order. */
  ghost function AscendingPairs(s: set<(int, int)>): seq<(int, int)>
    decreases |s|
  {
    if s == {} then [] else [LeastPair(s)] + AscendingPairs(s - {LeastPair(s)})
  }

  /** `AscendingPairs(s)` lists every key of `s` once, in increasing lexicographic order. */
  lemma {:induction false} AscendingPairsSpec(s: set<(int, int)>)
    ensures PairsIncreasing(AscendingPairs(s))
    ensures |AscendingPairs(s)| == |s|
    ensures forall x :: x in AscendingPairs(s) <==> x in s
    decreases |s|
  {
    if s != {} {
      var m := LeastPair(s);
      AscendingPairsSpec(s - {m});
      var rest := AscendingPairs(s - {m});
      var r := AscendingPairs(s);
      assert r == [m] + rest;
      forall i, j | 0 <= i < j < |r|
        ensures PairLess(r[i], r[j])
      {
        assert r[j] == rest[j - 1] && rest[j - 1] in s - {m};
        if i > 0 {
          assert r[i] == rest[i - 1];
        }
      }
    }
  }

  lemma AscendingPairsFromLeast(s: set<(int, int)>, m: (int, int))
    requires IsLeastPair(m, s)
    ensures AscendingPairs(s) == [m] + AscendingPairs(s - {m})
  {
    assert LeastPair(s) == m;
  }

  /** `sorted(actuals.items())`, on the keys. */
  method SortedPairs(s: set<(int, int)>) returns (r: seq<(int, int)>)
    ensures r == AscendingPairs(s)
  {
    r := [];
    var left := s;
    while left != {}
      invariant r + AscendingPairs(left) == AscendingPairs(s)
      decreases |left|
    {
      LeastPairExists(left);
      var m :| IsLeastPair(m, left);
      AscendingPairsFromLeast(left, m);
      r, left := r + [m], left - {m};
    }
  }
}
