/** Shared facts about sequences and finite sets. */
module Collections {

  function Last<T>(s: seq<T>): T
    requires s != []
  {
    s[|s| - 1]
  }

  function Init<T>(s: seq<T>): seq<T>
    requires s != []
  {
    s[..|s| - 1]
  }

  function ToSet<T(==)>(s: seq<T>): set<T> { set x | x in s }

  predicate Distinct<T(==)>(s: seq<T>) { forall i, j :: 0 <= i < j < |s| ==> s[i] != s[j] }

  lemma {:induction false} DistinctSize<T>(s: seq<T>)
    requires Distinct(s)
    ensures |ToSet(s)| == |s|
  {
    if s != [] {
      DistinctSize(Init(s));
      assert ToSet(s) == ToSet(Init(s)) + {s[|s| - 1]};
      assert s[|s| - 1] !in Init(s);
    }
  }

  lemma {:induction false} SubsetSize<T>(a: set<T>, b: set<T>)
    requires a <= b
    ensures |a| <= |b| && (|a| == |b| ==> a == b)
  {
    if a == {} {
      assert |b| == 0 ==> b == {};
    } else {
      var x :| x in a;
      SubsetSize(a - {x}, b - {x});
      assert a == (a - {x}) + {x} && b == (b - {x}) + {x};
    }
  }

  lemma {:induction false} SubsetOfSize<T>(s: set<T>, n: nat) returns (t: set<T>)
    requires n <= |s|
    ensures t <= s && |t| == n
    decreases |s|
  {
    if n == |s| {
      t := s;
    } else {
      var x :| x in s;
      t := SubsetOfSize(s - {x}, n);
    }
  }

  /** A number outside a finite set. */
  lemma FreshNat(used: set<nat>) returns (x: nat)
    ensures x !in used
  {
    var bound := UpperBound(used);
    x := bound + 1;
  }

  lemma {:induction false} UpperBound(used: set<nat>) returns (b: nat)
    ensures forall x :: x in used ==> x <= b
  {
    if used == {} {
      b := 0;
    } else {
      var x :| x in used;
      var rest := UpperBound(used - {x});
      b := if rest < x then x else rest;
      forall y: nat | y in used ensures y <= b { assert y == x || y in used - {x}; }
    }
  }
}
