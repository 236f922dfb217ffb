/** Splitting a text at every occurrence of a separator, leftmost first, as JavaScript's `String.split` does. */
module TextSplit {
  import opened Collections

  /** The characters that JavaScript's `trim` removes. */
  predicate IsSpace(c: char) {
    var n := c as int;
    9 <= n <= 13 || n in {32, 160, 5760, 8232, 8233, 8239, 8287, 12288, 65279} || 8192 <= n <= 8202
  }

  predicate At(s: string, sep: string, i: int) {
    0 <= i && i + |sep| <= |s| && s[i..i + |sep|] == sep
  }

  /** The first occurrence of the separator at or after `i`, or -1. */
  function FindFrom(s: string, sep: string, i: nat): (r: int)
    requires i <= |s|
    ensures r >= 0 ==> r >= i && At(s, sep, r) && forall j :: i <= j < r ==> !At(s, sep, j)
    ensures r < 0 ==> r == -1 && forall j :: i <= j ==> !At(s, sep, j)
    decreases |s| - i
  {
    if i + |sep| > |s| then -1
    else if At(s, sep, i) then i
    else if i == |s| then -1
    else FindFrom(s, sep, i + 1)
  }

  function Find(s: string, sep: string): int { FindFrom(s, sep, 0) }

  lemma FoundAt(s: string, sep: string, i: nat)
    requires At(s, sep, i) && forall j :: 0 <= j < i ==> !At(s, sep, j)
    ensures Find(s, sep) == i
  {
    assert Find(s, sep) >= 0;
  }

  /** Appending text never moves the first occurrence. */
  lemma FindInPrefix(a: string, b: string, sep: string)
    requires Find(a, sep) >= 0
    ensures Find(a + b, sep) == Find(a, sep)
  {
    var i := Find(a, sep);
    forall j | 0 <= j <= i ensures At(a + b, sep, j) <==> At(a, sep, j) {
      assert (a + b)[j..j + |sep|] == a[j..j + |sep|];
    }
    FoundAt(a + b, sep, i);
  }

  function Split(s: string, sep: string): (r: seq<string>)
    requires sep != []
    ensures |r| >= 1
    decreases |s|
  {
    var i := Find(s, sep);
    if i < 0 then [s] else [s[..i]] + Split(s[i + |sep|..], sep)
  }

  function Join(parts: seq<string>, sep: string): string
    requires parts != []
  {
    if |parts| == 1 then parts[0] else parts[0] + sep + Join(parts[1..], sep)
  }

  /** A part that a leftmost split would produce: the separator after it is the first one in sight. */
  predicate CleanPart(part: string, sep: string) { Find(part + sep, sep) == |part| }

  predicate IsSplit(parts: seq<string>, s: string, sep: string) {
    && parts != [] && Join(parts, sep) == s
    && (forall k :: 0 <= k < |parts| - 1 ==> CleanPart(parts[k], sep))
    && Find(Last(parts), sep) < 0
  }

  lemma Pieces(a: string, sep: string, b: string)
    ensures (a + sep + b)[..|a|] == a && (a + sep + b)[|a| + |sep|..] == b
  {
  }

  lemma CutAt(s: string, i: nat, n: nat)
    requires i + n <= |s|
    ensures s == s[..i] + s[i..i + n] + s[i + n..]
    ensures s[..i] + s[i..i + n] == s[..i + n]
  {
  }

  /** The part before the first separator is clean. */
  lemma HeadIsClean(s: string, sep: string)
    requires Find(s, sep) >= 0
    ensures CleanPart(s[..Find(s, sep)], sep)
  {
    var i := Find(s, sep);
    var t := s[..i] + sep;
    CutAt(s, i, |sep|);
    forall j | 0 <= j <= i ensures At(t, sep, j) == At(s, sep, j) { assert t[j..j + |sep|] == s[j..j + |sep|]; }
    FoundAt(t, sep, i);
  }

  /** A clean part in front is split off first. */
  lemma SplitCons(head: string, rest: string, sep: string)
    requires sep != [] && CleanPart(head, sep)
    ensures Split(head + sep + rest, sep) == [head] + Split(rest, sep)
  {
    FindInPrefix(head + sep, rest, sep);
    Pieces(head, sep, rest);
  }

  lemma IsSplitCons(head: string, tail: seq<string>, s: string, sep: string)
    requires CleanPart(head, sep) && IsSplit(tail, s, sep)
    ensures IsSplit([head] + tail, head + sep + s, sep)
  {
    var parts := [head] + tail;
    assert parts[1..] == tail;
  }

  lemma IsSplitTail(parts: seq<string>, s: string, sep: string)
    requires IsSplit(parts, s, sep) && |parts| > 1
    ensures CleanPart(parts[0], sep) && IsSplit(parts[1..], Join(parts[1..], sep), sep)
    ensures s == parts[0] + sep + Join(parts[1..], sep)
  {
    assert Last(parts[1..]) == Last(parts);
  }

  lemma {:induction false} SplitIsSplit(s: string, sep: string)
    requires sep != []
    ensures IsSplit(Split(s, sep), s, sep)
    decreases |s|
  {
    var i := Find(s, sep);
    if i >= 0 {
      var rest := s[i + |sep|..];
      SplitIsSplit(rest, sep);
      HeadIsClean(s, sep);
      CutAt(s, i, |sep|);
      IsSplitCons(s[..i], Split(rest, sep), rest, sep);
    }
  }

  /** The split is the only way to cut the text into clean parts. */
  lemma {:induction false} SplitIsUnique(parts: seq<string>, s: string, sep: string)
    requires sep != [] && IsSplit(parts, s, sep)
    ensures parts == Split(s, sep)
    decreases |parts|
  {
    if |parts| > 1 {
      IsSplitTail(parts, s, sep);
      SplitIsUnique(parts[1..], Join(parts[1..], sep), sep);
      SplitCons(parts[0], Join(parts[1..], sep), sep);
    }
  }

  lemma WithoutChar(s: string, c: char)
    requires c !in s
    ensures Find(s, [c]) < 0 && CleanPart(s, [c])
  {
    forall j | 0 <= j < |s| ensures !At(s, [c], j) && !At(s + [c], [c], j) {
      assert s[j..j + 1] == [s[j]] && (s + [c])[j..j + 1] == [s[j]];
    }
    assert (s + [c])[|s|..|s| + 1] == [c];
    FoundAt(s + [c], [c], |s|);
  }

  /** Splitting `a + b` keeps every finished part of `a`; only the last, unfinished part meets `b`. */
  lemma {:induction false} SplitConcat(a: string, b: string, sep: string)
    requires sep != []
    ensures Split(a + b, sep) == Init(Split(a, sep)) + Split(Last(Split(a, sep)) + b, sep)
    decreases |a|
  {
    var i := Find(a, sep);
    if i < 0 {
      assert Init([a]) == [];
    } else {
      var head, rest := a[..i], a[i + |sep|..];
      HeadIsClean(a, sep);
      CutAt(a, i, |sep|);
      Regroup(head, sep, rest, b);
      SplitCons(head, rest + b, sep);
      SplitConcat(rest, b, sep);
      InitLast([head], Split(rest, sep), Split(Last(Split(rest, sep)) + b, sep));
    }
  }

  lemma Regroup(head: string, sep: string, rest: string, b: string)
    ensures head + sep + rest + b == head + sep + (rest + b)
  {
  }

  lemma InitLast<T>(a: seq<T>, b: seq<T>, c: seq<T>)
    requires b != []
    ensures Last(a + b) == Last(b) && Init(a + b) + c == a + (Init(b) + c)
  {
    assert Init(a + b) == a + Init(b);
  }
}
