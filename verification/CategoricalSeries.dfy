/** Categorical series: one row per (time, category), gaps filled with 0 and units summed into buckets. */
module CategoricalSeries {
  import opened Arithmetic
  import opened Collections
  import opened TimeBuckets

  datatype Point = Point(timestamp: int, category: string, count: int)

  /* ---------- sums ---------- */

  function Total(points: seq<Point>, c: string): int {
    if points == [] then 0
    else Total(points[..|points| - 1], c) +
         if points[|points| - 1].category == c then points[|points| - 1].count else 0
  }

  lemma {:induction false} TotalConcat(a: seq<Point>, b: seq<Point>, c: string)
    ensures Total(a + b, c) == Total(a, c) + Total(b, c)
  {
    if b == [] {
      assert a + b == a;
    } else {
      assert (a + b)[..|a + b| - 1] == a + b[..|b| - 1];
      TotalConcat(a, b[..|b| - 1], c);
    }
  }

  /** A total adds the counts of its category, point by point. */
  lemma TotalGrows(points: seq<Point>, p: Point, c: string)
    ensures Total([], c) == 0
    ensures Total(points + [p], c) == Total(points, c) + if p.category == c then p.count else 0
  {
    assert (points + [p])[..|points|] == points;
  }

  predicate Hits(p: Point, b: Bucket, u: int)
    requires u > 0
  {
    b.Contains(StartOf(p.timestamp, u))
  }

  /** The data points that fall into one bucket, in order. */
  function PointsIn(data: seq<Point>, b: Bucket, u: int): seq<Point>
    requires u > 0
  {
    if data == [] then []
    else
      var front, p := PointsIn(data[..|data| - 1], b, u), data[|data| - 1];
      if Hits(p, b, u) then front + [p] else front
  }

  predicate InSome(p: Point, buckets: seq<Bucket>, u: int)
    requires u > 0
  {
    exists i :: 0 <= i < |buckets| && Hits(p, buckets[i], u)
  }

  /** The data points that fall into no bucket at all. */
  function Unassigned(data: seq<Point>, buckets: seq<Bucket>, u: int): seq<Point>
    requires u > 0
  {
    if data == [] then []
    else
      var front, p := Unassigned(data[..|data| - 1], buckets, u), data[|data| - 1];
      if InSome(p, buckets, u) then front else front + [p]
  }

  ghost predicate Disjoint(buckets: seq<Bucket>, u: int)
    requires u > 0
  {
    forall i, j, t :: 0 <= i < j < |buckets| && buckets[i].Contains(StartOf(t, u)) ==>
      !buckets[j].Contains(StartOf(t, u))
  }

  /** One output row per bucket and category, in order. */
  function SummedRows(data: seq<Point>, buckets: seq<Bucket>, u: int, categories: seq<string>): seq<Point>
    requires u > 0
  {
    if buckets == [] then []
    else
      var b := buckets[|buckets| - 1];
      SummedRows(data, buckets[..|buckets| - 1], u, categories) +
      seq(|categories|, k requires 0 <= k < |categories| =>
            Point(b.end, categories[k], Total(PointsIn(data, b, u), categories[k])))
  }

  /** Each (bucket, category) pair has exactly one row, at its place in the grid. */
  lemma {:induction false} SummedRowAt(data: seq<Point>, buckets: seq<Bucket>, u: int, categories: seq<string>,
                                       i: nat, k: nat)
    requires u > 0 && i < |buckets| && k < |categories|
    ensures |SummedRows(data, buckets, u, categories)| == |buckets| * |categories|
    ensures i * |categories| + k < |buckets| * |categories|
    ensures SummedRows(data, buckets, u, categories)[i * |categories| + k] ==
            Point(buckets[i].end, categories[k], Total(PointsIn(data, buckets[i], u), categories[k]))
    decreases |buckets|
  {
    var n, c := |buckets|, |categories|;
    var front := buckets[..n - 1];
    assert n * c == (n - 1) * c + c;
    Monotone(i, n - 1, c);
    SummedLength(data, front, u, categories);
    if i < n - 1 {
      SummedRowAt(data, front, u, categories, i, k);
      assert front[i] == buckets[i];
    }
  }

  lemma {:induction false} SummedLength(data: seq<Point>, buckets: seq<Bucket>, u: int, categories: seq<string>)
    requires u > 0
    ensures |SummedRows(data, buckets, u, categories)| == |buckets| * |categories|
    decreases |buckets|
  {
    if buckets != [] {
      SummedLength(data, buckets[..|buckets| - 1], u, categories);
      assert |buckets| * |categories| == (|buckets| - 1) * |categories| + |categories|;
    }
  }

  /* ---------- conservation ---------- */

  /** One grid column of a category sums to that category's points in the bucket. */
  lemma {:induction false} ColumnTotal(t: int, sums: string -> int, categories: seq<string>, c: string)
    requires Distinct(categories)
    ensures Total(seq(|categories|, k requires 0 <= k < |categories| => Point(t, categories[k], sums(categories[k]))),
                  c)
         == if c in categories then sums(c) else 0
    decreases |categories|
  {
    var row := seq(|categories|, k requires 0 <= k < |categories| => Point(t, categories[k], sums(categories[k])));
    if categories != [] {
      var front := categories[..|categories| - 1];
      ColumnTotal(t, sums, front, c);
      assert row[..|row| - 1] == seq(|front|, k requires 0 <= k < |front| => Point(t, front[k], sums(front[k])));
      assert categories == front + [categories[|categories| - 1]];
    }
  }

  /** What one point adds over all buckets. */
  function Share(p: Point, buckets: seq<Bucket>, u: int, c: string): int
    requires u > 0
  {
    if buckets == [] then 0
    else
      Share(p, buckets[..|buckets| - 1], u, c) +
      if p.category == c && Hits(p, buckets[|buckets| - 1], u) then p.count else 0
  }

  lemma {:induction false} CountedOnce(p: Point, buckets: seq<Bucket>, u: int, c: string)
    requires u > 0 && Disjoint(buckets, u)
    ensures Share(p, buckets, u, c) == if p.category == c && InSome(p, buckets, u) then p.count else 0
    decreases |buckets|
  {
    if buckets != [] {
      var front, last := buckets[..|buckets| - 1], buckets[|buckets| - 1];
      CountedOnce(p, front, u, c);
      if i :| 0 <= i < |front| && Hits(p, front[i], u) { assert Hits(p, buckets[i], u); }
      if i :| 0 <= i < |buckets| && Hits(p, buckets[i], u) { assert i < |front| ==> Hits(p, front[i], u); }
    }
  }

  function SumOverBuckets(data: seq<Point>, buckets: seq<Bucket>, u: int, c: string): int
    requires u > 0
  {
    if buckets == [] then 0
    else SumOverBuckets(data, buckets[..|buckets| - 1], u, c) + Total(PointsIn(data, buckets[|buckets| - 1], u), c)
  }

  lemma {:induction false} SumOfRows(data: seq<Point>, buckets: seq<Bucket>, u: int, categories: seq<string>, c: string)
    requires u > 0 && Distinct(categories) && c in categories
    ensures Total(SummedRows(data, buckets, u, categories), c) == SumOverBuckets(data, buckets, u, c)
    decreases |buckets|
  {
    if buckets != [] {
      var front, b := buckets[..|buckets| - 1], buckets[|buckets| - 1];
      SumOfRows(data, front, u, categories, c);
      var sums := (x: string) => Total(PointsIn(data, b, u), x);
      ColumnTotal(b.end, sums, categories, c);
      var column :=
        seq(|categories|, k requires 0 <= k < |categories| => Point(b.end, categories[k], sums(categories[k])));
      TotalConcat(SummedRows(data, front, u, categories), column, c);
      assert SummedRows(data, buckets, u, categories) == SummedRows(data, front, u, categories) + column;
    }
  }

  lemma PointsInGrows(data: seq<Point>, b: Bucket, u: int, c: string)
    requires u > 0 && data != []
    ensures var p := data[|data| - 1];
            Total(PointsIn(data, b, u), c) ==
            Total(PointsIn(data[..|data| - 1], b, u), c) + if p.category == c && Hits(p, b, u) then p.count else 0
  {
    var p, before := data[|data| - 1], PointsIn(data[..|data| - 1], b, u);
    if Hits(p, b, u) {
      assert PointsIn(data, b, u) == before + [p];
      assert (before + [p])[..|before|] == before;
    }
  }

  lemma {:induction false} OneMorePoint(data: seq<Point>, buckets: seq<Bucket>, u: int, c: string)
    requires u > 0 && data != []
    ensures SumOverBuckets(data, buckets, u, c) ==
            SumOverBuckets(data[..|data| - 1], buckets, u, c) + Share(data[|data| - 1], buckets, u, c)
    decreases |buckets|
  {
    if buckets != [] {
      OneMorePoint(data, buckets[..|buckets| - 1], u, c);
      PointsInGrows(data, buckets[|buckets| - 1], u, c);
    }
  }

  /** Nothing is counted twice: the buckets hold everything except the unassigned points. */
  lemma {:induction false} Conserved(data: seq<Point>, buckets: seq<Bucket>, u: int, c: string)
    requires u > 0 && Disjoint(buckets, u)
    ensures SumOverBuckets(data, buckets, u, c) + Total(Unassigned(data, buckets, u), c) == Total(data, c)
    decreases |data|
  {
    if data == [] {
      NoData(buckets, u, c);
    } else {
      var front, p := data[..|data| - 1], data[|data| - 1];
      Conserved(front, buckets, u, c);
      OneMorePoint(data, buckets, u, c);
      CountedOnce(p, buckets, u, c);
      var lost := Unassigned(front, buckets, u);
      assert (lost + [p])[..|lost|] == lost;
    }
  }

  lemma {:induction false} NoData(buckets: seq<Bucket>, u: int, c: string)
    requires u > 0
    ensures SumOverBuckets([], buckets, u, c) == 0
    decreases |buckets|
  {
    if buckets != [] { NoData(buckets[..|buckets| - 1], u, c); }
  }

  lemma {:induction false} AllAssigned(data: seq<Point>, buckets: seq<Bucket>, u: int)
    requires u > 0 && forall p :: p in data ==> InSome(p, buckets, u)
    ensures Unassigned(data, buckets, u) == []
    decreases |data|
  {
    if data != [] {
      assert data[|data| - 1] in data;
      AllAssigned(data[..|data| - 1], buckets, u);
    }
  }

  /* ---------- the bucket walk feeds the sums ---------- */

  /** `buckets` is what the backward walk from `to` builds. */
  predicate Walked(buckets: seq<Bucket>, from: int, to: int, count: int, u: int)
    requires count >= 2 && u > 0
  {
    && |buckets| == BucketCount(from, to, count, u)
    && forall i :: 0 <= i < |buckets| ==> buckets[i] == BucketAt(to, count, u, |buckets| - 1 - i)
  }

  lemma WalkedDisjoint(buckets: seq<Bucket>, from: int, to: int, count: int, u: int)
    requires count >= 2 && u > 0 && Walked(buckets, from, to, count, u)
    ensures Disjoint(buckets, u)
  {
    forall i, j, t | 0 <= i < j < |buckets| && buckets[i].Contains(StartOf(t, u))
      ensures !buckets[j].Contains(StartOf(t, u))
    {
      BucketsDisjoint(to, count, u, |buckets| - 1 - j, |buckets| - 1 - i, t / u);
    }
  }

  lemma WalkedCovers(buckets: seq<Bucket>, from: int, to: int, count: int, u: int, p: Point)
    requires count >= 2 && u > 0 && Walked(buckets, from, to, count, u)
    ensures InSome(p, buckets, u) <==> CoveredIndex(from, to, count, u, p.timestamp / u)
  {
    var n, j := |buckets|, p.timestamp / u;
    if i :| 0 <= i < n && Hits(p, buckets[i], u) {
      var m := n - 1 - i;
      assert BucketAt(to, count, u, m).Contains(j * u);
    }
    if m :| 0 <= m < n && BucketAt(to, count, u, m).Contains(j * u) {
      assert Hits(p, buckets[n - 1 - m], u);
    }
  }

  /** What the multi-unit aggregation keeps and loses, per category, for every input. */
  lemma MultiUnitBalance(data: seq<Point>, buckets: seq<Bucket>, from: int, to: int, count: int, u: int,
                         categories: seq<string>, c: string)
    requires count >= 2 && u > 0 && Walked(buckets, from, to, count, u) && Distinct(categories) && c in categories
    ensures Total(SummedRows(data, buckets, u, categories), c) + Total(Unassigned(data, buckets, u), c)
              == Total(data, c)
  {
    WalkedDisjoint(buckets, from, to, count, u);
    SumOfRows(data, buckets, u, categories, c);
    Conserved(data, buckets, u, c);
  }

  /** Conservation: with a unit-aligned end, all normalized timestamps in the range and fewer than the
      maximum number of buckets, every category keeps its total. */
  lemma MultiUnitConserves(data: seq<Point>, buckets: seq<Bucket>, from: int, to: int, count: int, u: int,
                           categories: seq<string>, c: string)
    requires count >= 2 && u > 0 && Walked(buckets, from, to, count, u) && Distinct(categories) && c in categories
    requires to % u == 0 && count * u > 0 && (to - from) / (count * u) < MAX_ITERATIONS
    requires forall p :: p in data ==> from <= StartOf(p.timestamp, u) <= to
    ensures Total(SummedRows(data, buckets, u, categories), c) == Total(data, c)
  {
    MultiUnitBalance(data, buckets, from, to, count, u, categories, c);
    forall p | p in data ensures InSome(p, buckets, u) {
      WalkedCovers(buckets, from, to, count, u, p);
      CoverageInRange(from, to, count, u, p.timestamp / u);
    }
    AllAssigned(data, buckets, u);
  }

  /** With an unaligned end, the units congruent to the one after the end are in no bucket. */
  predicate InGap(p: Point, to: int, count: int, u: int)
    requires count >= 2 && u > 0
  {
    to % u != 0 && (p.timestamp / u - (to / u + 1)) % count == 0
  }

  /** For data inside the range and counts that are not negative: a category keeps its total exactly when none of
      its points with a positive count lies in a gap. */
  lemma KeepsTotalIff(data: seq<Point>, buckets: seq<Bucket>, from: int, to: int, count: int, u: int,
                      categories: seq<string>, c: string)
    requires count >= 2 && u > 0 && Walked(buckets, from, to, count, u) && Distinct(categories) && c in categories
    requires count * u > 0 && (to - from) / (count * u) < MAX_ITERATIONS
    requires forall p :: p in data ==> from <= StartOf(p.timestamp, u) <= to && p.count >= 0
    ensures Total(SummedRows(data, buckets, u, categories), c) == Total(data, c) <==>
            forall p :: p in data && p.category == c && p.count > 0 ==> !InGap(p, to, count, u)
  {
    MultiUnitBalance(data, buckets, from, to, count, u, categories, c);
    NothingLostIff(data, buckets, u, c);
    forall p | p in data
      ensures Assigned(p, buckets, u, c) <==> (p.category == c && p.count > 0 ==> !InGap(p, to, count, u))
    {
      InSomeIffIndex(p, buckets, from, to, count, u);
    }
  }

  lemma LostGrows(data: seq<Point>, buckets: seq<Bucket>, u: int, c: string)
    requires u > 0 && data != []
    ensures var p := data[|data| - 1];
            Total(Unassigned(data, buckets, u), c) ==
            Total(Unassigned(data[..|data| - 1], buckets, u), c)
            + if p.category == c && !InSome(p, buckets, u) then p.count else 0
  {
    var p, lost := data[|data| - 1], Unassigned(data[..|data| - 1], buckets, u);
    assert (lost + [p])[..|lost|] == lost;
  }

  predicate Assigned(p: Point, buckets: seq<Bucket>, u: int, c: string)
    requires u > 0
  {
    p.category == c && p.count > 0 ==> InSome(p, buckets, u)
  }

  /** With no negative count, nothing of a category is lost exactly when each of its positive points is assigned. */
  lemma {:induction false} NothingLostIff(data: seq<Point>, buckets: seq<Bucket>, u: int, c: string)
    requires u > 0 && forall p :: p in data ==> p.count >= 0
    ensures Total(Unassigned(data, buckets, u), c) >= 0
    ensures Total(Unassigned(data, buckets, u), c) == 0 <==> forall p :: p in data ==> Assigned(p, buckets, u, c)
    decreases |data|
  {
    if data != [] {
      var front, p := data[..|data| - 1], data[|data| - 1];
      assert data == front + [p];
      NothingLostIff(front, buckets, u, c);
      LostGrows(data, buckets, u, c);
      assert p in data;
    }
  }

  lemma InSomeIffIndex(p: Point, buckets: seq<Bucket>, from: int, to: int, count: int, u: int)
    requires count >= 2 && u > 0 && Walked(buckets, from, to, count, u)
    requires count * u > 0 && (to - from) / (count * u) < MAX_ITERATIONS && from <= StartOf(p.timestamp, u) <= to
    ensures InSome(p, buckets, u) <==> to % u == 0 || (p.timestamp / u - (to / u + 1)) % count != 0
  {
    WalkedCovers(buckets, from, to, count, u, p);
    CoverageInRange(from, to, count, u, p.timestamp / u);
  }
}
