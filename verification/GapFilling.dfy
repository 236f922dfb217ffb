/** fillCategoricalTimeSeriesGaps: the loops of the source, proved against the grid and the sums. */
module GapFilling {
  import opened Arithmetic
  import opened Collections
  import opened TimeBuckets
  import opened CategoricalSeries

  /* ---------- categories ---------- */

  /** Distinct categories in order of first appearance. */
  function Categories(data: seq<Point>): seq<string> {
    if data == [] then []
    else
      var front, c := Categories(data[..|data| - 1]), data[|data| - 1].category;
      if c in front then front else front + [c]
  }

  lemma {:induction false} CategoriesMeaning(data: seq<Point>)
    ensures Distinct(Categories(data))
    ensures forall c :: c in Categories(data) <==> exists i :: 0 <= i < |data| && data[i].category == c
  {
    if data != [] {
      var front := data[..|data| - 1];
      CategoriesMeaning(front);
      forall c ensures c in Categories(data) <==> exists i :: 0 <= i < |data| && data[i].category == c {
        if i :| 0 <= i < |data| && data[i].category == c { assert i < |front| ==> front[i].category == c; }
        if c in Categories(front) {
          var i :| 0 <= i < |front| && front[i].category == c;
          assert data[i].category == c;
        }
      }
    }
  }

  /* ---------- multi-unit: assign, sum, emit ---------- */

  /** Categories come in the order of their first data points. */
  lemma {:induction false} CategoriesInOrder(data: seq<Point>, n: nat)
    requires n <= |data|
    ensures Categories(data[..n]) <= Categories(data)
    decreases |data|
  {
    if n == |data| {
      assert data[..n] == data;
    } else {
      var front := data[..|data| - 1];
      CategoriesInOrder(front, n);
      assert front[..n] == data[..n];
    }
  }

  function Walk(from: int, to: int, count: int, u: int): seq<Bucket>
    requires count >= 2 && u > 0
  {
    var n := BucketCount(from, to, count, u);
    seq(n, i requires 0 <= i < n => BucketAt(to, count, u, n - 1 - i))
  }

  method AssignPoints(data: seq<Point>, buckets: seq<Bucket>, u: int) returns (lists: seq<seq<Point>>)
    requires u > 0 && Disjoint(buckets, u)
    ensures |lists| == |buckets| && forall i :: 0 <= i < |buckets| ==> lists[i] == PointsIn(data, buckets[i], u)
  {
    lists := seq(|buckets|, i => []);
    for d := 0 to |data|
      invariant |lists| == |buckets|
      invariant forall i :: 0 <= i < |buckets| ==> lists[i] == PointsIn(data[..d], buckets[i], u)
    {
      var ts := StartOf(data[d].timestamp, u);
      var i := 0;
      while i < |buckets| && !buckets[i].Contains(ts)
        invariant 0 <= i <= |buckets|
        invariant forall k :: 0 <= k < i ==> !Hits(data[d], buckets[k], u)
      {
        i := i + 1;
      }
      assert data[..d + 1][..d] == data[..d];
      if i < |buckets| { lists := lists[i := lists[i] + [data[d]]]; }
    }
    assert data[..|data|] == data;
  }

  method SumByCategory(points: seq<Point>, categories: seq<string>) returns (sums: map<string, int>)
    ensures forall c :: c in categories ==> c in sums && sums[c] == Total(points, c)
  {
    sums := map[];
    for k := 0 to |categories|
      invariant forall c :: c in sums <==> c in categories[..k]
      invariant forall c :: c in sums ==> sums[c] == 0
    {
      sums := sums[categories[k] := 0];
    }
    for d := 0 to |points|
      invariant forall c :: c in categories ==> c in sums
      invariant forall c :: c in sums ==> sums[c] == Total(points[..d], c)
      invariant forall c :: c !in sums ==> Total(points[..d], c) == 0
    {
      var p := points[d];
      assert points[..d + 1][..d] == points[..d];
      var current := if p.category in sums then sums[p.category] else 0;
      sums := sums[p.category := current + p.count];
    }
    assert points[..|points|] == points;
  }

  method EmitRows(end: int, categories: seq<string>, sums: map<string, int>) returns (rows: seq<Point>)
    requires forall c :: c in categories ==> c in sums
    ensures |rows| == |categories|
    ensures forall k :: 0 <= k < |rows| ==> rows[k] == Point(end, categories[k], sums[categories[k]])
  {
    rows := [];
    for k := 0 to |categories|
      invariant |rows| == k
      invariant forall j :: 0 <= j < k ==> rows[j] == Point(end, categories[j], sums[categories[j]])
    {
      rows := rows + [Point(end, categories[k], sums[categories[k]])];
    }
  }

  method AggregateIntoBuckets(data: seq<Point>, from: int, to: int, count: int, u: int, categories: seq<string>)
    returns (rows: seq<Point>)
    requires count >= 2 && u > 0
    ensures rows == if data == [] then [] else SummedRows(data, Walk(from, to, count, u), u, categories)
  {
    if data == [] { return []; }
    var buckets := BuildBuckets(from, to, count, u);
    assert buckets == Walk(from, to, count, u);
    WalkedDisjoint(buckets, from, to, count, u);
    var lists := AssignPoints(data, buckets, u);
    rows := [];
    for i := 0 to |buckets|
      invariant rows == SummedRows(data, buckets[..i], u, categories)
    {
      var sums := SumByCategory(lists[i], categories);
      var more := EmitRows(buckets[i].end, categories, sums);
      assert buckets[..i + 1][..i] == buckets[..i];
      assert more == seq(|categories|, k requires 0 <= k < |categories| =>
                           Point(buckets[i].end, categories[k], Total(PointsIn(data, buckets[i], u), categories[k])));
      rows := rows + more;
    }
    assert buckets[..|buckets|] == buckets;
  }

  /* ---------- single unit: the grid ---------- */

  /** Count of the last data point at a grid time, 0 without one. */
  function LastAt(data: seq<Point>, t: int, c: string, u: int): int
    requires u > 0
  {
    if data == [] then 0
    else
      var p := data[|data| - 1];
      if StartOf(p.timestamp, u) == t && p.category == c then p.count else LastAt(data[..|data| - 1], t, c, u)
  }

  predicate InCell(p: Point, t: int, c: string, u: int)
    requires u > 0
  {
    StartOf(p.timestamp, u) == t && p.category == c
  }

  lemma {:induction false} EmptyCellIsZero(data: seq<Point>, t: int, c: string, u: int)
    requires u > 0 && forall i :: 0 <= i < |data| ==> !InCell(data[i], t, c, u)
    ensures LastAt(data, t, c, u) == 0
    decreases |data|
  {
    if data != [] { EmptyCellIsZero(data[..|data| - 1], t, c, u); }
  }

  /** A cell holds the count of the last data point of its unit and category, and 0 without one. */
  lemma {:induction false} LastInCell(data: seq<Point>, t: int, c: string, u: int, i: nat)
    requires u > 0 && i < |data| && InCell(data[i], t, c, u)
    requires forall j :: i < j < |data| ==> !InCell(data[j], t, c, u)
    ensures LastAt(data, t, c, u) == data[i].count
    decreases |data|
  {
    if i < |data| - 1 { LastInCell(data[..|data| - 1], t, c, u, i); }
  }

  function GridSize(from: int, to: int, u: int): nat
    requires u > 0
  {
    var n := to / u - from / u + 1;
    if n < 0 then 0 else n
  }

  function GridTime(from: int, u: int, k: int): int
    requires u > 0
  {
    (from / u + k) * u
  }

  /** One row per grid time and category. */
  function GridRows(data: seq<Point>, from: int, u: int, categories: seq<string>, n: nat): seq<Point>
    requires u > 0
  {
    if n == 0 then []
    else
      GridRows(data, from, u, categories, n - 1) +
      seq(|categories|, k requires 0 <= k < |categories| =>
            Point(GridTime(from, u, n - 1), categories[k], LastAt(data, GridTime(from, u, n - 1), categories[k], u)))
  }

  method IndexPoints(data: seq<Point>, u: int) returns (index: map<int, map<string, int>>)
    requires u > 0
    ensures forall t, c :: (if t in index && c in index[t] then index[t][c] else 0) == LastAt(data, t, c, u)
  {
    index := map[];
    for d := 0 to |data|
      invariant forall t, c :: (if t in index && c in index[t] then index[t][c] else 0) == LastAt(data[..d], t, c, u)
    {
      var p := data[d];
      var ts := StartOf(p.timestamp, u);
      assert data[..d + 1][..d] == data[..d];
      if ts !in index { index := index[ts := map[]]; }
      index := index[ts := index[ts][p.category := p.count]];
    }
    assert data[..|data|] == data;
  }

  method FillGrid(data: seq<Point>, from: int, to: int, u: int, categories: seq<string>) returns (rows: seq<Point>)
    requires u > 0
    ensures rows == GridRows(data, from, u, categories, GridSize(from, to, u))
  {
    var index := IndexPoints(data, u);
    var last := StartOf(to, u);
    var currentTime := StartOf(from, u);
    ghost var n := 0;
    rows := [];
    while currentTime <= last
      invariant currentTime == GridTime(from, u, n)
      invariant 0 <= n <= GridSize(from, to, u)
      invariant rows == GridRows(data, from, u, categories, n)
      decreases GridSize(from, to, u) - n
    {
      Below(from / u + n, to / u, u);
      var more: seq<Point> := [];
      for k := 0 to |categories|
        invariant |more| == k
        invariant forall j :: 0 <= j < k ==>
                    more[j] == Point(currentTime, categories[j], LastAt(data, currentTime, categories[j], u))
      {
        var c := categories[k];
        var count := if currentTime in index && c in index[currentTime] then index[currentTime][c] else 0;
        more := more + [Point(currentTime, c, count)];
      }
      rows := rows + more;
      n := n + 1;
      currentTime := currentTime + u;
      assert GridTime(from, u, n) == GridTime(from, u, n - 1) + u;
    }
    Below(from / u + n, to / u, u);
  }

  lemma Below(a: int, b: int, u: int)
    requires u > 0
    ensures a * u <= b * u <==> a <= b
  {
    Monotone(a, b, u);
    Monotone(b + 1, a, u);
  }

  /** The times of a grid: from the start of the first unit to that of the last, one unit apart. */
  lemma GridSpan(from: int, to: int, u: int)
    requires u > 0
    ensures GridTime(from, u, 0) == StartOf(from, u)
    ensures forall k, l :: l == k + 1 ==> GridTime(from, u, l) == GridTime(from, u, k) + u
    ensures GridSize(from, to, u) > 0 <==> StartOf(from, u) <= StartOf(to, u)
    ensures GridSize(from, to, u) > 0 ==> GridTime(from, u, GridSize(from, to, u) - 1) == StartOf(to, u)
  {
    forall k, l | l == k + 1 ensures GridTime(from, u, l) == GridTime(from, u, k) + u {
      assert (from / u + (k + 1)) * u == (from / u + k) * u + u;
    }
    Below(from / u, to / u, u);
  }

  /** The output is a full grid: row k * |categories| + j is (k-th time, j-th category), and there is
      nothing else. */
  lemma {:induction false} FullGrid(data: seq<Point>, from: int, u: int, categories: seq<string>, n: nat, k: nat,
                                    j: nat)
    requires u > 0 && k < n && j < |categories|
    ensures |GridRows(data, from, u, categories, n)| == n * |categories| && k * |categories| + j < n * |categories|
    ensures GridRows(data, from, u, categories, n)[k * |categories| + j] ==
            Point(GridTime(from, u, k), categories[j], LastAt(data, GridTime(from, u, k), categories[j], u))
    decreases n
  {
    var c := |categories|;
    assert n * c == (n - 1) * c + c;
    GridLength(data, from, u, categories, n - 1);
    Monotone(k, n - 1, c);
    if k < n - 1 {
      Monotone(k + 1, n - 1, c);
      FullGrid(data, from, u, categories, n - 1, k, j);
    }
  }

  lemma {:induction false} GridLength(data: seq<Point>, from: int, u: int, categories: seq<string>, n: nat)
    requires u > 0
    ensures |GridRows(data, from, u, categories, n)| == n * |categories|
    decreases n
  {
    if n > 0 {
      GridLength(data, from, u, categories, n - 1);
      assert n * |categories| == (n - 1) * |categories| + |categories|;
    }
  }

  /* ---------- the grid keeps the totals ---------- */

  /** At most one row per normalized time and category. */
  predicate OnePerCell(data: seq<Point>, u: int)
    requires u > 0
  {
    forall i, j :: 0 <= i < j < |data| && data[i].category == data[j].category
                   ==> StartOf(data[i].timestamp, u) != StartOf(data[j].timestamp, u)
  }

  function GridBuckets(from: int, u: int, n: nat): seq<Bucket>
    requires u > 0
  {
    seq(n, k requires 0 <= k < n => Bucket(GridTime(from, u, k), GridTime(from, u, k)))
  }

  lemma {:induction false} EmptyCell(data: seq<Point>, t: int, c: string, u: int)
    requires u > 0
    requires forall i :: 0 <= i < |data| && data[i].category == c ==> StartOf(data[i].timestamp, u) != t
    ensures Total(PointsIn(data, Bucket(t, t), u), c) == 0
    decreases |data|
  {
    if data != [] {
      EmptyCell(data[..|data| - 1], t, c, u);
      PointsInGrows(data, Bucket(t, t), u, c);
    }
  }

  lemma {:induction false} CellIsLast(data: seq<Point>, t: int, c: string, u: int)
    requires u > 0 && OnePerCell(data, u)
    ensures LastAt(data, t, c, u) == Total(PointsIn(data, Bucket(t, t), u), c)
    decreases |data|
  {
    if data != [] {
      var front := data[..|data| - 1];
      PointsInGrows(data, Bucket(t, t), u, c);
      if StartOf(data[|data| - 1].timestamp, u) == t && data[|data| - 1].category == c {
        EmptyCell(front, t, c, u);
      } else {
        CellIsLast(front, t, c, u);
      }
    }
  }

  lemma {:induction false} GridIsSummed(data: seq<Point>, from: int, u: int, categories: seq<string>, n: nat)
    requires u > 0 && OnePerCell(data, u)
    ensures GridRows(data, from, u, categories, n) == SummedRows(data, GridBuckets(from, u, n), u, categories)
    decreases n
  {
    if n > 0 {
      GridIsSummed(data, from, u, categories, n - 1);
      assert GridBuckets(from, u, n)[..n - 1] == GridBuckets(from, u, n - 1);
      forall k | 0 <= k < |categories|
        ensures LastAt(data, GridTime(from, u, n - 1), categories[k], u)
             == Total(PointsIn(data, GridBuckets(from, u, n)[n - 1], u), categories[k])
      {
        CellIsLast(data, GridTime(from, u, n - 1), categories[k], u);
      }
    }
  }

  lemma GridBucketsDisjoint(from: int, u: int, n: nat)
    requires u > 0
    ensures Disjoint(GridBuckets(from, u, n), u)
  {
    var buckets := GridBuckets(from, u, n);
    forall i, j, t | 0 <= i < j < n && buckets[i].Contains(StartOf(t, u)) ensures !buckets[j].Contains(StartOf(t, u)) {
      Below(from / u + j, from / u + i, u);
    }
  }

  lemma GridBucketHit(from: int, to: int, u: int, p: Point)
    requires u > 0 && StartOf(from, u) <= StartOf(p.timestamp, u) <= StartOf(to, u)
    ensures InSome(p, GridBuckets(from, u, GridSize(from, to, u)), u)
  {
    Below(from / u, p.timestamp / u, u);
    Below(p.timestamp / u, to / u, u);
    var k := p.timestamp / u - from / u;
    assert Hits(p, GridBuckets(from, u, GridSize(from, to, u))[k], u);
  }

  /** Per-category totals survive gap filling when no cell holds two rows and all lie in the range. */
  lemma GridConserves(data: seq<Point>, from: int, to: int, u: int, c: string)
    requires u > 0 && OnePerCell(data, u) && c in Categories(data)
    requires forall p :: p in data ==> StartOf(from, u) <= StartOf(p.timestamp, u) <= StartOf(to, u)
    ensures Total(GridRows(data, from, u, Categories(data), GridSize(from, to, u)), c) == Total(data, c)
  {
    var n := GridSize(from, to, u);
    var buckets := GridBuckets(from, u, n);
    CategoriesMeaning(data);
    GridIsSummed(data, from, u, Categories(data), n);
    GridBucketsDisjoint(from, u, n);
    SumOfRows(data, buckets, u, Categories(data), c);
    Conserved(data, buckets, u, c);
    forall p | p in data ensures InSome(p, buckets, u) { GridBucketHit(from, to, u, p); }
    AllAssigned(data, buckets, u);
    assert Total([], c) == 0;
  }

  /* ---------- weeks: the same grid measured from a Monday ---------- */

  function Shift(data: seq<Point>, delta: int): seq<Point> {
    seq(|data|, i requires 0 <= i < |data| => data[i].(timestamp := data[i].timestamp + delta))
  }

  lemma {:induction false} ShiftKeeps(data: seq<Point>, delta: int, c: string)
    ensures Total(Shift(data, delta), c) == Total(data, c) && Categories(Shift(data, delta)) == Categories(data)
    decreases |data|
  {
    if data != [] {
      var front := data[..|data| - 1];
      ShiftKeeps(front, delta, c);
      assert Shift(data, delta)[..|data| - 1] == Shift(front, delta);
    }
  }

  /** Row k * |categories| + j of a weekly series belongs to the k-th week and the j-th category, and holds the count of
      the last data point there. */
  lemma WeekRowAt(data: seq<Point>, from: int, to: int, categories: seq<string>, k: nat, j: nat)
    requires StartOfWeek(from) + k * WEEK <= StartOfWeek(to) && j < |categories|
    ensures var rows := WeekRows(data, from, to, categories);
            && k * |categories| + j < |rows|
            && rows[k * |categories| + j].timestamp == StartOfWeek(from) + k * WEEK
            && rows[k * |categories| + j].category == categories[j]
            && rows[k * |categories| + j].count
               == LastAt(Shift(data, -MONDAY), StartOfWeek(from) - MONDAY + k * WEEK, categories[j], WEEK)
  {
    var n := GridSize(from - MONDAY, to - MONDAY, WEEK);
    assert ((from - MONDAY) / WEEK + k) * WEEK == (from - MONDAY) / WEEK * WEEK + k * WEEK;
    Below((from - MONDAY) / WEEK + k, (to - MONDAY) / WEEK, WEEK);
    FullGrid(Shift(data, -MONDAY), from - MONDAY, WEEK, categories, n, k, j);
  }

  /** One row per category for each week from the one of `from` to the one of `to`. */
  function WeekRows(data: seq<Point>, from: int, to: int, categories: seq<string>): seq<Point> {
    Shift(GridRows(Shift(data, -MONDAY), from - MONDAY, WEEK, categories, GridSize(from - MONDAY, to - MONDAY, WEEK)),
        MONDAY)
  }

  /** Weekly gap filling keeps every category's total when no week holds two rows of one category and all
      weeks are in the range. */
  lemma WeeksConserve(data: seq<Point>, from: int, to: int, c: string)
    requires c in Categories(data)
    requires forall i, j :: 0 <= i < j < |data| && data[i].category == data[j].category
                            ==> StartOfWeek(data[i].timestamp) != StartOfWeek(data[j].timestamp)
    requires forall p :: p in data ==> StartOfWeek(from) <= StartOfWeek(p.timestamp) <= StartOfWeek(to)
    ensures Total(WeekRows(data, from, to, Categories(data)), c) == Total(data, c)
  {
    var shifted := Shift(data, -MONDAY);
    ShiftKeeps(data, -MONDAY, c);
    forall p | p in shifted
      ensures StartOf(from - MONDAY, WEEK) <= StartOf(p.timestamp, WEEK) <= StartOf(to - MONDAY, WEEK)
    {
      var i :| 0 <= i < |shifted| && shifted[i] == p;
      assert data[i] in data;
    }
    GridConserves(shifted, from - MONDAY, to - MONDAY, WEEK, c);
    ShiftKeeps(GridRows(shifted, from - MONDAY, WEEK, Categories(data), GridSize(from - MONDAY, to - MONDAY, WEEK)),
        MONDAY, c);
  }

  /* ---------- the entry point ---------- */

  method FillCategoricalTimeSeriesGaps(data: seq<Point>, from: int, to: int, count: nat, unit: Unit)
    returns (rows: seq<Point>)
    requires count >= 1
    ensures rows == if data == [] then []
                    else if count == 1 then
                      GridRows(data, from, UnitLength(unit), Categories(data), GridSize(from, to, UnitLength(unit)))
                    else if count == 7 && unit == Day then WeekRows(data, from, to, Categories(data))
                    else SummedRows(data, Walk(from, to, count, UnitLength(unit)), UnitLength(unit), Categories(data))
  {
    var categories: seq<string> := [];
    for d := 0 to |data|
      invariant categories == Categories(data[..d])
    {
      assert data[..d + 1][..d] == data[..d];
      if data[d].category !in categories { categories := categories + [data[d].category]; }
    }
    assert data[..|data|] == data;
    if |categories| == 0 {
      return [];
    }
    if count == 1 {
      rows := FillGrid(data, from, to, UnitLength(unit), categories);
    } else if IsWeek(count, unit) {
      rows := FillGrid(Shift(data, -MONDAY), from - MONDAY, to - MONDAY, WEEK, categories);
      rows := Shift(rows, MONDAY);
    } else {
      rows := AggregateIntoBuckets(data, from, to, count, UnitLength(unit), categories);
    }
  }
}
