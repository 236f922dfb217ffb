/** Backward buckets over fixed-length units (web/src/utils/fill-time-series-gaps.ts).

    Time is integer milliseconds; `u` is the length of one unit (second, minute, hour or day). */
module TimeBuckets {
  import opened Arithmetic

  /** Units of one fixed length; `count` units make one interval of a series. */
  datatype Unit = Second | Minute | Hour | Day

  const WEEK: int := 7 * 86_400_000

  /** A Monday midnight. */
  const MONDAY: int := 4 * 86_400_000

  function UnitLength(unit: Unit): (u: int)
    ensures u > 0
  {
    match unit
    case Second => 1_000
    case Minute => 60_000
    case Hour => 3_600_000
    case Day => 86_400_000
  }

  /** Seven-day intervals are weeks: they are not walked backwards but start on Mondays. */
  predicate IsWeek(count: nat, unit: Unit) { count == 7 && unit == Day }

  function StartOfWeek(t: int): int { StartOf(t - MONDAY, WEEK) + MONDAY }

  /** The start of a week is the last Monday midnight that is not later. */
  lemma WeekMeaning(t: int)
    ensures StartOfWeek(t) <= t < StartOfWeek(t) + WEEK && (StartOfWeek(t) - MONDAY) % WEEK == 0
  {
    Division(t - MONDAY, WEEK);
  }

  /** Sixty seconds, sixty minutes, twenty-four hours, seven days; 5 January 1970 was a Monday. */
  lemma UnitsNest()
    ensures UnitLength(Second) == 1000 && UnitLength(Minute) == 60 * UnitLength(Second)
    ensures UnitLength(Hour) == 60 * UnitLength(Minute) && UnitLength(Day) == 24 * UnitLength(Hour)
    ensures WEEK == 7 * UnitLength(Day) && MONDAY == 4 * UnitLength(Day)
  {
  }

  /** The start of a unit is its last boundary that is not later. */
  lemma StartMeaning(t: int, u: int)
    requires u > 0
    ensures StartOf(t, u) <= t < StartOf(t, u) + u && StartOf(t, u) % u == 0
  {
    Division(t, u);
    assert StartOf(t, u) == t / u * u + 0;
    SameQuotient(StartOf(t, u), u, t / u);
    Division(StartOf(t, u), u);
  }

  datatype Bucket = Bucket(start: int, end: int) {
    predicate Contains(t: int) { start <= t <= end }
  }

  const MAX_ITERATIONS := 10000

  function StartOf(t: int, u: int): int
    requires u > 0
  {
    t / u * u
  }

  /** The m-th bucket counted from the right. */
  function BucketAt(to: int, count: int, u: int, m: int): Bucket {
    Bucket(to - m * (count * u) - (count - 1) * u, to - m * (count * u))
  }

  /** How many buckets the backward walk makes. */
  function BucketCount(from: int, to: int, count: int, u: int): nat
    requires count >= 2 && u > 0
  {
    if to < from then 0
    else
      NonNegative(to - from, count * u);
      var n := (to - from) / (count * u) + 1;
      if n > MAX_ITERATIONS then MAX_ITERATIONS else n
  }

  lemma NonNegative(d: int, step: int)
    requires d >= 0 && step > 0
    ensures d / step >= 0
  {}

  method SubtractUnits(t: int, n: int, u: int) returns (r: int)
    requires n >= 0
    ensures r == t - n * u
  {
    r := t;
    for i := 0 to n
      invariant r == t - i * u
    {
      r := r - u;
    }
  }

  /** The walk of the source: from `to` back until `from` is covered, newest bucket last. */
  method BuildBuckets(from: int, to: int, count: int, u: int) returns (buckets: seq<Bucket>)
    requires count >= 2 && u > 0
    ensures |buckets| == BucketCount(from, to, count, u)
    ensures forall i :: 0 <= i < |buckets| ==> buckets[i] == BucketAt(to, count, u, |buckets| - 1 - i)
  {
    buckets := [];
    var step := count * u;
    var bucketEnd, iterations := to, 0;
    while bucketEnd >= from && iterations < MAX_ITERATIONS
      invariant 0 <= iterations <= MAX_ITERATIONS && |buckets| == iterations
      invariant bucketEnd == to - iterations * step
      invariant iterations > 0 ==> to >= from && (iterations - 1) * step <= to - from
      invariant forall i :: 0 <= i < |buckets| ==> buckets[i] == BucketAt(to, count, u, |buckets| - 1 - i)
    {
      iterations := iterations + 1;
      var bucketStart := SubtractUnits(bucketEnd, count - 1, u);
      NoFurtherThan(iterations - 1, step);
      if bucketStart < to { buckets := [Bucket(bucketStart, bucketEnd)] + buckets; }
      bucketEnd := SubtractUnits(bucketEnd, count, u);
    }
    if to >= from {
      QuotientFits(to - from, step, iterations);
      QuotientFits(to - from, step, iterations - 1);
      NonNegative(to - from, step);
    }
  }

  lemma NoFurtherThan(m: int, step: int)
    requires m >= 0 && step > 0
    ensures m * step >= 0 && (m + 1) * step == m * step + step
  {}

  /* ---------- which unit indices the buckets cover ---------- */

  /** Adding less than one unit does not change the sign of a multiple of the unit. */
  lemma Sign(d: int, u: int, r: int)
    requires 0 <= r < u
    ensures d * u + r >= 0 <==> d >= 0
    ensures d * u >= r <==> if r == 0 then d >= 0 else d >= 1
  {
    if d >= 1 { assert d * u >= u; }
    if d <= -1 { assert d * u <= -u; }
  }

  /** The walk: the last bucket ends at the end of the range, each one spans `count` units and ends that far before the
      next, and there are as many as end in the range, but at most ten thousand. */
  lemma WalkMeaning(from: int, to: int, count: int, u: int)
    requires count >= 2 && u > 0
    ensures var n := BucketCount(from, to, count, u);
            && BucketAt(to, count, u, 0).end == to
            && (forall m :: BucketAt(to, count, u, m).start == BucketAt(to, count, u, m).end - (count - 1) * u)
            && (forall m, k :: k == m + 1 ==>
                  BucketAt(to, count, u, k).end == BucketAt(to, count, u, m).end - count * u)
            && n <= 10000
            && (n > 0 ==> BucketAt(to, count, u, n - 1).end >= from)
            && (n < 10000 ==> BucketAt(to, count, u, n).end < from)
  {
    var n, step := BucketCount(from, to, count, u), count * u;
    forall m, k | k == m + 1
      ensures BucketAt(to, count, u, k).end == BucketAt(to, count, u, m).end - count * u
    {
      assert (m + 1) * step == m * step + step;
    }
    if to >= from {
      QuotientFits(to - from, step, n - 1);
      QuotientFits(to - from, step, n);
      NonNegative(to - from, step);
    }
  }

  /** Unit index `j` lies in the m-th bucket exactly when it is one of the `count` indices that end at
      k - m * count, except that the oldest of them drops out when `to` is not unit-aligned. */
  lemma InBucketIff(to: int, count: int, u: int, m: int, j: int)
    requires count >= 2 && u > 0
    ensures var k, r := to / u, to % u;
            BucketAt(to, count, u, m).Contains(j * u) <==>
            k - m * count - count + (if r == 0 then 1 else 2) <= j <= k - m * count
  {
    var k, r := to / u, to % u;
    assert to == k * u + r;
    var top := k - m * count;
    assert m * (count * u) == m * count * u;
    assert to - m * (count * u) == top * u + r by { assert (k - m * count) * u == k * u - m * count * u; }
    Sign(top - j, u, r);
    assert (top - j) * u == top * u - j * u;
    Sign(j - (top - count + 1), u, r);
    assert (j - (top - count + 1)) * u == j * u - top * u + (count - 1) * u;
  }

  predicate CoveredIndex(from: int, to: int, count: int, u: int, j: int)
    requires count >= 2 && u > 0
  {
    exists m :: 0 <= m < BucketCount(from, to, count, u) && BucketAt(to, count, u, m).Contains(j * u)
  }

  /** Two buckets share no unit. */
  lemma BucketsDisjoint(to: int, count: int, u: int, m: int, n: int, j: int)
    requires count >= 2 && u > 0 && m < n
    ensures !(BucketAt(to, count, u, m).Contains(j * u) && BucketAt(to, count, u, n).Contains(j * u))
  {
    InBucketIff(to, count, u, m, j);
    InBucketIff(to, count, u, n, j);
    Monotone(m + 1, n, count);
    assert (m + 1) * count == m * count + count;
  }

  /** With to = k * u + r: every index up to k that the walk reaches is covered when r = 0; when r > 0
      exactly those congruent to k + 1 modulo count are in no bucket. */
  lemma CoverageIff(from: int, to: int, count: int, u: int, j: int)
    requires count >= 2 && u > 0
    ensures var k, r := to / u, to % u;
            CoveredIndex(from, to, count, u, j) <==>
            j <= k && (k - j) / count < BucketCount(from, to, count, u) && (r == 0 || (j - (k + 1)) % count != 0)
  {
    var k, r, n := to / u, to % u, BucketCount(from, to, count, u);
    var m0 := (k - j) / count;
    Division(k - j, count);
    Division(j - (k + 1), count);
    forall m | BucketAt(to, count, u, m).Contains(j * u)
      ensures m == m0 && j <= k - m * count && k - m * count - count + (if r == 0 then 1 else 2) <= j
    {
      InBucketIff(to, count, u, m, j);
      SameQuotient(k - j, count, m);
    }
    InBucketIff(to, count, u, m0, j);
    LastOfPeriod(k - j, count);
    if j <= k { NonNegative(k - j, count); }
    if CoveredIndex(from, to, count, u, j) {
      var m :| 0 <= m < n && BucketAt(to, count, u, m).Contains(j * u);
      assert m == m0;
      NoFurtherThan(m, count);
    }
  }

  lemma Division(d: int, count: int)
    requires count > 0
    ensures d == d / count * count + d % count && 0 <= d % count < count
  {}

  lemma SameQuotient(d: int, count: int, m: int)
    requires count > 0 && m * count <= d < m * count + count
    ensures d / count == m
  {
    Division(d, count);
    Monotone(d / count, m - 1, count);
    Monotone(m + 1, d / count, count);
  }

  lemma LastOfPeriod(d: int, count: int)
    requires count >= 2
    ensures (-d - 1) % count == 0 <==> d % count == count - 1
  {
    Division(d, count);
    Division(-d - 1, count);
    var s := d / count + (-d - 1) / count;
    assert s * count == d / count * count + (-d - 1) / count * count;
    assert s * count + d % count + (-d - 1) % count == -1;
    Monotone(s, -2, count);
    Monotone(0, s, count);
    assert s == -1;
  }

  /** The block of `count` units that holds index `j` starts no further from `to` than `j` itself. */
  lemma BlockReaches(to: int, count: int, u: int, j: int)
    requires count >= 2 && u > 0 && j * u <= to
    ensures j <= to / u && (to / u - j) / count * (count * u) <= to - j * u
  {
    var k := to / u;
    var m := (k - j) / count;
    Division(to, u);
    Sign(k - j, u, to % u);
    assert (k - j) * u == k * u - j * u;
    Division(k - j, count);
    Monotone(m * count, k - j, u);
    assert m * (count * u) == m * count * u;
  }

  /** In the requested range and below the iteration limit, only the congruence decides. */
  lemma CoverageInRange(from: int, to: int, count: int, u: int, j: int)
    requires count >= 2 && u > 0 && from <= j * u <= to
    requires count * u > 0 && (to - from) / (count * u) < MAX_ITERATIONS
    ensures CoveredIndex(from, to, count, u, j) <==> to % u == 0 || (j - (to / u + 1)) % count != 0
  {
    CoverageIff(from, to, count, u, j);
    BlockReaches(to, count, u, j);
    QuotientFits(to - from, count * u, (to / u - j) / count);
  }
}
