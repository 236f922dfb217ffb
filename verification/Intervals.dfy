/** Choosing the display interval of a chart (web/src/utils/date-range-utils.ts). Time is in whole milliseconds. */
module Intervals {
  import opened Arithmetic
  import opened Wrappers

  datatype Unit = Second | Minute | Hour | Day | Month | Year
  datatype Interval = Interval(count: nat, unit: Unit)
  type Intervals = s: seq<Interval> | forall k :: 0 <= k < |s| ==> s[k].count > 0

  const ALLOWED: Intervals := [
    Interval(1, Second), Interval(5, Second), Interval(10, Second), Interval(30, Second),
    Interval(1, Minute), Interval(5, Minute), Interval(10, Minute), Interval(30, Minute),
    Interval(1, Hour), Interval(3, Hour), Interval(6, Hour), Interval(12, Hour),
    Interval(1, Day), Interval(2, Day), Interval(5, Day), Interval(7, Day), Interval(14, Day),
    Interval(1, Month), Interval(3, Month), Interval(6, Month),
    Interval(1, Year)
  ]

  /** An average month has 30.44 days and an average year 365.25. */
  function UnitLength(u: Unit): (r: int)
    ensures r >= 1000
  {
    match u
    case Second => 1000
    case Minute => 60_000
    case Hour => 3_600_000
    case Day => 86_400_000
    case Month => 2_630_016_000
    case Year => 31_557_600_000
  }

  function IntervalDuration(i: Interval): (r: int)
    requires i.count > 0
    ensures r > 0
  {
    i.count * UnitLength(i.unit)
  }

  function Length(k: nat): (r: int)
    requires k < |ALLOWED|
    ensures r > 0
  {
    IntervalDuration(ALLOWED[k])
  }

  /** The allowed intervals in seconds, months and years at their average length. */
  const SECONDS: seq<int> := [1, 5, 10, 30, 60, 300, 600, 1800, 3600, 10_800, 21_600, 43_200, 86_400, 172_800, 432_000,
                              604_800, 1_209_600, 2_630_016, 7_890_048, 15_780_096, 31_557_600]

  lemma AllowedLengths(k: nat)
    requires k < |ALLOWED|
    ensures |ALLOWED| == 21 == |SECONDS| && Length(k) == SECONDS[k] * 1000
  {
    if k < 11 { assert k in {0, 1, 2, 3, 4, 5, 6, 7, 8, 9, 10}; }
    else { assert k in {11, 12, 13, 14, 15, 16, 17, 18, 19, 20}; }
  }

  function DataPoints(duration: int, i: Interval): int
    requires i.count > 0
  {
    duration / IntervalDuration(i) + 1
  }

  function Points(duration: int, k: nat): int
    requires k < |ALLOWED|
  {
    DataPoints(duration, ALLOWED[k])
  }

  function Abs(x: int): int { if x < 0 then -x else x }

  /** Twice the score, so that the half penalty stays an integer. */
  function Score(points: int, target: int, min: int, max: int): int {
    if min <= points <= max then 2 * (max - Abs(points - target))
    else if points < min then 2 * (points - 2 * (min - points))
    else 2 * max - (points - max)
  }

  /** The score, doubled: twice the upper bound at the target, two less for each point away from it inside the bounds,
      six less for each point below them, one less for each point above. */
  lemma ScoreSteps(points: int, target: int, min: int, max: int)
    requires min <= target <= max
    ensures Score(target, target, min, max) == 2 * max
    ensures min <= points < target ==> Score(points, target, min, max) == Score(points + 1, target, min, max) - 2
    ensures target < points <= max ==> Score(points, target, min, max) == Score(points - 1, target, min, max) - 2
    ensures Score(min - 1, target, min, max) == 2 * min - 6 && Score(max + 1, target, min, max) == 2 * max - 1
    ensures points < min - 1 ==> Score(points, target, min, max) == Score(points + 1, target, min, max) - 6
    ensures points > max + 1 ==> Score(points, target, min, max) == Score(points - 1, target, min, max) - 1
  {
  }

  /** As many points as interval starts fit into the duration, the first at its beginning. */
  lemma PointsMeaning(duration: int, i: Interval, q: int)
    requires i.count > 0
    ensures q < DataPoints(duration, i) <==> q * IntervalDuration(i) <= duration
  {
    QuotientFits(duration, IntervalDuration(i), q);
  }

  function Scores(allowed: Intervals, duration: int, target: int, min: int, max: int): (r: seq<int>)
    ensures |r| == |allowed|
    ensures forall k :: 0 <= k < |allowed| ==> r[k] == Score(DataPoints(duration, allowed[k]), target, min, max)
  {
    seq(|allowed|, k requires 0 <= k < |allowed| => Score(DataPoints(duration, allowed[k]), target, min, max))
  }

  /** The first-listed interval among those with the highest score. */
  predicate IsFirstMax(scores: seq<int>, k: int) {
    && 0 <= k < |scores|
    && (forall j :: 0 <= j < |scores| ==> scores[j] <= scores[k])
    && (forall j :: 0 <= j < k ==> scores[j] < scores[k])
  }

  predicate IsOptimal(allowed: Intervals, duration: int, target: int, min: int, max: int, best: Interval) {
    exists k :: 0 <= k < |allowed| && best == allowed[k] && IsFirstMax(Scores(allowed, duration, target, min, max), k)
  }

  method GetOptimalInterval(from: int, to: int, target: int := 13, min: int := 10, max: int := 16)
    returns (best: Interval)
    ensures to <= from ==> best == Interval(1, Day)
    ensures from < to ==> IsOptimal(ALLOWED, to - from, target, min, max, best)
  {
    var duration := to - from;
    if duration <= 0 { return Interval(1, Day); }
    assert |ALLOWED| == 21;
    best := BestOf(ALLOWED, duration, target, min, max);
  }

  method BestOf(allowed: Intervals, duration: int, target: int, min: int, max: int) returns (best: Interval)
    requires |allowed| > 0
    ensures IsOptimal(allowed, duration, target, min, max, best)
  {
    best := Interval(1, Day);
    ghost var at, scores := 0, Scores(allowed, duration, target, min, max);
    var bestScore := None;
    for i := 0 to |allowed|
      invariant bestScore.None? ==> i == 0
      invariant bestScore.Some? ==> 0 <= at < i && bestScore.value == scores[at] && best == allowed[at]
      invariant bestScore.Some? ==> forall j :: 0 <= j < i ==> scores[j] <= scores[at]
      invariant bestScore.Some? ==> forall j :: 0 <= j < at ==> scores[j] < scores[at]
    {
      var score := Score(DataPoints(duration, allowed[i]), target, min, max);
      if bestScore.None? || score > bestScore.value {
        best, bestScore, at := allowed[i], Some(score), i;
      }
    }
    assert IsFirstMax(scores, at);
  }

  /* ---------- the default number of points ---------- */

  predicate Chosen(duration: int, k: nat) { IsFirstMax(Scores(ALLOWED, duration, 13, 10, 16), k) }

  /** From one allowed interval to the next the length grows, by a factor of at most five. */
  lemma NextLength(k: nat)
    requires 0 < k < |ALLOWED|
    ensures Length(k - 1) < Length(k) <= 5 * Length(k - 1)
  {
    if k < 11 { assert k in {1, 2, 3, 4, 5, 6, 7, 8, 9, 10}; }
    else { assert k in {11, 12, 13, 14, 15, 16, 17, 18, 19, 20}; }
  }

  lemma {:induction false} LengthBounds(k: nat)
    requires k < |ALLOWED|
    ensures Length(0) <= Length(k) <= Length(|ALLOWED| - 1)
    decreases k
  {
    if k > 0 {
      NextLength(k);
      LengthBounds(k - 1);
    }
    ShorterThanLast(k);
  }

  lemma {:induction false} ShorterThanLast(k: nat)
    requires k < |ALLOWED|
    ensures Length(k) <= Length(|ALLOWED| - 1)
    decreases |ALLOWED| - k
  {
    if k < |ALLOWED| - 1 {
      NextLength(k + 1);
      ShorterThanLast(k + 1);
    }
  }

  lemma PointsWithin(duration: int, k: nat)
    requires k < |ALLOWED| && duration >= 0
    ensures Points(duration, k) >= 8 <==> duration >= 7 * Length(k)
    ensures Points(duration, k) <= 40 <==> duration < 40 * Length(k)
  {
    QuotientFits(duration, Length(k), 7);
    QuotientFits(duration, Length(k), 40);
  }

  lemma {:induction false} SomeIntervalFits(duration: int, k: nat) returns (j: nat)
    requires k < |ALLOWED| && 7 * Length(0) <= duration < 40 * Length(k)
    ensures j < |ALLOWED| && 8 <= Points(duration, j) <= 40
    decreases k
  {
    PointsWithin(duration, k);
    if duration >= 7 * Length(k) {
      j := k;
    } else {
      NextLength(k);
      j := SomeIntervalFits(duration, k - 1);
    }
  }

  lemma GoodScore(points: int)
    ensures Score(points, 13, 10, 16) >= 8 <==> 8 <= points <= 40
  {
  }

  /** The chosen interval yields 8 to 40 points exactly for durations from 7 seconds up to 40 average years. */
  lemma PointBound(duration: int, k: nat)
    requires duration > 0 && Chosen(duration, k)
    ensures 8 <= Points(duration, k) <= 40 <==> 7_000 <= duration < 40 * 31_557_600_000
  {
    assert Length(0) == 1000 && Length(20) == 31_557_600_000;
    LengthBounds(k);
    PointsWithin(duration, k);
    if 7_000 <= duration < 40 * 31_557_600_000 {
      var j := SomeIntervalFits(duration, 20);
      GoodScore(Points(duration, j));
      GoodScore(Points(duration, k));
    }
  }

  /** The lower end of the bound is reached: 7 seconds in 8 points. */
  lemma LowerEndIsReached(k: nat)
    requires Chosen(7_000, k)
    ensures Points(7_000, k) == 8
  {
    assert Points(7_000, 0) == 8;
    PointsShrink(7_000, k, 0);
    PointBound(7_000, k);
  }

  /** And so is the upper end: 39 seconds in 40. */
  lemma UpperEndIsReached(k: nat)
    requires Chosen(39_000, k)
    ensures Points(39_000, k) == 40
  {
    if k == 0 {
      assert Points(39_000, 0) == 40;
    } else {
      NoBetterAt39(k);
    }
  }

  lemma QuotientShrinks(d: int, a: int, b: int)
    requires 0 < a <= b && d >= 0
    ensures d / b <= d / a
  {
    var q := d / b;
    assert q >= 0 && q * b <= d;
    Monotone(a, b, q);
    QuotientFits(d, a, q);
  }

  lemma PointsShrink(duration: int, k: nat, j: nat)
    requires j <= k < |ALLOWED| && duration >= 0
    ensures Points(duration, k) <= Points(duration, j)
  {
    if j < k {
      NextLength(k);
      QuotientShrinks(duration, Length(k - 1), Length(k));
      PointsShrink(duration, k - 1, j);
    }
  }

  lemma NoBetterAt39(l: nat)
    requires 0 < l < |ALLOWED|
    ensures Score(Points(39_000, l), 13, 10, 16) <= Score(Points(39_000, 0), 13, 10, 16)
  {
    PointsShrink(39_000, l, 1);
    assert Points(39_000, 0) == 40 && Points(39_000, 1) == 8;
    ScoreUpTo8(Points(39_000, l));
  }

  lemma ChosenBeats(duration: int, k: nat, j: nat)
    requires Chosen(duration, k) && j < |ALLOWED|
    ensures Score(Points(duration, j), 13, 10, 16) <= Score(Points(duration, k), 13, 10, 16)
  {
    var scores := Scores(ALLOWED, duration, 13, 10, 16);
    assert scores[j] <= scores[k];
  }

  predicate InTarget(duration: int, i: nat) { i < |ALLOWED| && 10 <= Points(duration, i) <= 16 }

  /** Some interval inside the target range beats interval `j` above it. */
  ghost predicate Beaten(duration: int, j: nat)
    requires j < |ALLOWED|
  {
    exists i: nat :: InTarget(duration, i) && Points(duration, j) - 16 > 2 * Abs(Points(duration, i) - 13)
  }

  lemma TargetBeatsFewer(duration: int, i: nat, k: nat)
    requires InTarget(duration, i) && k < |ALLOWED| && Points(duration, k) < 10
    ensures Score(Points(duration, k), 13, 10, 16) < Score(Points(duration, i), 13, 10, 16)
  {
  }

  /** A choice inside the target range was listed after, and beats, everything above the range. */
  lemma ChosenBeatsOvershoot(duration: int, k: nat, j: nat)
    requires duration > 0 && Chosen(duration, k) && InTarget(duration, k) && j < |ALLOWED| && Points(duration, j) > 16
    ensures Points(duration, j) - 16 > 2 * Abs(Points(duration, k) - 13)
  {
    if k <= j { PointsShrink(duration, j, k); }
    var scores := Scores(ALLOWED, duration, 13, 10, 16);
    assert scores[j] < scores[k];
  }

  /** The choice lands in the target of 10 to 16 points exactly when some allowed interval does, and every
      interval above the range overshoots it by more than twice the distance of some interval inside it
      from 13 points. */
  lemma LandsInTargetIff(duration: int, k: nat)
    requires duration > 0 && Chosen(duration, k)
    ensures 10 <= Points(duration, k) <= 16
            <==> && (exists i: nat :: InTarget(duration, i))
                 && forall j: nat :: j < |ALLOWED| && Points(duration, j) > 16 ==> Beaten(duration, j)
  {
    if 10 <= Points(duration, k) <= 16 {
      assert InTarget(duration, k);
      forall j: nat | j < |ALLOWED| && Points(duration, j) > 16 ensures Beaten(duration, j) {
        ChosenBeatsOvershoot(duration, k, j);
      }
    } else if i: nat :| InTarget(duration, i) {
      ChosenBeats(duration, k, i);
      if Points(duration, k) < 10 {
        TargetBeatsFewer(duration, i, k);
      } else if Beaten(duration, k) {
        NotBeaten(duration, k);
      }
    }
  }

  lemma NotBeaten(duration: int, k: nat)
    requires Chosen(duration, k) && Points(duration, k) > 16
    ensures !Beaten(duration, k)
  {
    forall i: nat | i < |ALLOWED|
      ensures Score(Points(duration, i), 13, 10, 16) <= Score(Points(duration, k), 13, 10, 16)
    {
      ChosenBeats(duration, k, i);
    }
  }

  lemma ScoreUpTo8(points: int)
    requires points <= 8
    ensures Score(points, 13, 10, 16) <= Score(40, 13, 10, 16)
  {
  }

  lemma OthersScoreLess(k: nat)
    requires k < |ALLOWED| && k != 3
    ensures Score(Points(540_000, k), 13, 10, 16) < Score(19, 13, 10, 16)
  {
    if k < 3 {
      PointsShrink(540_000, 2, k);
      assert Points(540_000, 2) == 55;
    } else {
      PointsShrink(540_000, k, 4);
      assert Points(540_000, 4) == 10;
    }
  }

  lemma NineMinutes()
    ensures Points(540_000, 3) == 19 && Points(540_000, 4) == 10
  {
  }

  /** Nine minutes are drawn in 19 half-minute points, although one-minute steps give 10. */
  lemma OvershootHappens(k: nat)
    requires Chosen(540_000, k)
    ensures k == 3 && Points(540_000, 3) == 19 && Points(540_000, 4) == 10
  {
    NineMinutes();
    ChosenBeats(540_000, k, 3);
    if k != 3 { OthersScoreLess(k); }
  }
}
