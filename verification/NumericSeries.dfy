/** fillTimeSeriesGaps: numeric series, gaps filled with nulls and units averaged into buckets
    (web/src/utils/fill-time-series-gaps.ts:37-316). */
module NumericSeries {
  import opened Arithmetic
  import opened Wrappers
  import opened TimeBuckets
  import opened GapFilling

  /** A column value: a JavaScript null, an absent value, a number, not-a-number, or anything else. */
  datatype Field = Null | Missing | Num(value: real) | NotANumber | Other(id: nat) {
    /** What `typeof` calls a number. */
    predicate Numeric() { Num? || NotANumber? }
  }

  datatype Row = Row(timestamp: int, fields: map<string, Field>)

  function Placeholder(sample: Row, t: int): Row {
    Row(t, map key | key in sample.fields :: if sample.fields[key].Numeric() then Null else sample.fields[key])
  }

  /* ---------- single unit: the grid ---------- */

  function LastRowAt(data: seq<Row>, t: int, u: int): Option<Row>
    requires u > 0
  {
    if data == [] then None
    else
      var row := data[|data| - 1];
      if StartOf(row.timestamp, u) == t then Some(row) else LastRowAt(data[..|data| - 1], t, u)
  }

  function LastTime(data: seq<Row>, u: int): int
    requires u > 0 && data != []
  {
    var t := StartOf(data[|data| - 1].timestamp, u);
    if |data| == 1 then t else Max(t, LastTime(data[..|data| - 1], u))
  }

  function GridRow(data: seq<Row>, t: int, u: int): Row
    requires u > 0 && data != []
  {
    match LastRowAt(data, t, u)
    case Some(row) => row
    case None => Placeholder(data[0], t)
  }

  /** From the start of the range up to the last data point; the end of the range plays no part. */
  function Grid(data: seq<Row>, from: int, u: int): seq<Row>
    requires u > 0
  {
    if data == [] then []
    else seq(GridSize(from, LastTime(data, u), u), k requires 0 <= k => GridRow(data, GridTime(from, u, k), u))
  }

  method FillGapsInSingleUnitData(data: seq<Row>, from: int, to: int, u: int) returns (filled: seq<Row>)
    requires u > 0
    ensures filled == Grid(data, from, u)
  {
    filled := [];
    var dataMap: map<int, Row> := map[];
    for d := 0 to |data|
      invariant forall t :: (if t in dataMap then Some(dataMap[t]) else None) == LastRowAt(data[..d], t, u)
    {
      assert data[..d + 1][..d] == data[..d];
      dataMap := dataMap[StartOf(data[d].timestamp, u) := data[d]];
    }
    assert data[..|data|] == data;
    if data == [] { return; }
    var last := LatestStart(data, u);
    var currentTime := StartOf(from, u);
    LastTimeIsGrid(data, u);
    while currentTime <= last
      invariant currentTime == GridTime(from, u, |filled|)
      invariant |filled| <= GridSize(from, last, u)
      invariant forall k :: 0 <= k < |filled| ==> filled[k] == GridRow(data, GridTime(from, u, k), u)
      decreases GridSize(from, last, u) - |filled|
    {
      Below(from / u + |filled|, last / u, u);
      filled := filled + [if currentTime in dataMap then dataMap[currentTime] else Placeholder(data[0], currentTime)];
      currentTime := currentTime + u;
      assert GridTime(from, u, |filled|) == GridTime(from, u, |filled| - 1) + u;
    }
    Below(from / u + |filled|, last / u, u);
  }

  method LatestStart(data: seq<Row>, u: int) returns (last: int)
    requires u > 0 && data != []
    ensures last == LastTime(data, u)
  {
    last := StartOf(data[0].timestamp, u);
    for d := 1 to |data|
      invariant last == LastTime(data[..d], u)
    {
      assert data[..d + 1][..d] == data[..d];
      last := Max(StartOf(data[d].timestamp, u), last);
    }
    assert data[..|data|] == data;
  }

  lemma {:induction false} LastTimeIsLatest(data: seq<Row>, u: int)
    requires u > 0 && data != []
    ensures forall i :: 0 <= i < |data| ==> StartOf(data[i].timestamp, u) <= LastTime(data, u)
    ensures exists i :: 0 <= i < |data| && StartOf(data[i].timestamp, u) == LastTime(data, u)
    decreases |data|
  {
    var last := |data| - 1;
    if last == 0 {
      assert StartOf(data[0].timestamp, u) == LastTime(data, u);
    } else {
      var front := data[..last];
      LastTimeIsLatest(front, u);
      forall i | 0 <= i < last ensures StartOf(data[i].timestamp, u) <= LastTime(front, u) {
        assert front[i] == data[i];
      }
      var i :| 0 <= i < last && StartOf(front[i].timestamp, u) == LastTime(front, u);
      assert LastTime(data, u) == StartOf(data[i].timestamp, u)
             || LastTime(data, u) == StartOf(data[last].timestamp, u);
    }
  }

  lemma LastTimeIsGrid(data: seq<Row>, u: int)
    requires u > 0 && data != []
    ensures LastTime(data, u) == LastTime(data, u) / u * u
    ensures forall i :: 0 <= i < |data| ==> StartOf(data[i].timestamp, u) <= LastTime(data, u)
    ensures exists i :: 0 <= i < |data| && StartOf(data[i].timestamp, u) == LastTime(data, u)
  {
    LastTimeIsLatest(data, u);
    var i :| 0 <= i < |data| && StartOf(data[i].timestamp, u) == LastTime(data, u);
    var q := data[i].timestamp / u;
    MultipleOf(q, u);
    assert LastTime(data, u) == q * u;
  }

  lemma MultipleOf(q: int, u: int)
    requires u > 0
    ensures q * u / u == q
  {
    SameQuotient(q * u, u, q);
  }

  /** The grid is cut at the last data point: a unit has a row exactly when it is neither before the
      start of the range nor after that point, whatever end was asked for. */
  lemma GridReachesIff(data: seq<Row>, from: int, u: int, j: int)
    requires u > 0 && data != []
    ensures (exists k :: 0 <= k < |Grid(data, from, u)| && GridTime(from, u, k) == j * u)
            <==> from / u <= j && exists i :: 0 <= i < |data| && j <= data[i].timestamp / u
  {
    var last := LastTime(data, u);
    LastTimeIsGrid(data, u);
    var top :| 0 <= top < |data| && StartOf(data[top].timestamp, u) == last;
    MultipleOf(data[top].timestamp / u, u);
    if i :| 0 <= i < |data| && j <= data[i].timestamp / u {
      Below(data[i].timestamp / u, last / u, u);
      if from / u <= j { assert GridTime(from, u, j - from / u) == j * u; }
    }
    if k :| 0 <= k < |Grid(data, from, u)| && GridTime(from, u, k) == j * u {
      Below(from / u + k, j, u);
      Below(j, from / u + k, u);
    }
  }

  /** The last data row of a unit is passed on untouched, at its place. */
  lemma RowsAreKept(data: seq<Row>, from: int, u: int, i: nat)
    requires u > 0 && i < |data| && from / u <= data[i].timestamp / u
    requires forall j :: i < j < |data| ==> StartOf(data[j].timestamp, u) != StartOf(data[i].timestamp, u)
    ensures var k := data[i].timestamp / u - from / u;
            k < |Grid(data, from, u)| && Grid(data, from, u)[k] == data[i]
  {
    LastTimeIsGrid(data, u);
    Below(data[i].timestamp / u, LastTime(data, u) / u, u);
    LastRowIs(data, u, i);
  }

  lemma {:induction false} LastRowIs(data: seq<Row>, u: int, i: nat)
    requires u > 0 && i < |data|
    requires forall j :: i < j < |data| ==> StartOf(data[j].timestamp, u) != StartOf(data[i].timestamp, u)
    ensures LastRowAt(data, StartOf(data[i].timestamp, u), u) == Some(data[i])
    decreases |data|
  {
    if i < |data| - 1 { LastRowIs(data[..|data| - 1], u, i); }
  }

  /* ---------- averages ---------- */

  function Sum(values: seq<real>): real {
    if values == [] then 0.0 else Sum(values[..|values| - 1]) + values[|values| - 1]
  }

  function Numbers(values: seq<Field>): seq<real> {
    if values == [] then []
    else
      var front, v := Numbers(values[..|values| - 1]), values[|values| - 1];
      if v.Num? then front + [v.value] else front
  }

  predicate HasOther(values: seq<Field>) { exists i :: 0 <= i < |values| && values[i].Other? }

  predicate HasGap(values: seq<Field>) {
    exists i :: 0 <= i < |values| && (values[i].Missing? || values[i].NotANumber?)
  }

  lemma {:induction false} NumbersCount(values: seq<Field>)
    ensures |Numbers(values)| > 0 <==> exists i :: 0 <= i < |values| && values[i].Num?
    decreases |values|
  {
    if values != [] {
      NumbersCount(values[..|values| - 1]);
      if i :| 0 <= i < |values| && values[i].Num? { assert i < |values| - 1 ==> values[..|values| - 1][i].Num?; }
      var front := values[..|values| - 1];
      if i :| 0 <= i < |front| && front[i].Num? { assert values[i].Num?; }
    }
  }

  function Mean(values: seq<Field>): Field
    requires values != [] && values[0].Num?
  {
    NumbersCount(values);
    Num(Sum(Numbers(values)) / |Numbers(values)| as real)
  }

  /** One column of one bucket. The first row decides whether the column is numeric; then nulls are left out,
      anything absent or not a number makes the sum not a number, and `mixed` stands for what JavaScript makes
      of adding other values. */
  function Average(values: seq<Field>, mixed: seq<Field> -> Field): Field
    requires values != []
  {
    if !values[0].Numeric() then values[0]
    else if HasOther(values) then mixed(values)
    else if HasGap(values) then NotANumber
    else Mean(values)
  }

  method AverageField(values: seq<Field>, mixed: seq<Field> -> Field) returns (r: Field)
    requires values != []
    ensures r == Average(values, mixed)
  {
    if !values[0].Numeric() { return values[0]; }
    var sum, n, other, gap := 0.0, 0, false, false;
    for i := 0 to |values|
      invariant sum == Sum(Numbers(values[..i])) && n == |Numbers(values[..i])|
      invariant other <==> HasOther(values[..i])
      invariant gap <==> HasGap(values[..i])
    {
      assert values[..i + 1][..i] == values[..i];
      OneMoreValue(values[..i], values[i]);
      assert values[..i + 1] == values[..i] + [values[i]];
      match values[i]
      case Num(value) =>
        var before := Numbers(values[..i]);
        assert (before + [value])[..|before|] == before;
        sum, n := sum + value, n + 1;
      case Other(_) => other := true;
      case Null =>
      case _ => gap := true;
    }
    assert values[..|values|] == values;
    if other { return mixed(values); }
    if gap { return NotANumber; }
    NumbersCount(values);
    return Num(sum / n as real);
  }

  lemma OneMoreValue(values: seq<Field>, v: Field)
    ensures HasOther(values + [v]) <==> HasOther(values) || v.Other?
    ensures HasGap(values + [v]) <==> HasGap(values) || v.Missing? || v.NotANumber?
  {
    var all := values + [v];
    assert all[|values|] == v;
    if i :| 0 <= i < |values| && values[i].Other? { assert all[i].Other?; }
    if i :| 0 <= i < |values| && (values[i].Missing? || values[i].NotANumber?) { assert all[i] == values[i]; }
  }

  lemma {:induction false} SumBetween(values: seq<real>, lo: real, hi: real)
    requires forall i :: 0 <= i < |values| ==> lo <= values[i] <= hi
    ensures lo * |values| as real <= Sum(values) <= hi * |values| as real
    decreases |values|
  {
    if values != [] {
      SumBetween(values[..|values| - 1], lo, hi);
      OneMore(lo, |values| - 1);
      OneMore(hi, |values| - 1);
    }
  }

  lemma OneMore(x: real, n: nat)
    ensures x * (n + 1) as real == x * n as real + x
  {
  }

  lemma {:induction false} NumbersBetween(values: seq<Field>, lo: real, hi: real)
    requires forall i :: 0 <= i < |values| && values[i].Num? ==> lo <= values[i].value <= hi
    ensures forall i :: 0 <= i < |Numbers(values)| ==> lo <= Numbers(values)[i] <= hi
    decreases |values|
  {
    if values != [] { NumbersBetween(values[..|values| - 1], lo, hi); }
  }

  lemma QuotientBetween(sum: real, n: real, lo: real, hi: real)
    requires n > 0.0 && lo * n <= sum <= hi * n
    ensures lo <= sum / n <= hi
  {
    var q := sum / n;
    assert q * n == sum;
    MonotoneReal(q, lo, n);
    MonotoneReal(hi, q, n);
  }

  lemma MonotoneReal(a: real, b: real, n: real)
    ensures n > 0.0 && a < b ==> a * n < b * n
  {
  }

  lemma MeanBetween(values: seq<Field>, lo: real, hi: real)
    requires values != [] && values[0].Num?
    requires forall i :: 0 <= i < |values| && values[i].Num? ==> lo <= values[i].value <= hi
    ensures lo <= Mean(values).value <= hi
  {
    NumbersCount(values);
    NumbersBetween(values, lo, hi);
    SumBetween(Numbers(values), lo, hi);
    QuotientBetween(Sum(Numbers(values)), |Numbers(values)| as real, lo, hi);
  }

  /** A column of numbers and nulls averages to a number exactly when the bucket's first row has one, and then
      the mean lies between the smallest and the largest: a null in the first row hides all the others. A
      numeric column with an absent value averages to not-a-number. */
  lemma AverageMeaning(values: seq<Field>, mixed: seq<Field> -> Field, lo: real, hi: real)
    requires values != [] && !HasOther(values)
    requires forall i :: 0 <= i < |values| && values[i].Num? ==> lo <= values[i].value <= hi
    ensures Average(values, mixed).Num? <==> values[0].Num? && !HasGap(values)
    ensures values[0].Null? ==> Average(values, mixed) == Null
    ensures values[0].Numeric() && HasGap(values) ==> Average(values, mixed) == NotANumber
    ensures Average(values, mixed).Num? ==> lo <= Average(values, mixed).value <= hi
  {
    if values[0].Numeric() && !HasGap(values) {
      assert values[0].Num?;
      MeanBetween(values, lo, hi);
    }
  }

  /** The cases of a column: its first value if that is no number for `typeof`; what adding makes of them if some other
      kind of value is among them; no number if one is absent or none; else a number. */
  lemma AverageCases(values: seq<Field>, mixed: seq<Field> -> Field)
    requires values != []
    ensures var r := Average(values, mixed);
            && (values[0].Null? || values[0].Missing? || values[0].Other? ==> r == values[0])
            && (values[0].Num? || values[0].NotANumber? ==>
                  if exists i :: 0 <= i < |values| && values[i].Other? then r == mixed(values)
                  else if exists i :: 0 <= i < |values| && (values[i].Missing? || values[i].NotANumber?)
                  then r == NotANumber else r.Num?)
  {
  }

  /** A column of numbers and nulls that starts with a number. */
  predicate Plain(values: seq<Field>) {
    values != [] && values[0].Num? && forall i :: 0 <= i < |values| ==> values[i].Num? || values[i].Null?
  }

  lemma {:induction false} NumbersAre(values: seq<Field>)
    ensures |Numbers(values)| == |set i: nat | i < |values| && values[i].Num?|
  {
    if values != [] {
      var n := |values| - 1;
      NumbersAre(values[..n]);
      assert (set i: nat | i < |values| && values[i].Num?)
          == (set i: nat | i < n && values[..n][i].Num?) + if values[n].Num? then {n} else {};
    }
  }

  lemma PlainAverage(values: seq<Field>, mixed: seq<Field> -> Field)
    requires Plain(values)
    ensures Average(values, mixed) == Mean(values)
  {
  }

  lemma OneMoreNumber(values: seq<Field>, v: Field)
    ensures Numbers(values + [v]) == Numbers(values) + if v.Num? then [v.value] else []
  {
    assert (values + [v])[..|values|] == values;
  }

  lemma SumGrows(values: seq<real>, x: real)
    ensures Sum(values + [x]) == Sum(values) + x
  {
    assert (values + [x])[..|values|] == values;
  }

  function CountNumbers(values: seq<Field>): nat { |set i: nat | i < |values| && values[i].Num?| }

  /** `before` is an average of n numbers, and `after` that of these and x. */
  predicate Moves(before: Field, n: nat, x: real, after: Field) {
    before.Num? && after.Num? && after.value * (n + 1) as real == before.value * n as real + x
  }

  lemma MeanMoves(sum: real, n: nat, x: real)
    requires n > 0
    ensures Moves(Num(sum / n as real), n, x, Num((sum + x) / (n + 1) as real))
  {
    TimesBack(sum, n as real);
    TimesBack(sum + x, (n + 1) as real);
  }

  /** What an average is: one number is its own average; with a further number x the average of n numbers moves so that
      (n + 1) times the new one is n times the old one plus x; a further null changes nothing. */
  lemma AverageGrows(values: seq<Field>, mixed: seq<Field> -> Field, x: real)
    requires Plain(values)
    ensures Average(values + [Null], mixed) == Average(values, mixed)
    ensures Moves(Average(values, mixed), CountNumbers(values), x, Average(values + [Num(x)], mixed))
  {
    NumbersAre(values);
    NumbersCount(values);
    OneMoreNumber(values, Null);
    OneMoreNumber(values, Num(x));
    SumGrows(Numbers(values), x);
    PlainAverage(values, mixed);
    PlainAverage(values + [Null], mixed);
    PlainAverage(values + [Num(x)], mixed);
    MeanMoves(Sum(Numbers(values)), |Numbers(values)|, x);
  }

  lemma AverageOfOne(x: real, mixed: seq<Field> -> Field)
    ensures Average([Num(x)], mixed) == Num(x)
  {
    NumbersOfOne(x);
  }

  lemma NumbersOfOne(x: real)
    ensures Numbers([Num(x)]) == [x] && Sum([x]) / 1.0 == x
  {
    assert [Num(x)][..0] == [] && [x][..0] == [];
  }

  lemma TimesBack(sum: real, n: real)
    requires n != 0.0
    ensures sum / n * n == sum
  {
  }

  /* ---------- placeholders ---------- */

  /** Where there is no data: the time, null for every column that is numeric in the sample, and the sample's own value
      for every other one. */
  lemma PlaceholderMeaning(sample: Row, t: int)
    ensures var p := Placeholder(sample, t);
            && p.timestamp == t && p.fields.Keys == sample.fields.Keys
            && forall key :: key in sample.fields ==>
                 p.fields[key] == if sample.fields[key].Num? || sample.fields[key].NotANumber? then Null
                                  else sample.fields[key]
  {
  }

  /** A unit without data gets a placeholder made from the first data row. */
  lemma EmptyUnit(data: seq<Row>, from: int, u: int, k: nat)
    requires u > 0 && data != [] && k < |Grid(data, from, u)|
    requires forall i :: 0 <= i < |data| ==> StartOf(data[i].timestamp, u) != GridTime(from, u, k)
    ensures Grid(data, from, u)[k] == Placeholder(data[0], GridTime(from, u, k))
  {
    NoRowAt(data, GridTime(from, u, k), u);
  }

  lemma {:induction false} NoRowAt(data: seq<Row>, t: int, u: int)
    requires u > 0 && forall i :: 0 <= i < |data| ==> StartOf(data[i].timestamp, u) != t
    ensures LastRowAt(data, t, u) == None
    decreases |data|
  {
    if data != [] { NoRowAt(data[..|data| - 1], t, u); }
  }

  /* ---------- multi-unit: one averaged row per bucket ---------- */

  function RowsIn(data: seq<Row>, b: Bucket, u: int): seq<Row>
    requires u > 0
  {
    if data == [] then []
    else
      var front, row := RowsIn(data[..|data| - 1], b, u), data[|data| - 1];
      if b.Contains(StartOf(row.timestamp, u)) then front + [row] else front
  }

  function Column(rows: seq<Row>, key: string): (values: seq<Field>)
    ensures |values| == |rows|
  {
    seq(|rows|, i requires 0 <= i < |rows| => if key in rows[i].fields then rows[i].fields[key] else Missing)
  }

  /** A column takes the value of each row, and counts it as absent where a row lacks it. */
  lemma ColumnMeaning(rows: seq<Row>, key: string, i: nat)
    requires i < |rows|
    ensures key in rows[i].fields ==> Column(rows, key)[i] == rows[i].fields[key]
    ensures key !in rows[i].fields ==> Column(rows, key)[i] == Missing
  {
  }

  lemma {:induction false} RowsInAreData(data: seq<Row>, b: Bucket, u: int)
    requires u > 0
    ensures forall row :: row in RowsIn(data, b, u) <==> row in data && b.Contains(StartOf(row.timestamp, u))
  {
    if data != [] {
      RowsInAreData(data[..|data| - 1], b, u);
      assert data == data[..|data| - 1] + [data[|data| - 1]];
    }
  }

  function BucketRow(data: seq<Row>, b: Bucket, u: int, mixed: seq<Field> -> Field): Row
    requires u > 0 && data != []
  {
    var rows := RowsIn(data, b, u);
    if rows == [] then Placeholder(data[0], b.end)
    else Row(b.end, map key | key in rows[0].fields :: Average(Column(rows, key), mixed))
  }

  method AggregateBucket(data: seq<Row>, rows: seq<Row>, b: Bucket, u: int, mixed: seq<Field> -> Field)
    returns (row: Row)
    requires u > 0 && data != [] && rows == RowsIn(data, b, u)
    ensures row == BucketRow(data, b, u, mixed)
  {
    if |rows| == 0 { return Placeholder(data[0], b.end); }
    var fields: map<string, Field> := map[];
    var keys := rows[0].fields.Keys;
    while keys != {}
      invariant keys <= rows[0].fields.Keys
      invariant fields == map key | key in rows[0].fields.Keys - keys :: Average(Column(rows, key), mixed)
    {
      var key :| key in keys;
      var mean := AverageField(Column(rows, key), mixed);
      fields := fields[key := mean];
      keys := keys - {key};
    }
    assert rows[0].fields.Keys - keys == rows[0].fields.Keys;
    return Row(b.end, fields);
  }

  method AggregateIntoMultiUnitBuckets(data: seq<Row>, from: int, to: int, count: int, u: int,
                                       mixed: seq<Field> -> Field)
    returns (out: seq<Row>)
    requires count >= 2 && u > 0
    ensures data == [] ==> out == []
    ensures data != [] ==> |out| == |Walk(from, to, count, u)|
    ensures data != [] ==> forall i :: 0 <= i < |out| ==>
              out[i] == BucketRow(data, Walk(from, to, count, u)[i], u, mixed)
  {
    out := [];
    if data == [] { return; }
    var buckets := BuildBuckets(from, to, count, u);
    assert buckets == Walk(from, to, count, u);
    var lists := AssignRows(data, buckets, from, to, count, u);
    for i := 0 to |buckets|
      invariant |out| == i
      invariant forall k :: 0 <= k < i ==> out[k] == BucketRow(data, buckets[k], u, mixed)
    {
      var row := AggregateBucket(data, lists[i], buckets[i], u, mixed);
      out := out + [row];
    }
  }

  method AssignRows(data: seq<Row>, buckets: seq<Bucket>, from: int, to: int, count: int, u: int)
    returns (lists: seq<seq<Row>>)
    requires count >= 2 && u > 0 && buckets == Walk(from, to, count, u)
    ensures |lists| == |buckets| && forall i :: 0 <= i < |buckets| ==> lists[i] == RowsIn(data, buckets[i], u)
  {
    lists := seq(|buckets|, i => []);
    for d := 0 to |data|
      invariant |lists| == |buckets|
      invariant forall i :: 0 <= i < |buckets| ==> lists[i] == RowsIn(data[..d], buckets[i], u)
    {
      var ts := StartOf(data[d].timestamp, u);
      var i := 0;
      while i < |buckets| && !buckets[i].Contains(ts)
        invariant 0 <= i <= |buckets|
        invariant forall k :: 0 <= k < i ==> !buckets[k].Contains(ts)
      {
        i := i + 1;
      }
      assert data[..d + 1][..d] == data[..d];
      OnlyOneBucket(buckets, from, to, count, u, data[d].timestamp, i);
      if i < |buckets| { lists := lists[i := lists[i] + [data[d]]]; }
    }
    assert data[..|data|] == data;
  }

  lemma OnlyOneBucket(buckets: seq<Bucket>, from: int, to: int, count: int, u: int, t: int, i: nat)
    requires count >= 2 && u > 0 && buckets == Walk(from, to, count, u)
    ensures i < |buckets| && buckets[i].Contains(StartOf(t, u)) ==>
              forall k :: i < k < |buckets| ==> !buckets[k].Contains(StartOf(t, u))
  {
    if i < |buckets| && buckets[i].Contains(StartOf(t, u)) {
      forall k | i < k < |buckets| ensures !buckets[k].Contains(StartOf(t, u)) {
        BucketsDisjoint(to, count, u, |buckets| - 1 - k, |buckets| - 1 - i, t / u);
      }
    }
  }

  /* ---------- weeks: the same grid measured from a Monday ---------- */

  function Shift(data: seq<Row>, delta: int): seq<Row> {
    seq(|data|, i requires 0 <= i < |data| => data[i].(timestamp := data[i].timestamp + delta))
  }

  function WeekGrid(data: seq<Row>, from: int): seq<Row> {
    Shift(Grid(Shift(data, -MONDAY), from - MONDAY, WEEK), MONDAY)
  }

  /** In a weekly series too the last data row of a week is passed on untouched, as many rows after the first as there
      are weeks in between. */
  lemma WeekRowsAreKept(data: seq<Row>, from: int, i: nat)
    requires i < |data| && StartOfWeek(from) <= StartOfWeek(data[i].timestamp)
    requires forall j :: i < j < |data| ==> StartOfWeek(data[j].timestamp) != StartOfWeek(data[i].timestamp)
    ensures var k := (StartOfWeek(data[i].timestamp) - StartOfWeek(from)) / WEEK;
            0 <= k < |WeekGrid(data, from)| && WeekGrid(data, from)[k] == data[i]
  {
    var shifted := Shift(data, -MONDAY);
    Below((from - MONDAY) / WEEK, (data[i].timestamp - MONDAY) / WEEK, WEEK);
    MultipleOf((data[i].timestamp - MONDAY) / WEEK - (from - MONDAY) / WEEK, WEEK);
    RowsAreKept(shifted, from - MONDAY, WEEK, i);
  }

  /* ---------- the entry point ---------- */

  method FillTimeSeriesGaps(data: seq<Row>, from: int, to: int, count: nat, unit: Unit, mixed: seq<Field> -> Field)
    returns (out: seq<Row>)
    requires count >= 1
    ensures count == 1 ==> out == Grid(data, from, UnitLength(unit))
    ensures count == 7 && unit == Day ==> out == WeekGrid(data, from)
    ensures count > 1 && !(count == 7 && unit == Day) && data == [] ==> out == []
    ensures count > 1 && !(count == 7 && unit == Day) && data != [] ==>
              var buckets := Walk(from, to, count, UnitLength(unit));
              && |out| == |buckets|
              && forall i :: 0 <= i < |out| ==> out[i] == BucketRow(data, buckets[i], UnitLength(unit), mixed)
  {
    if count == 1 {
      out := FillGapsInSingleUnitData(data, from, to, UnitLength(unit));
    } else if IsWeek(count, unit) {
      out := FillGapsInSingleUnitData(Shift(data, -MONDAY), from - MONDAY, to - MONDAY, WEEK);
      out := Shift(out, MONDAY);
    } else {
      out := AggregateIntoMultiUnitBuckets(data, from, to, count, UnitLength(unit), mixed);
    }
  }

  lemma RowsInGrow(data: seq<Row>, b: Bucket, u: int, row: Row)
    requires u > 0
    ensures RowsIn(data + [row], b, u) ==
            RowsIn(data, b, u) + if b.Contains(StartOf(row.timestamp, u)) then [row] else []
  {
    assert (data + [row])[..|data|] == data;
  }

  /** A bucket's row: without data in it a placeholder at its end; else the columns of its first data row at its end,
      those that are not numeric there with that row's value. */
  lemma BucketRowMeaning(data: seq<Row>, b: Bucket, u: int, mixed: seq<Field> -> Field)
    requires u > 0 && data != []
    ensures var rows, out := RowsIn(data, b, u), BucketRow(data, b, u, mixed);
            && out.timestamp == b.end
            && (forall row :: row in rows <==> row in data && b.start <= row.timestamp / u * u <= b.end)
            && (rows == [] ==> out == Placeholder(data[0], b.end))
            && (rows != [] ==>
                  && out.fields.Keys == rows[0].fields.Keys
                  && forall key :: key in rows[0].fields ==>
                       var v := rows[0].fields[key]; !v.Num? && !v.NotANumber? ==> out.fields[key] == v)
  {
    RowsInAreData(data, b, u);
  }

  lemma ColumnGrows(rows: seq<Row>, row: Row, key: string)
    requires key in row.fields
    ensures Column(rows + [row], key) == Column(rows, key) + [row.fields[key]]
  {
  }

  /** A data point outside a bucket does not change its row. */
  lemma OutsideBucket(data: seq<Row>, b: Bucket, u: int, mixed: seq<Field> -> Field, row: Row)
    requires u > 0 && data != [] && !(b.start <= row.timestamp / u * u <= b.end)
    ensures BucketRow(data + [row], b, u, mixed) == BucketRow(data, b, u, mixed)
  {
    RowsInGrow(data, b, u, row);
    assert (data + [row])[0] == data[0];
  }

  /** The first data point of a bucket gives its own numbers. */
  lemma FirstInBucket(data: seq<Row>, b: Bucket, u: int, mixed: seq<Field> -> Field, row: Row, key: string)
    requires u > 0 && data != [] && b.start <= row.timestamp / u * u <= b.end && RowsIn(data, b, u) == []
    requires key in row.fields && row.fields[key].Num?
    ensures var out := BucketRow(data + [row], b, u, mixed).fields; key in out && out[key] == row.fields[key]
  {
    RowsInGrow(data, b, u, row);
    assert [] + [row] == [row];
    ColumnGrows([], row, key);
    AverageOfOne(row.fields[key].value, mixed);
    assert Column([row], key) == [row.fields[key]];
  }

  lemma BucketField(data: seq<Row>, b: Bucket, u: int, mixed: seq<Field> -> Field, key: string)
    requires u > 0 && data != [] && RowsIn(data, b, u) != [] && key in RowsIn(data, b, u)[0].fields
    ensures var fields := BucketRow(data, b, u, mixed).fields;
            key in fields && fields[key] == Average(Column(RowsIn(data, b, u), key), mixed)
  {
  }

  /** The averages of a bucket, data point by data point: with a further number x an average of n numbers moves so that
      (n + 1) times the new one is n times the old one plus x; a null changes nothing. */
  lemma BucketAverageGrows(data: seq<Row>, b: Bucket, u: int, mixed: seq<Field> -> Field, row: Row, key: string)
    requires u > 0 && data != [] && b.start <= row.timestamp / u * u <= b.end && key in row.fields
    requires Plain(Column(RowsIn(data, b, u), key))
    ensures var n := CountNumbers(Column(RowsIn(data, b, u), key));
            var before, after := BucketRow(data, b, u, mixed).fields, BucketRow(data + [row], b, u, mixed).fields;
            && key in before && key in after
            && (row.fields[key].Null? ==> after[key] == before[key])
            && (row.fields[key].Num? ==> Moves(before[key], n, row.fields[key].value, after[key]))
  {
    var rows, v := RowsIn(data, b, u), row.fields[key];
    RowsInGrow(data, b, u, row);
    ColumnGrows(rows, row, key);
    AverageGrows(Column(rows, key), mixed, if v.Num? then v.value else 0.0);
    assert key in rows[0].fields && (rows + [row])[0] == rows[0];
    BucketField(data, b, u, mixed, key);
    BucketField(data + [row], b, u, mixed, key);
  }

  /** Every bucket's number lies within the numbers of the data points that fall into it, whenever the column
      holds nothing but numbers, nulls and absent values there. */
  lemma BucketMeanBetween(data: seq<Row>, b: Bucket, u: int, mixed: seq<Field> -> Field, key: string, lo: real,
                          hi: real)
    requires u > 0 && data != []
    requires forall row :: row in data && b.Contains(StartOf(row.timestamp, u)) && key in row.fields ==>
               && !row.fields[key].Other?
               && (row.fields[key].Num? ==> lo <= row.fields[key].value <= hi)
    ensures var out := BucketRow(data, b, u, mixed);
            key in out.fields && out.fields[key].Num? ==> lo <= out.fields[key].value <= hi
  {
    var rows, out := RowsIn(data, b, u), BucketRow(data, b, u, mixed);
    RowsInAreData(data, b, u);
    if rows != [] && key in out.fields && out.fields[key].Num? {
      var values := Column(rows, key);
      forall i | 0 <= i < |values|
        ensures !values[i].Other? && (values[i].Num? ==> lo <= values[i].value <= hi)
      { assert rows[i] in rows; }
      AverageMeaning(values, mixed, lo, hi);
    }
  }
}
