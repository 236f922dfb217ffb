/** Backfilling generation costs newest first, one batch at a time
    (worker/src/backgroundMigrations/addGenerationsCostBackfill.ts). */
module CostBackfill {
  import opened Arithmetic
  import opened Collections
  import opened Wrappers

  /* ---------- rows ---------- */

  type Numeric = Option<real>

  /** The price columns of the model that the join finds for a row. */
  datatype Model = Model(id: nat, inputPrice: Numeric, outputPrice: Numeric, totalPrice: Numeric)

  datatype Calculated = Calculated(input: Numeric, output: Numeric, total: Numeric, modelId: Option<nat>, done: bool)

  datatype Row = Row(startTime: int, hasInternalModel: bool, model: Option<Model>,
                     promptTokens: Numeric, completionTokens: Numeric, totalTokens: Numeric,
                     inputCost: Numeric, outputCost: Numeric, totalCost: Numeric, calculated: Calculated)

  type Table = map<nat, Row>

  function Times(a: Numeric, b: Numeric): Numeric {
    if a.Some? && b.Some? then Some(a.value * b.value) else None
  }

  function Plus(a: Numeric, b: Numeric): Numeric {
    if a.Some? && b.Some? then Some(a.value + b.value) else None
  }

  function Updated(r: Row): (u: Row)
    ensures u.startTime == r.startTime && Matching(u) == Matching(r)
  {
    var m := if r.model.Some? then r.model.value else Model(0, None, None, None);
    var noCosts := r.inputCost.None? && r.outputCost.None? && r.totalCost.None?;
    var input := if noCosts then Times(r.promptTokens, m.inputPrice) else r.inputCost;
    var output := if noCosts then Times(r.completionTokens, m.outputPrice) else r.outputCost;
    var total :=
      if !noCosts then r.totalCost
      else if m.totalPrice.Some? && r.totalTokens.Some? then Times(m.totalPrice, r.totalTokens)
      else Plus(Times(r.promptTokens, m.inputPrice), Times(r.completionTokens, m.outputPrice));
    r.(calculated := Calculated(input, output, total, if r.model.Some? then Some(m.id) else None, true))
  }

  predicate Matching(r: Row) { r.hasInternalModel || r.inputCost.Some? || r.outputCost.Some? || r.totalCost.Some? }

  /** The product of two numbers, unless one is missing. */
  predicate IsProduct(p: Numeric, a: Numeric, b: Numeric) {
    (p.Some? <==> a.Some? && b.Some?) && (a.Some? && b.Some? ==> p.value == a.value * b.value)
  }

  /** Given costs win as a whole; only without any are tokens priced, and then the total is the total price
      of all tokens where that is known, and otherwise the sum of the two parts, unless one is missing. */
  lemma CostMeaning(r: Row)
    ensures var x := Updated(r).calculated; var given := r.inputCost.Some? || r.outputCost.Some? || r.totalCost.Some?;
            && (given ==> x.input == r.inputCost && x.output == r.outputCost && x.total == r.totalCost)
            && (!given && r.model.None? ==> x.input == None && x.output == None && x.total == None)
            && (!given && r.model.Some? ==>
                  var m := r.model.value;
                  && IsProduct(x.input, r.promptTokens, m.inputPrice)
                  && IsProduct(x.output, r.completionTokens, m.outputPrice)
                  && (m.totalPrice.Some? && r.totalTokens.Some? ==> IsProduct(x.total, m.totalPrice, r.totalTokens))
                  && (m.totalPrice.None? || r.totalTokens.None? ==>
                        && (x.total.Some? <==> x.input.Some? && x.output.Some?)
                        && (x.total.Some? ==> x.total.value == x.input.value + x.output.value)))
  {
  }

  /** Beside the costs an update stores the model it used and that it is done; nothing else of the row changes. */
  lemma UpdateKeeps(r: Row)
    ensures var u := Updated(r);
            && u.calculated.done
            && (u.calculated.modelId.Some? <==> r.model.Some?)
            && (r.model.Some? ==> u.calculated.modelId == Some(r.model.value.id))
            && u.(calculated := r.calculated) == r
  {
  }

  /* ---------- one batch ---------- */

  function Eligible(rows: Table, cutoff: int): set<nat> {
    set id | id in rows && Matching(rows[id]) && rows[id].startTime <= cutoff
  }

  /** A possible answer of the query: the newest eligible rows, ties cut arbitrarily. */
  predicate IsBatch(rows: Table, eligible: set<nat>, size: nat, batch: set<nat>)
    requires eligible <= rows.Keys
  {
    && batch <= eligible && |batch| == Min(size, |eligible|)
    && forall b, e :: b in batch && e in eligible - batch ==> rows[e].startTime <= rows[b].startTime
  }

  predicate IsOldest(rows: Table, batch: set<nat>, t: int)
    requires batch <= rows.Keys
  {
    (exists b :: b in batch && rows[b].startTime == t) && forall b :: b in batch ==> t <= rows[b].startTime
  }

  function UpdateRows(rows: Table, batch: set<nat>): Table {
    map id | id in rows :: if id in batch then Updated(rows[id]) else rows[id]
  }

  lemma {:induction false} NewestExists(rows: Table, ids: set<nat>) returns (id: nat)
    requires ids <= rows.Keys && ids != {}
    ensures id in ids && forall b :: b in ids ==> rows[b].startTime <= rows[id].startTime
  {
    var x :| x in ids;
    if ids == {x} {
      id := x;
    } else {
      assert ids - {x} != {};
      var y := NewestExists(rows, ids - {x});
      id := if rows[x].startTime <= rows[y].startTime then y else x;
    }
  }

  lemma {:induction false} OldestExists(rows: Table, ids: set<nat>)
    requires ids <= rows.Keys && ids != {}
    ensures exists t :: IsOldest(rows, ids, t)
  {
    var x :| x in ids;
    if ids == {x} {
      assert IsOldest(rows, ids, rows[x].startTime);
    } else {
      assert ids - {x} != {};
      OldestExists(rows, ids - {x});
      var t :| IsOldest(rows, ids - {x}, t);
      assert IsOldest(rows, ids, if rows[x].startTime < t then rows[x].startTime else t);
    }
  }

  lemma BatchGrows(rows: Table, eligible: set<nat>, size: nat, batch: set<nat>, id: nat)
    requires size > 0 && eligible <= rows.Keys && IsBatch(rows, eligible, size - 1, batch) && id in eligible - batch
    requires forall b :: b in eligible - batch ==> rows[b].startTime <= rows[id].startTime
    ensures IsBatch(rows, eligible, size, batch + {id})
  {
    SubsetSize(batch + {id}, eligible);
    assert |batch + {id}| == |batch| + 1;
  }

  lemma {:induction false} BatchExists(rows: Table, eligible: set<nat>, size: nat)
    requires eligible <= rows.Keys
    ensures exists batch: set<nat> {:trigger IsBatch(rows, eligible, size, batch)} ::
              batch <= eligible && IsBatch(rows, eligible, size, batch)
    decreases size
  {
    if size == 0 {
      assert IsBatch(rows, eligible, size, {});
    } else {
      BatchExists(rows, eligible, size - 1);
      var batch: set<nat> :| batch <= eligible && IsBatch(rows, eligible, size - 1, batch);
      if eligible - batch == {} {
        assert batch == eligible;
        assert IsBatch(rows, eligible, size, batch);
      } else {
        var id := NewestExists(rows, eligible - batch);
        BatchGrows(rows, eligible, size, batch, id);
        assert IsBatch(rows, eligible, size, batch + {id});
      }
    }
  }

  /* ---------- equal start times ---------- */

  function AtTime(rows: Table, t: int): set<nat> {
    set id | id in rows && Matching(rows[id]) && rows[id].startTime == t
  }

  /** Fewer than a batch of matching rows share any start time in range. */
  ghost predicate Spread(rows: Table, maxDate: int, size: nat) {
    forall t :: t <= maxDate ==> |AtTime(rows, t)| < size
  }

  /** The cutoff stays where it is exactly when a full batch of matching rows shares it. */
  lemma StallIff(rows: Table, cutoff: int, size: nat, batch: set<nat>, oldest: int)
    requires size > 0 && IsBatch(rows, Eligible(rows, cutoff), size, batch) && |batch| == size
    requires IsOldest(rows, batch, oldest)
    ensures oldest == cutoff <==> |AtTime(rows, cutoff)| >= size
  {
    if oldest == cutoff { SubsetSize(batch, AtTime(rows, cutoff)); }
    if |AtTime(rows, cutoff)| >= size { CutoffStaysAbove(rows, cutoff, size, batch, oldest, cutoff); }
  }

  /** A full batch of rows at one time is a floor: no query finds less than a batch above it, and no
      cutoff passes it, so an unlimited run that starts at or above it never ends. */
  lemma CutoffStaysAbove(rows: Table, cutoff: int, size: nat, batch: set<nat>, oldest: int, t: int)
    requires size > 0 && IsBatch(rows, Eligible(rows, cutoff), size, batch)
    requires t <= cutoff && |AtTime(rows, t)| >= size && (batch != {} ==> IsOldest(rows, batch, oldest))
    ensures |batch| == size && oldest >= t
  {
    var eligible := Eligible(rows, cutoff);
    SubsetSize(AtTime(rows, t), eligible);
    if oldest < t {
      var b :| b in batch && rows[b].startTime == oldest;
      assert |AtTime(rows, t) + {b}| == |AtTime(rows, t)| + 1;
      SubsetSize(AtTime(rows, t) + {b}, batch);
    }
  }

  /** With spread start times every full batch leaves strictly fewer rows below the new cutoff. */
  lemma BatchShrinks(rows: Table, cutoff: int, size: nat, batch: set<nat>, oldest: int)
    requires size > 0 && IsBatch(rows, Eligible(rows, cutoff), size, batch) && |batch| == size
    requires IsOldest(rows, batch, oldest) && |AtTime(rows, oldest)| < size
    ensures oldest <= cutoff && |Eligible(rows, oldest)| < |Eligible(rows, cutoff)|
  {
    if batch <= AtTime(rows, oldest) {
      SubsetSize(batch, AtTime(rows, oldest));
    } else {
      var b :| b in batch && b !in AtTime(rows, oldest);
      assert b in Eligible(rows, cutoff) - Eligible(rows, oldest);
      SubsetSize(Eligible(rows, oldest), Eligible(rows, cutoff) - {b});
    }
  }

  /** From one cutoff to the next, after a full batch. */
  ghost predicate Round(rows: Table, cutoff: int, size: nat, next: int) {
    exists batch: set<nat> {:trigger IsOldest(rows, batch, next)} ::
      batch <= Eligible(rows, cutoff) && IsBatch(rows, Eligible(rows, cutoff), size, batch)
      && |batch| == size && IsOldest(rows, batch, next)
  }

  ghost predicate IsRun(rows: Table, size: nat, cuts: seq<int>) {
    cuts != [] && forall k :: 0 <= k < |cuts| - 1 ==> Round(rows, cuts[k], size, cuts[k + 1])
  }

  /** The last query of the run finds less than a full batch. */
  ghost predicate Ends(rows: Table, size: nat, cuts: seq<int>)
    requires cuts != []
  {
    |Eligible(rows, cuts[|cuts| - 1])| < size
  }

  /** Spread start times bound the number of full batches of every run by the number of eligible rows. */
  lemma {:induction false} RunsAreShort(rows: Table, size: nat, cuts: seq<int>)
    requires size > 0 && IsRun(rows, size, cuts) && Spread(rows, cuts[0], size)
    ensures |cuts| - 1 + |Eligible(rows, cuts[|cuts| - 1])| <= |Eligible(rows, cuts[0])|
    decreases |cuts|
  {
    if |cuts| > 1 {
      assert Round(rows, cuts[0], size, cuts[1]);
      var batch: set<nat> :| batch <= Eligible(rows, cuts[0]) && IsBatch(rows, Eligible(rows, cuts[0]), size, batch)
                             && |batch| == size && IsOldest(rows, batch, cuts[1]);
      BatchShrinks(rows, cuts[0], size, batch, cuts[1]);
      forall k | 0 <= k < |cuts[1..]| - 1 ensures Round(rows, cuts[1..][k], size, cuts[1..][k + 1]) {
        assert Round(rows, cuts[k + 1], size, cuts[k + 2]);
      }
      RunsAreShort(rows, size, cuts[1..]);
    }
  }

  lemma {:induction false} NoRunEnds(rows: Table, size: nat, cuts: seq<int>, t: int)
    requires size > 0 && IsRun(rows, size, cuts) && t <= cuts[0] && |AtTime(rows, t)| >= size
    ensures t <= cuts[|cuts| - 1] && !Ends(rows, size, cuts)
    decreases |cuts|
  {
    if |cuts| > 1 {
      var front := cuts[..|cuts| - 1];
      var last := |front| - 1;
      NoRunEnds(rows, size, front, t);
      assert Round(rows, cuts[last], size, cuts[last + 1]);
      var batch: set<nat> :| batch <= Eligible(rows, cuts[last])
                                  && IsBatch(rows, Eligible(rows, cuts[last]), size, batch)
                             && |batch| == size && IsOldest(rows, batch, cuts[last + 1]);
      CutoffStaysAbove(rows, cuts[last], size, batch, cuts[last + 1], t);
    }
    SubsetSize(AtTime(rows, t), Eligible(rows, cuts[|cuts| - 1]));
  }

  lemma {:induction false} SomeRunEnds(rows: Table, size: nat, cutoff: int) returns (cuts: seq<int>)
    requires size > 0 && Spread(rows, cutoff, size)
    ensures IsRun(rows, size, cuts) && cuts[0] == cutoff && Ends(rows, size, cuts)
    decreases |Eligible(rows, cutoff)|
  {
    if |Eligible(rows, cutoff)| < size {
      cuts := [cutoff];
    } else {
      BatchExists(rows, Eligible(rows, cutoff), size);
      var batch: set<nat> :| batch <= Eligible(rows, cutoff) && IsBatch(rows, Eligible(rows, cutoff), size, batch);
      OldestExists(rows, batch);
      var next :| IsOldest(rows, batch, next);
      assert next <= cutoff;
      BatchShrinks(rows, cutoff, size, batch, next);
      assert Round(rows, cutoff, size, next);
      var rest := SomeRunEnds(rows, size, next);
      cuts := [cutoff] + rest;
    }
  }

  /** An unlimited run can come to its normal end exactly when the start times are spread. */
  lemma UnlimitedRunEndsIff(rows: Table, size: nat, maxDate: int)
    requires size > 0
    ensures (exists cuts :: IsRun(rows, size, cuts) && cuts[0] == maxDate && Ends(rows, size, cuts))
            <==> Spread(rows, maxDate, size)
  {
    if Spread(rows, maxDate, size) {
      var cuts := SomeRunEnds(rows, size, maxDate);
    } else {
      var t :| t <= maxDate && |AtTime(rows, t)| >= size;
      forall cuts | IsRun(rows, size, cuts) && cuts[0] == maxDate ensures !Ends(rows, size, cuts) {
        NoRunEnds(rows, size, cuts, t);
      }
    }
  }

  /* ---------- what updating keeps ---------- */

  predicate SameQueries(rows: Table, first: Table) {
    && rows.Keys == first.Keys
    && forall id :: id in first ==>
         Matching(rows[id]) == Matching(first[id]) && rows[id].startTime == first[id].startTime
  }

  lemma SameAnswers(rows: Table, first: Table, t: int)
    requires SameQueries(rows, first)
    ensures Eligible(rows, t) == Eligible(first, t) && AtTime(rows, t) == AtTime(first, t)
  {
  }

  /** Updating a row a second time, as overlapping batches do, changes nothing. */
  lemma UpdateTwice(r: Row)
    ensures Updated(Updated(r)) == Updated(r)
  {
  }

  /** Each row is as it was or updated once; nothing outside the range is touched. */
  predicate OnlyUpdates(rows: Table, first: Table, maxDate: int) {
    && rows.Keys == first.Keys
    && forall id :: id in first ==>
         rows[id] == first[id] || (id in Eligible(first, maxDate) && rows[id] == Updated(first[id]))
  }

  /** Every matching row newer than the cutoff is updated. */
  predicate CoveredAbove(rows: Table, first: Table, cutoff: int, maxDate: int)
    requires rows.Keys == first.Keys
  {
    forall id :: id in Eligible(first, maxDate) && cutoff < first[id].startTime ==> rows[id] == Updated(first[id])
  }

  /** A row is reached only after every newer matching row. */
  predicate NewestFirst(rows: Table, first: Table, maxDate: int)
    requires rows.Keys == first.Keys
  {
    forall a, b :: a in Eligible(first, maxDate) && b in first ==>
      first[b].startTime < first[a].startTime && rows[b] != first[b] ==> rows[a] == Updated(first[a])
  }

  /** Exactly the matching rows up to the date are updated. */
  predicate Complete(rows: Table, first: Table, maxDate: int) { rows == UpdateRows(first, Eligible(first, maxDate)) }

  /** Complete: every row up to the date that has an internal model or a given cost is updated, and no other one. */
  lemma CompleteMeaning(rows: Table, first: Table, maxDate: int)
    ensures Complete(rows, first, maxDate) <==>
            && rows.Keys == first.Keys
            && forall id :: id in first ==>
                 var r := first[id];
                 rows[id] == if r.startTime <= maxDate && (r.hasInternalModel || r.inputCost.Some? || r.outputCost.Some?
                                                           || r.totalCost.Some?)
                             then Updated(r) else r
  {
    if rows.Keys == first.Keys && forall id :: id in first ==>
         rows[id] == if id in Eligible(first, maxDate) then Updated(first[id]) else first[id]
    {
      assert rows == UpdateRows(first, Eligible(first, maxDate));
    }
  }

  lemma BatchKeeps(rows: Table, first: Table, cutoff: int, maxDate: int, size: nat, batch: set<nat>)
    requires cutoff <= maxDate && OnlyUpdates(rows, first, maxDate) && CoveredAbove(rows, first, cutoff, maxDate)
    requires IsBatch(rows, Eligible(rows, cutoff), size, batch)
    ensures var next := UpdateRows(rows, batch);
            && OnlyUpdates(next, first, maxDate)
            && (forall t :: IsOldest(rows, batch, t) ==> CoveredAbove(next, first, t, maxDate))
            && (|batch| < size ==> Complete(next, first, maxDate))
  {
    var next := UpdateRows(rows, batch);
    forall id | id in first ensures id in batch ==> next[id] == Updated(first[id]) { UpdateTwice(first[id]); }
    if |batch| < size { SubsetSize(batch, Eligible(rows, cutoff)); }
  }

  /** Updating rows changes no later answer of the query. */
  lemma SameRound(rows: Table, first: Table, cutoff: int, size: nat, batch: set<nat>, next: int)
    requires rows.Keys == first.Keys && Eligible(rows, cutoff) == Eligible(first, cutoff)
    requires forall id :: id in first ==> rows[id].startTime == first[id].startTime
    requires IsBatch(rows, Eligible(rows, cutoff), size, batch) && |batch| == size && IsOldest(rows, batch, next)
    ensures Round(first, cutoff, size, next)
  {
    assert IsBatch(first, Eligible(first, cutoff), size, batch) && IsOldest(first, batch, next);
  }

  lemma RunGoesOn(rows: Table, size: nat, cuts: seq<int>, next: int)
    requires IsRun(rows, size, cuts) && Round(rows, cuts[|cuts| - 1], size, next)
    ensures IsRun(rows, size, cuts + [next])
  {
    var more := cuts + [next];
    forall k | 0 <= k < |more| - 1 ensures Round(rows, more[k], size, more[k + 1]) {
      if k < |cuts| - 1 { assert Round(rows, cuts[k], size, cuts[k + 1]); }
    }
  }

  /** The table after full batches with these cutoffs. */
  ghost predicate Backfilled(rows: Table, first: Table, maxDate: int, size: nat, cuts: seq<int>) {
    && IsRun(first, size, cuts) && cuts[0] == maxDate && cuts[|cuts| - 1] <= maxDate
    && OnlyUpdates(rows, first, maxDate) && CoveredAbove(rows, first, cuts[|cuts| - 1], maxDate)
    && forall id :: id in first && first[id].startTime < cuts[|cuts| - 1] ==> rows[id] == first[id]
  }

  /** What every ending guarantees: the cutoffs are those of a run on the first table, each row is as it was or updated
      once, everything newer than the last cutoff is updated, and no row was reached before a newer one. */
  ghost predicate Sound(rows: Table, first: Table, maxDate: int, size: nat, cuts: seq<int>) {
    && IsRun(first, size, cuts) && cuts[0] == maxDate
    && OnlyUpdates(rows, first, maxDate) && CoveredAbove(rows, first, cuts[|cuts| - 1], maxDate)
    && NewestFirst(rows, first, maxDate)
  }

  /** One more statement: a full batch moves the cutoff on, over fewer rows if start times are spread; a short one
      completes the table. */
  lemma BackfillsOn(rows: Table, first: Table, maxDate: int, size: nat, cuts: seq<int>, batch: set<nat>,
                    next: Option<int>)
    requires size > 0 && Backfilled(rows, first, maxDate, size, cuts)
    requires IsBatch(rows, Eligible(rows, cuts[|cuts| - 1]), size, batch)
    requires if next.Some? then |batch| == size && IsOldest(rows, batch, next.value) else |batch| < size
    ensures var after, cutoff := UpdateRows(rows, batch), cuts[|cuts| - 1];
            if next.Some?
            then
              && Backfilled(after, first, maxDate, size, cuts + [next.value])
              && (Spread(first, maxDate, size) ==> |Eligible(first, next.value)| < |Eligible(first, cutoff)|)
            else
              Sound(after, first, maxDate, size, cuts) && Complete(after, first, maxDate) && Ends(first, size, cuts)
  {
    var cutoff, after := cuts[|cuts| - 1], UpdateRows(rows, batch);
    BatchKeeps(rows, first, cutoff, maxDate, size, batch);
    SameAnswers(rows, first, cutoff);
    if next.Some? {
      SameRound(rows, first, cutoff, size, batch, next.value);
      RunGoesOn(first, size, cuts, next.value);
      if Spread(first, maxDate, size) { RoundShrinks(first, maxDate, size, cutoff, next.value); }
    } else {
      CompleteIsNewestFirst(after, first, maxDate);
    }
  }

  lemma CompleteIsNewestFirst(rows: Table, first: Table, maxDate: int)
    requires rows.Keys == first.Keys && Complete(rows, first, maxDate)
    ensures NewestFirst(rows, first, maxDate)
  {
  }

  /** The rows of `n` full batches. */
  function BatchRows(n: nat, size: nat): nat { if n == 0 then 0 else BatchRows(n - 1, size) + size }

  lemma RoundShrinks(rows: Table, maxDate: int, size: nat, cutoff: int, next: int)
    requires size > 0 && cutoff <= maxDate && Spread(rows, maxDate, size) && Round(rows, cutoff, size, next)
    ensures |Eligible(rows, next)| < |Eligible(rows, cutoff)|
  {
    var batch: set<nat> :| batch <= Eligible(rows, cutoff) && IsBatch(rows, Eligible(rows, cutoff), size, batch)
                           && |batch| == size && IsOldest(rows, batch, next);
    BatchShrinks(rows, cutoff, size, batch, next);
  }

  lemma BackfilledIsSound(rows: Table, first: Table, maxDate: int, size: nat, cuts: seq<int>)
    requires Backfilled(rows, first, maxDate, size, cuts)
    ensures Sound(rows, first, maxDate, size, cuts)
  {
  }

  /* ---------- the migration ---------- */

  datatype Ending = Finished | LimitReached | Aborted

  class Observations {
    var rows: Table

    /** One statement: update a newest batch and report the start time of its last row when it is full. */
    method UpdateBatch(cutoff: int, size: nat) returns (next: Option<int>, ghost batch: set<nat>)
      requires size > 0
      modifies this
      ensures IsBatch(old(rows), Eligible(old(rows), cutoff), size, batch)
      ensures rows == UpdateRows(old(rows), batch)
      ensures next.Some? <==> |batch| == size
      ensures next.Some? ==> IsOldest(old(rows), batch, next.value)
    {
      var eligible := Eligible(rows, cutoff);
      BatchExists(rows, eligible, size);
      var chosen: set<nat> :| chosen <= eligible && IsBatch(rows, eligible, size, chosen);
      next := None;
      if |chosen| == size {
        OldestExists(rows, chosen);
        ghost var t :| IsOldest(rows, chosen, t);
        assert exists b :: b in chosen && IsOldest(rows, chosen, rows[b].startTime);
        var last :| last in chosen && IsOldest(rows, chosen, rows[last].startTime);
        next := Some(rows[last].startTime);
      }
      rows := UpdateRows(rows, chosen);
      batch := chosen;
    }

    /** `limit` is the optional number of rows to process; `abortAfter` says in which round the abort signal is first
        seen. An unlimited run needs spread start times to end. `cuts` are the cutoffs it went through, one more than
        it had full batches. */
    method Run(maxDate: int, size: nat, limit: Option<nat>, abortAfter: Option<nat>)
      returns (ending: Ending, totalRowsProcessed: nat, ghost cuts: seq<int>)
      requires size > 0
      requires limit.Some? || abortAfter.Some? || Spread(rows, maxDate, size)
      modifies this
      ensures Sound(rows, old(rows), maxDate, size, cuts)
      ensures totalRowsProcessed == BatchRows(|cuts| - 1, size)
      ensures ending == Finished ==> Complete(rows, old(rows), maxDate) && Ends(old(rows), size, cuts)
      ensures ending == LimitReached ==>
                && limit.Some? && totalRowsProcessed >= limit.value
                && (|cuts| > 1 ==> totalRowsProcessed - size < limit.value)
      ensures ending == Aborted ==> abortAfter == Some(|cuts| - 1)
    {
      ghost var first := rows;
      var cutoff, rounds := maxDate, 0;
      totalRowsProcessed, cuts := 0, [maxDate];
      while (abortAfter.None? || rounds < abortAfter.value) && (limit.None? || totalRowsProcessed < limit.value)
        invariant Backfilled(rows, first, maxDate, size, cuts) && cuts[|cuts| - 1] == cutoff
        invariant rounds == |cuts| - 1 && totalRowsProcessed == BatchRows(rounds, size)
        invariant abortAfter.Some? ==> rounds <= abortAfter.value
        invariant limit.Some? && rounds > 0 ==> totalRowsProcessed < limit.value
        decreases if abortAfter.Some? then abortAfter.value - rounds
                  else if limit.Some? then limit.value - totalRowsProcessed
                  else |Eligible(first, cutoff)|
      {
        ghost var before := rows;
        var next;
        ghost var batch;
        next, batch := UpdateBatch(cutoff, size);
        BackfillsOn(before, first, maxDate, size, cuts, batch, next);
        if next.None? { return Finished, totalRowsProcessed, cuts; }
        cutoff := next.value;
        cuts := cuts + [cutoff];
        totalRowsProcessed := totalRowsProcessed + size;
        rounds := rounds + 1;
        if limit.Some? && totalRowsProcessed >= limit.value {
          BackfilledIsSound(rows, first, maxDate, size, cuts);
          return LimitReached, totalRowsProcessed, cuts;
        }
      }
      BackfilledIsSound(rows, first, maxDate, size, cuts);
      ending := if abortAfter.Some? && rounds >= abortAfter.value then Aborted else LimitReached;
    }
  }
}
