/** One worker's manager object: the acquire transaction, the heartbeat, the run loop and close. */
module MigrationManager {
  import opened Wrappers
  import opened MigrationLease

  class MigrationTable {
    var rows: seq<Row>

    constructor (rows: seq<Row>)
      ensures this.rows == rows
    {
      this.rows := rows;
    }
  }

  /** A row after this worker has taken it through validation and its run. */
  function Completed(row: Row, w: nat, ok: bool): Row {
    if row.Open() then Row(Some(w), None, ok, !ok) else row
  }

  /** How many of the first `k` rows are open: the passes the loop makes before it comes to row `k`. */
  function Passes(rows: seq<Row>, k: nat): nat
    requires k <= |rows|
  {
    if k == 0 then 0 else Passes(rows, k - 1) + if rows[k - 1].Open() then 1 else 0
  }

  /** Somebody else holds the row at the time of the pass that comes to it. `clock` gives the time of each pass. */
  predicate HeldInPass(rows: seq<Row>, clock: nat -> int, k: nat)
    requires k < |rows|
  {
    rows[k].Open() && rows[k].Locked(clock(Passes(rows, k)))
  }

  /** The first row from `k` on that is held when the loop comes to it; the loop stops there. */
  function FirstLocked(rows: seq<Row>, clock: nat -> int, k: nat): nat
    requires k <= |rows|
    decreases |rows| - k
  {
    if k == |rows| || HeldInPass(rows, clock, k) then k else FirstLocked(rows, clock, k + 1)
  }

  lemma {:induction false} FirstLockedMeaning(rows: seq<Row>, clock: nat -> int, k: nat)
    requires k <= |rows|
    ensures k <= FirstLocked(rows, clock, k) <= |rows|
    ensures forall i :: k <= i < FirstLocked(rows, clock, k) ==> !HeldInPass(rows, clock, i)
    ensures FirstLocked(rows, clock, k) < |rows| ==> HeldInPass(rows, clock, FirstLocked(rows, clock, k))
    decreases |rows| - k
  {
    if k < |rows| && !HeldInPass(rows, clock, k) { FirstLockedMeaning(rows, clock, k + 1); }
  }

  lemma {:induction false} NoPasses(rows: seq<Row>, a: nat, b: nat)
    requires a <= b <= |rows| && forall i :: a <= i < b ==> !rows[i].Open()
    ensures Passes(rows, b) == Passes(rows, a)
  {
    if a < b { NoPasses(rows, a, b - 1); }
  }

  /** The table after this worker has gone through the rows before `done`. */
  ghost predicate Progressed(rows: seq<Row>, first: seq<Row>, done: nat, clock: nat -> int, w: nat,
                             valid: seq<bool>, succeeds: seq<bool>)
  {
    && |rows| == |first| && done <= FirstLocked(first, clock, 0) <= |first|
    && (forall i :: 0 <= i < done ==> rows[i] == Completed(first[i], w, !Invalid(valid, i) && !Invalid(succeeds, i)))
    && (forall i :: done <= i < |first| ==> rows[i] == first[i])
  }

  /** The next row to lock is the first open one from `done` on; without one, nothing is left to do. */
  lemma NextRow(rows: seq<Row>, first: seq<Row>, done: nat, clock: nat -> int, w: nat,
                valid: seq<bool>, succeeds: seq<bool>)
    requires Progressed(rows, first, done, clock, w, valid, succeeds)
    ensures var m := Acquirable(rows, clock(Passes(first, done)));
            if m.Some?
            then done <= m.value < FirstLocked(first, clock, 0) && first[m.value].Open()
                 && (forall i :: done <= i < m.value ==> !first[i].Open())
                 && Passes(first, m.value + 1) == Passes(first, done) + 1
            else forall i :: done <= i < FirstLocked(first, clock, 0) ==> !first[i].Open()
  {
    FirstOpenFromMeaning(rows, 0);
    FirstLockedMeaning(first, clock, 0);
    if FirstOpen(rows).Some? {
      var m := FirstOpen(rows).value;
      assert done <= m && rows[m] == first[m];
      assert forall i :: done <= i < m ==> rows[i] == first[i];
      NoPasses(first, done, m);
      assert HeldInPass(first, clock, m) <==> rows[m].Locked(clock(Passes(first, done)));
      var stop := FirstLocked(first, clock, 0);
      assert stop < |first| ==> rows[stop].Open();
    } else {
      assert forall i :: done <= i < |first| ==> rows[i] == first[i];
    }
  }

  lemma RowDone(rows: seq<Row>, first: seq<Row>, done: nat, clock: nat -> int, w: nat,
                valid: seq<bool>, succeeds: seq<bool>, m: nat)
    requires Progressed(rows, first, done, clock, w, valid, succeeds)
    requires done <= m < FirstLocked(first, clock, 0) && first[m].Open()
    requires forall i :: done <= i < m ==> !first[i].Open()
    ensures var ok := !Invalid(valid, m) && !Invalid(succeeds, m);
            Progressed(rows[m := Row(Some(w), None, ok, !ok)], first, m + 1, clock, w, valid, succeeds)
  {
  }

  /** An open row that is locked, renewed and then completed. */
  lemma LockedThenDone(rows: seq<Row>, m: nat, w: nat, now: int, ok: bool)
    requires m < |rows| && rows[m].Open()
    ensures var renewed := Renewed(rows[m := rows[m].(workerId := Some(w), lockedAt := Some(now))], m, w, now);
            && Owns(renewed, m, w)
            && (if ok then WithFinished(renewed, m) else WithFailed(renewed, m)) ==
               rows[m := Row(Some(w), None, ok, !ok)]
  {
  }

  /** A row that this worker failed stays as it is when it is failed again. */
  lemma FailedAgain(rows: seq<Row>, m: nat, w: nat, now: int)
    requires m < |rows| && rows[m] == Row(Some(w), None, false, true)
    ensures Renewed(rows, m, w, now) == rows && Owns(rows, m, w) && WithFailed(rows, m) == rows
  {
  }

  class BackgroundMigrationManager {
    const workerId: nat
    const table: MigrationTable
    var activeMigration: Option<nat>

    constructor (workerId: nat, table: MigrationTable)
      ensures this.workerId == workerId && this.table == table && activeMigration == None
    {
      this.workerId, this.table, activeMigration := workerId, table, None;
    }

    method HeartBeat(now: int)
      modifies table
      ensures table.rows == if activeMigration.None? then old(table.rows)
                            else Renewed(old(table.rows), activeMigration.value, workerId, now)
    {
      if activeMigration.None? { return; }
      var m := activeMigration.value;
      if && m < |table.rows| && table.rows[m].workerId == Some(workerId)
         && !table.rows[m].finished && !table.rows[m].failed
      {
        table.rows := table.rows[m := table.rows[m].(lockedAt := Some(now))];
      }
    }

    /** The serializable transaction: lock the first open row unless its lease is younger than 60 s. */
    method AcquireNext(now: int) returns (migrationToRun: bool)
      modifies this, table
      ensures migrationToRun == Acquirable(old(table.rows), now).Some?
      ensures migrationToRun ==>
                var m := Acquirable(old(table.rows), now).value;
                && activeMigration == Some(m) && m < |old(table.rows)|
                && table.rows ==
                   old(table.rows)[m := old(table.rows)[m].(workerId := Some(workerId), lockedAt := Some(now))]
      ensures !migrationToRun ==> activeMigration == old(activeMigration) && table.rows == old(table.rows)
    {
      var rows := table.rows;
      var k := 0;
      while k < |rows| && !rows[k].Open()
        invariant 0 <= k <= |rows|
        invariant FirstOpen(rows) == FirstOpenFrom(rows, k)
      {
        k := k + 1;
      }
      if k == |rows| || rows[k].Locked(now) { return false; }
      table.rows := rows[k := rows[k].(workerId := Some(workerId), lockedAt := Some(now))];
      activeMigration := Some(k);
      return true;
    }

    /** `update` filtered by owner: it throws when the row is not ours any more. */
    method Complete(ok: bool) returns (threw: bool)
      requires activeMigration.Some?
      modifies table
      ensures threw == !Owns(old(table.rows), activeMigration.value, workerId)
      ensures table.rows == if threw then old(table.rows)
                            else if ok then WithFinished(old(table.rows), activeMigration.value)
                            else WithFailed(old(table.rows), activeMigration.value)
    {
      var m := activeMigration.value;
      if !(m < |table.rows| && table.rows[m].workerId == Some(workerId)) { return true; }
      var row := table.rows[m].(lockedAt := None);
      table.rows := table.rows[m := if ok then row.(finished := true) else row.(failed := true)];
      return false;
    }

    method Close() returns (threw: bool)
      modifies this, table
      ensures var m, before := old(activeMigration), old(table.rows);
              if m.None? then !threw && activeMigration == m && table.rows == before
              else
                && threw == !Owns(before, m.value, workerId)
                && activeMigration == (if threw then m else None)
                && table.rows == if threw then before else before[m.value := before[m.value].(lockedAt := None)]
    {
      if activeMigration.None? { return false; }
      var m := activeMigration.value;
      if !(m < |table.rows| && table.rows[m].workerId == Some(workerId)) { return true; }
      table.rows := table.rows[m := table.rows[m].(lockedAt := None)];
      activeMigration := None;
      return false;
    }

    /** The run loop of a worker that nobody disturbs, with the time of each pass: every open row before the first
        one that is locked by somebody else when the loop comes to it ends up finished or failed, in name order,
        and nothing after it is touched. */
    method Run(clock: nat -> int, valid: seq<bool>, succeeds: seq<bool>) returns (rejected: bool)
      requires activeMigration == None
      modifies this, table
      ensures !rejected
      ensures |table.rows| == |old(table.rows)|
      ensures forall i :: 0 <= i < |table.rows| ==>
                table.rows[i] ==
                if i < FirstLocked(old(table.rows), clock, 0)
                then Completed(old(table.rows)[i], workerId, !Invalid(valid, i) && !Invalid(succeeds, i))
                else old(table.rows)[i]
    {
      ghost var first := table.rows;
      ghost var done := 0;
      var pass, migrationToRun := 0, true;
      FirstLockedMeaning(first, clock, 0);
      while migrationToRun
        invariant Progressed(table.rows, first, done, clock, workerId, valid, succeeds)
        invariant migrationToRun ==> pass == Passes(first, done)
        invariant activeMigration.Some? ==>
                    && activeMigration.value < done && first[activeMigration.value].Open()
                    && Invalid(valid, activeMigration.value)
        invariant !migrationToRun ==>
                    forall i :: done <= i < FirstLocked(first, clock, 0) ==> !first[i].Open()
        decreases |first| - done, migrationToRun
      {
        ghost var before := table.rows;
        var now := clock(pass);
        pass := pass + 1;
        NextRow(before, first, done, clock, workerId, valid, succeeds);
        migrationToRun := AcquireNext(now);
        if activeMigration.None? { continue; }
        var m := activeMigration.value;
        ghost var ok := !Invalid(valid, m) && !Invalid(succeeds, m);
        if migrationToRun {
          RowDone(before, first, done, clock, workerId, valid, succeeds, m);
          LockedThenDone(before, m, workerId, now, ok);
        } else {
          FailedAgain(before, m, workerId, now);
        }
        HeartBeat(now);
        if m >= |valid| || !valid[m] {
          rejected := Complete(false);
          if rejected { return; }
          if migrationToRun { done := m + 1; }
          continue;
        }
        rejected := Complete(m < |succeeds| && succeeds[m]);
        if rejected { return; }
        activeMigration := None;
        done := m + 1;
      }
      return false;
    }
  }
}
