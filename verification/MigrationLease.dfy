/** Background migrations: several workers share one table through a 60 s lease
    (worker/src/backgroundMigrations/backgroundMigrationManager.ts). Rows are kept in name order. */
module MigrationLease {
  import opened Collections
  import opened Wrappers

  const LEASE_MS := 60 * 1000

  datatype Row = Row(workerId: Option<nat>, lockedAt: Option<int>, finished: bool, failed: bool) {
    predicate Open() { !finished && !failed }
    predicate Locked(now: int) { lockedAt.Some? && lockedAt.value > now - LEASE_MS }
  }

  /* ---------- the table ---------- */

  /** findFirst over the open rows, by name. */
  function FirstOpen(rows: seq<Row>): Option<nat> {
    FirstOpenFrom(rows, 0)
  }

  function FirstOpenFrom(rows: seq<Row>, k: nat): Option<nat>
    requires k <= |rows|
    decreases |rows| - k
  {
    if k == |rows| then None else if rows[k].Open() then Some(k) else FirstOpenFrom(rows, k + 1)
  }

  predicate Settled(rows: seq<Row>, m: nat)
    requires m <= |rows|
  {
    forall k :: 0 <= k < m ==> !rows[k].Open()
  }

  lemma {:induction false} FirstOpenFromMeaning(rows: seq<Row>, k: nat)
    requires k <= |rows| && Settled(rows, k)
    ensures match FirstOpenFrom(rows, k)
            case None => Settled(rows, |rows|)
            case Some(m) => k <= m < |rows| && rows[m].Open() && Settled(rows, m)
    decreases |rows| - k
  {
    if k < |rows| && !rows[k].Open() { FirstOpenFromMeaning(rows, k + 1); }
  }

  /** The row the acquire transaction would lock, if any. */
  function Acquirable(rows: seq<Row>, now: int): Option<nat> {
    FirstOpenFromMeaning(rows, 0);
    var m := FirstOpen(rows);
    if m.Some? && !rows[m.value].Locked(now) then m else None
  }

  predicate Owns(rows: seq<Row>, m: nat, w: nat) { m < |rows| && rows[m].workerId == Some(w) }

  /** updateMany of the heartbeat: only an owned, open row is renewed. */
  function Renewed(rows: seq<Row>, m: nat, w: nat, now: int): seq<Row> {
    if Owns(rows, m, w) && rows[m].Open() then rows[m := rows[m].(lockedAt := Some(now))] else rows
  }

  function WithFailed(rows: seq<Row>, m: nat): seq<Row>
    requires m < |rows|
  {
    rows[m := rows[m].(lockedAt := None, failed := true)]
  }

  function WithFinished(rows: seq<Row>, m: nat): seq<Row>
    requires m < |rows|
  {
    rows[m := rows[m].(lockedAt := None, finished := true)]
  }

  /* ---------- several workers ---------- */

  /** Where `run` of one worker process stands. `Acquired` is the wait for the first heartbeat, before `run` reads
      `activeMigration`. `Revisiting` and `Revalidating` are the same two stages of the pass over a migration that
      failed validation before and is still in `activeMigration` when the table has nothing left to lock. */
  datatype Phase = Looping | Acquired | Validating | Running | Revisiting | Revalidating | Stopped

  /** `active` is `activeMigration`; `current` the one `run` has read from it; `renewed` the last time this worker
      stored its lease; `more` the loop variable `migrationToRun`; `closing` says that `close` has released the
      lease and not yet forgotten the migration. */
  datatype Worker = Worker(phase: Phase, active: Option<nat>, current: nat, renewed: int, more: bool, closing: bool) {
    predicate PastHeartBeat() { phase in {Validating, Running} }
    predicate Holding() { PastHeartBeat() || (phase == Acquired && active.Some?) }
  }

  datatype State = State(clock: int, rows: seq<Row>, workers: map<nat, Worker>, used: set<nat>)

  datatype Action =
    | Tick(ms: nat)
    | Start(w: nat)
    | Die(w: nat)
    | Acquire(w: nat)
    | HeartBeat(w: nat)
    | ReadActive(w: nat)
    | Validate(w: nat)
    | RunReturns(w: nat)
    | RunThrows(w: nat)
    | Close(w: nat)
    | Forget(w: nat)

  predicate Enabled(s: State, a: Action) {
    match a
    case Tick(_) => true
    case Start(w) => w !in s.used
    case Die(w) => w in s.workers
    case Acquire(w) => w in s.workers && s.workers[w].phase == Looping
    case HeartBeat(w) => w in s.workers && s.workers[w].active.Some?
    case ReadActive(w) => w in s.workers && s.workers[w].phase in {Acquired, Revisiting}
    case Validate(w) => w in s.workers && s.workers[w].phase in {Validating, Revalidating}
    case RunReturns(w) => w in s.workers && s.workers[w].phase == Running
    case RunThrows(w) => w in s.workers && s.workers[w].phase == Running
    case Close(w) => w in s.workers && s.workers[w].active.Some? && !s.workers[w].closing
    case Forget(w) => w in s.workers && s.workers[w].closing
  }

  function Put(s: State, w: nat, x: Worker): State { s.(workers := s.workers[w := x]) }

  /** Next pass of the while loop, or its end. */
  function Again(x: Worker): Worker { x.(phase := if x.more then Looping else Stopped) }

  /** `update` with the owner in its filter throws when the row is no longer ours; `run` then rejects. It also
      rejects when it finds no active migration after the heartbeat. `close` waits for its update before it forgets
      the migration, so `run` and the heartbeats may take steps in between. */
  function Apply(valid: seq<bool>, s: State, a: Action): State
    requires Enabled(s, a)
  {
    match a
    case Tick(ms) => s.(clock := s.clock + ms)
    case Start(w) => Put(s.(used := s.used + {w}), w, Worker(Looping, None, 0, s.clock, true, false))
    case Die(w) => s.(workers := s.workers - {w})
    case Acquire(w) =>
      var x, m := s.workers[w], Acquirable(s.rows, s.clock);
      if m.Some? then
        FirstOpenFromMeaning(s.rows, 0);
        Put(s.(rows := s.rows[m.value := s.rows[m.value].(workerId := Some(w), lockedAt := Some(s.clock))]), w,
            Worker(Acquired, m, m.value, s.clock, true, s.workers[w].closing))
      else if x.active.Some? then Put(s, w, x.(phase := Revisiting, more := false))
      else Put(s, w, x.(phase := Stopped, more := false))
    case HeartBeat(w) =>
      var x := s.workers[w];
      var m := x.active.value;
      var t := s.(rows := Renewed(s.rows, m, w, s.clock));
      if Owns(s.rows, m, w) && s.rows[m].Open() then Put(t, w, x.(renewed := s.clock)) else t
    case ReadActive(w) =>
      var x := s.workers[w];
      if x.active.None? then Put(s, w, x.(phase := Stopped))
      else Put(s, w, x.(phase := if x.phase == Acquired then Validating else Revalidating, current := x.active.value))
    case Validate(w) =>
      var x := s.workers[w];
      if x.current < |valid| && valid[x.current] then Put(s, w, x.(phase := Running))
      else if x.active.Some? && Owns(s.rows, x.active.value, w)
      then Put(s.(rows := WithFailed(s.rows, x.active.value)), w, Again(x))
      else Put(s, w, x.(phase := Stopped))
    case RunReturns(w) =>
      var x := s.workers[w];
      if x.active.None? then Put(s, w, Again(x))
      else if Owns(s.rows, x.active.value, w)
      then Put(s.(rows := WithFinished(s.rows, x.active.value)), w, Again(x.(active := None)))
      else Put(s, w, x.(phase := Stopped))
    case RunThrows(w) =>
      var x := s.workers[w];
      if x.active.Some? && Owns(s.rows, x.active.value, w)
      then Put(s.(rows := WithFailed(s.rows, x.active.value)), w, Again(x.(active := None)))
      else Put(s, w, x.(phase := Stopped))
    case Close(w) =>
      var x := s.workers[w];
      var m := x.active.value;
      if Owns(s.rows, m, w)
      then Put(s.(rows := s.rows[m := s.rows[m].(lockedAt := None)]), w, x.(closing := true))
      else s
    case Forget(w) =>
      var x := s.workers[w];
      Put(s, w, x.(active := None, closing := false))
  }

  /* ---------- what the steps of a worker do ---------- */

  /** Acquiring: the first open row is locked for the worker unless its lock is younger than 60 s. Without a row to lock
      the loop ends, after one more pass if a migration is still active. */
  lemma AcquireMeaning(valid: seq<bool>, s: State, w: nat)
    requires Enabled(s, Acquire(w))
    ensures var t, x := Apply(valid, s, Acquire(w)), s.workers[w];
            && t == s.(rows := t.rows, workers := t.workers) && w in t.workers && t.workers - {w} == s.workers - {w}
            && (forall m :: 0 <= m < |s.rows| && s.rows[m].Open() && Settled(s.rows, m) ==>
                  if s.rows[m].lockedAt.Some? && s.rows[m].lockedAt.value > s.clock - 60_000
                  then t.rows == s.rows && t.workers[w].phase in {Stopped, Revisiting}
                  else
                    && t.rows == s.rows[m := s.rows[m].(workerId := Some(w), lockedAt := Some(s.clock))]
                    && t.workers[w] == Worker(Acquired, Some(m), m, s.clock, true, x.closing))
            && (Settled(s.rows, |s.rows|) ==> t.rows == s.rows && t.workers[w].phase in {Stopped, Revisiting})
            && (t.workers[w].phase == Revisiting ==> x.active.Some?)
            && (t.workers[w].phase in {Stopped, Revisiting} ==>
                  && !t.workers[w].more && t.workers[w].active == x.active
                  && (t.workers[w].phase == Stopped <==> x.active.None?))
  {
    FirstOpenFromMeaning(s.rows, 0);
    assert Apply(valid, s, Acquire(w)).workers - {w} == s.workers - {w};
    forall m | 0 <= m < |s.rows| && s.rows[m].Open() && Settled(s.rows, m) ensures FirstOpen(s.rows) == Some(m) {}
  }

  /** A heartbeat renews the lock of the active migration if the worker still owns its row and the row is open. */
  lemma HeartBeatMeaning(valid: seq<bool>, s: State, w: nat)
    requires Enabled(s, HeartBeat(w))
    ensures var t, m := Apply(valid, s, HeartBeat(w)), s.workers[w].active.value;
            if m < |s.rows| && s.rows[m].workerId == Some(w) && !s.rows[m].finished && !s.rows[m].failed
            then t == s.(rows := s.rows[m := s.rows[m].(lockedAt := Some(s.clock))],
                         workers := s.workers[w := s.workers[w].(renewed := s.clock)])
            else t == s
  {
  }

  /** Validation: a valid migration runs. An invalid one is recorded as failed, unlocked, if the worker still owns its
      row, and the loop goes on; otherwise `run` rejects. */
  lemma ValidateMeaning(valid: seq<bool>, s: State, w: nat)
    requires Enabled(s, Validate(w))
    ensures var t, x := Apply(valid, s, Validate(w)), s.workers[w];
            var owned := x.active.Some? && x.active.value < |s.rows| && s.rows[x.active.value].workerId == Some(w);
            && t == s.(rows := t.rows, workers := s.workers[w := x.(phase := t.workers[w].phase)])
            && (if x.current < |valid| && valid[x.current] then t.workers[w].phase == Running && t.rows == s.rows
                else if !owned then t.workers[w].phase == Stopped && t.rows == s.rows
                else
                  && t.workers[w].phase == (if x.more then Looping else Stopped)
                  && t.rows == s.rows[x.active.value := s.rows[x.active.value].(lockedAt := None, failed := true)])
  {
  }

  /** The end of a run. If the worker still owns the row of its active migration, that is finished or failed, unlocked
      and forgotten, and the loop goes on. A run that returns after the migration was forgotten records nothing and
      goes on too; in every other case `run` rejects. */
  lemma RunEndMeaning(valid: seq<bool>, s: State, a: Action, w: nat)
    requires a in {RunReturns(w), RunThrows(w)} && Enabled(s, a)
    ensures var t, x := Apply(valid, s, a), s.workers[w];
            var owned := x.active.Some? && x.active.value < |s.rows| && s.rows[x.active.value].workerId == Some(w);
            var on := if x.more then Looping else Stopped;
            && t == s.(rows := t.rows, workers := t.workers) && t.workers == s.workers[w := t.workers[w]]
            && (owned && a.RunReturns? ==>
                  t.rows == s.rows[x.active.value := s.rows[x.active.value].(lockedAt := None, finished := true)])
            && (owned && a.RunThrows? ==>
                  t.rows == s.rows[x.active.value := s.rows[x.active.value].(lockedAt := None, failed := true)])
            && (!owned ==> t.rows == s.rows)
            && t.workers[w] == if owned then x.(active := None, phase := on)
                               else if a.RunReturns? && x.active.None? then x.(phase := on)
                               else x.(phase := Stopped)
  {
  }

  /** Closing releases the lock of the active migration if the worker still owns its row, and forgets it later; the row
      stays the worker's and open. */
  lemma CloseMeaning(valid: seq<bool>, s: State, w: nat)
    requires Enabled(s, Close(w))
    ensures var t, x, m := Apply(valid, s, Close(w)), s.workers[w], s.workers[w].active.value;
            if m < |s.rows| && s.rows[m].workerId == Some(w)
            then
              && t == s.(rows := s.rows[m := s.rows[m].(lockedAt := None)],
                         workers := s.workers[w := x.(closing := true)])
              && Enabled(t, Forget(w))
              && Apply(valid, t, Forget(w)).workers[w] == x.(active := None)
              && Apply(valid, t, Forget(w)).rows == t.rows
            else t == s
  {
  }

  predicate CanRun(valid: seq<bool>, s: State, acts: seq<Action>)
    decreases |acts|
  {
    acts == [] || (Enabled(s, acts[0]) && CanRun(valid, Apply(valid, s, acts[0]), acts[1..]))
  }

  function Exec(valid: seq<bool>, s: State, acts: seq<Action>): State
    requires CanRun(valid, s, acts)
    decreases |acts|
  {
    if acts == [] then s else Exec(valid, Apply(valid, s, acts[0]), acts[1..])
  }

  predicate Fresh(s: State) {
    s.workers == map[] && (forall m :: 0 <= m < |s.rows| ==> !(s.rows[m].finished && s.rows[m].failed))
  }

  /* ---------- order and fencing, with no timing assumption ---------- */

  function Actor(a: Action): Option<nat> {
    match a
    case Tick(_) => None
    case Start(w) => Some(w)
    case Die(w) => Some(w)
    case Acquire(w) => Some(w)
    case HeartBeat(w) => Some(w)
    case ReadActive(w) => Some(w)
    case Validate(w) => Some(w)
    case RunReturns(w) => Some(w)
    case RunThrows(w) => Some(w)
    case Close(w) => Some(w)
    case Forget(w) => Some(w)
  }

  /** A row changes only when a worker locks it, being the first open one and unlocked, or when the
      worker whose id it stores renews, releases, finishes or fails it. Settled rows stay settled. */
  lemma Fencing(valid: seq<bool>, s: State, a: Action, m: nat)
    requires Enabled(s, a) && m < |s.rows|
    ensures var t := Apply(valid, s, a);
            && |t.rows| == |s.rows|
            && (s.rows[m].finished ==> t.rows[m].finished) && (s.rows[m].failed ==> t.rows[m].failed)
            && (t.rows[m] != s.rows[m] && a.Acquire? ==>
                  && Settled(s.rows, m) && s.rows[m].Open() && !s.rows[m].Locked(s.clock)
                  && t.rows[m] == s.rows[m].(workerId := Actor(a), lockedAt := Some(s.clock)))
            && (t.rows[m] != s.rows[m] && !a.Acquire? ==>
                  Actor(a).Some? && s.rows[m].workerId == t.rows[m].workerId == Actor(a))
            && (t.rows[m].Open() != s.rows[m].Open() ==> s.rows[m].workerId == Actor(a))
  {
    FirstOpenFromMeaning(s.rows, 0);
  }

  /** No step of worker `w` changes row `m`. */
  predicate LeavesAlone(valid: seq<bool>, s: State, acts: seq<Action>, m: nat, w: nat)
    requires CanRun(valid, s, acts) && m < |s.rows|
    decreases |acts|
  {
    acts == [] ||
    var t := Apply(valid, s, acts[0]);
    && |t.rows| == |s.rows| && (Actor(acts[0]) == Some(w) ==> t.rows[m] == s.rows[m])
    && LeavesAlone(valid, t, acts[1..], m, w)
  }

  /** No acquire transaction of worker `w` locks row `m`. */
  predicate NeverLocks(valid: seq<bool>, s: State, acts: seq<Action>, m: nat, w: nat)
    requires CanRun(valid, s, acts)
    decreases |acts|
  {
    acts == [] ||
    ((acts[0] == Acquire(w) ==> Acquirable(s.rows, s.clock) != Some(m)) &&
     NeverLocks(valid, Apply(valid, s, acts[0]), acts[1..], m, w))
  }

  /** A worker that lost a row changes it no more, whatever it and all the others go on to do, until it locks that
      very row anew. */
  lemma {:induction false} LostLeaseIsPowerless(valid: seq<bool>, s: State, acts: seq<Action>, m: nat, w: nat)
    requires CanRun(valid, s, acts) && m < |s.rows| && s.rows[m].workerId != Some(w)
    requires NeverLocks(valid, s, acts, m, w)
    ensures LeavesAlone(valid, s, acts, m, w)
    ensures |Exec(valid, s, acts).rows| == |s.rows| && Exec(valid, s, acts).rows[m].workerId != Some(w)
    decreases |acts|
  {
    if acts != [] {
      Fencing(valid, s, acts[0], m);
      if acts[0] == Acquire(w) { FirstOpenFromMeaning(s.rows, 0); }
      LostLeaseIsPowerless(valid, Apply(valid, s, acts[0]), acts[1..], m, w);
    }
  }

  predicate Invalid(valid: seq<bool>, m: nat) { !(m < |valid| && valid[m]) }

  /** Held without any timing assumption: order, what an owner may still do to its row, and that only a
      migration that failed validation is left behind in `activeMigration`. */
  ghost predicate OrderOk(valid: seq<bool>, first: seq<Row>, s: State, w: nat, x: Worker) {
    && (x.active.Some? ==> x.active.value < |s.rows| == |first| && first[x.active.value].Open())
    && (x.Holding() ==>
          && x.current < |s.rows| && Settled(s.rows, x.current)
          && (x.active.Some? ==> x.active == Some(x.current))
          && (Owns(s.rows, x.current, w) ==> s.rows[x.current].Open()))
    && (x.phase == Running ==> !Invalid(valid, x.current))
    && (x.phase in {Looping, Revisiting, Revalidating} && x.active.Some? ==> Invalid(valid, x.active.value))
    && (x.phase == Revalidating ==> Invalid(valid, x.current))
  }

  /** `first` is the table at the start of the run. */
  ghost predicate Order(valid: seq<bool>, first: seq<Row>, s: State) {
    && |first| == |s.rows|
    && (forall m :: 0 <= m < |s.rows| ==>
          && !(s.rows[m].finished && s.rows[m].failed)
          && (first[m].finished ==> s.rows[m].finished) && (first[m].failed ==> s.rows[m].failed)
          && (s.rows[m].finished ==> first[m].finished || !Invalid(valid, m)))
    && (forall w :: w in s.workers ==> OrderOk(valid, first, s, w, s.workers[w]))
  }

  lemma OrderStep(valid: seq<bool>, first: seq<Row>, s: State, a: Action)
    requires Order(valid, first, s) && Enabled(s, a)
    ensures Order(valid, first, Apply(valid, s, a))
  {
    var t := Apply(valid, s, a);
    OrderRows(valid, first, s, a);
    forall v | v in t.workers ensures OrderOk(valid, first, t, v, t.workers[v]) {
      if Actor(a) == Some(v) { OrderActor(valid, first, s, a, v); } else { OrderOther(valid, first, s, a, v); }
    }
  }

  lemma OrderRows(valid: seq<bool>, first: seq<Row>, s: State, a: Action)
    requires Order(valid, first, s) && Enabled(s, a)
    ensures var t := Apply(valid, s, a);
            && |t.rows| == |s.rows|
            && forall m :: 0 <= m < |t.rows| ==>
                 && !(t.rows[m].finished && t.rows[m].failed)
                 && (first[m].finished ==> t.rows[m].finished) && (first[m].failed ==> t.rows[m].failed)
                 && (t.rows[m].finished ==> first[m].finished || !Invalid(valid, m))
                 && (!s.rows[m].Open() ==> !t.rows[m].Open())
  {
    FirstOpenFromMeaning(s.rows, 0);
    if w :| Actor(a) == Some(w) { assert w in s.workers ==> OrderOk(valid, first, s, w, s.workers[w]); }
  }

  lemma OrderActor(valid: seq<bool>, first: seq<Row>, s: State, a: Action, w: nat)
    requires Order(valid, first, s) && Enabled(s, a) && Actor(a) == Some(w)
    ensures var t := Apply(valid, s, a); w in t.workers ==> OrderOk(valid, first, t, w, t.workers[w])
  {
    match a
    case Acquire(_) => OrderAcquire(valid, first, s, w);
    case Validate(_) => OrderLeave(valid, first, s, a, w);
    case RunReturns(_) => OrderLeave(valid, first, s, a, w);
    case RunThrows(_) => OrderLeave(valid, first, s, a, w);
    case HeartBeat(_) => assert OrderOk(valid, first, s, w, s.workers[w]);
    case ReadActive(_) => assert OrderOk(valid, first, s, w, s.workers[w]);
    case Close(_) => assert OrderOk(valid, first, s, w, s.workers[w]);
    case Forget(_) => assert OrderOk(valid, first, s, w, s.workers[w]);
    case _ =>
  }

  lemma OrderAcquire(valid: seq<bool>, first: seq<Row>, s: State, w: nat)
    requires Order(valid, first, s) && Enabled(s, Acquire(w))
    ensures var t := Apply(valid, s, Acquire(w)); w in t.workers && OrderOk(valid, first, t, w, t.workers[w])
  {
    FirstOpenFromMeaning(s.rows, 0);
    assert OrderOk(valid, first, s, w, s.workers[w]);
  }

  lemma OrderLeave(valid: seq<bool>, first: seq<Row>, s: State, a: Action, w: nat)
    requires Order(valid, first, s) && Enabled(s, a) && a in {Validate(w), RunReturns(w), RunThrows(w)}
    ensures var t := Apply(valid, s, a); w in t.workers && OrderOk(valid, first, t, w, t.workers[w])
  {
    assert OrderOk(valid, first, s, w, s.workers[w]);
  }

  lemma OrderOther(valid: seq<bool>, first: seq<Row>, s: State, a: Action, v: nat)
    requires Order(valid, first, s) && Enabled(s, a) && Actor(a) != Some(v) && v in s.workers
    ensures var t := Apply(valid, s, a); v in t.workers && OrderOk(valid, first, t, v, t.workers[v])
  {
    OrderRows(valid, first, s, a);
    var x := s.workers[v];
    assert OrderOk(valid, first, s, v, x);
    if x.Holding() { Fencing(valid, s, a, x.current); }
  }

  lemma {:induction false} OrderRun(valid: seq<bool>, first: seq<Row>, s: State, acts: seq<Action>)
    requires Order(valid, first, s) && CanRun(valid, s, acts)
    ensures Order(valid, first, Exec(valid, s, acts))
    decreases |acts|
  {
    if acts != [] {
      OrderStep(valid, first, s, acts[0]);
      OrderRun(valid, first, Apply(valid, s, acts[0]), acts[1..]);
    }
  }

  /** Whatever the timing: a running migration is valid and every earlier one is finished or failed, no
      row is ever both, and a migration that fails validation is never recorded as finished. */
  lemma RunsInNameOrder(valid: seq<bool>, s: State, acts: seq<Action>)
    requires Fresh(s) && CanRun(valid, s, acts)
    ensures var t := Exec(valid, s, acts);
            && |t.rows| == |s.rows|
            && (forall w :: w in t.workers && t.workers[w].phase == Running ==>
                  && !Invalid(valid, t.workers[w].current)
                  && t.workers[w].current < |t.rows| && Settled(t.rows, t.workers[w].current))
            && (forall m :: 0 <= m < |t.rows| ==> !(t.rows[m].finished && t.rows[m].failed))
            && (forall m :: 0 <= m < |t.rows| && Invalid(valid, m) && !s.rows[m].finished ==> !t.rows[m].finished)
  {
    OrderRun(valid, s.rows, s, acts);
    var t := Exec(valid, s, acts);
    assert forall w :: w in t.workers ==> OrderOk(valid, s.rows, t, w, t.workers[w]);
  }

  /* ---------- mutual exclusion ---------- */

  /** Every holder renews in less than 60 s, and nobody releases or forgets a lease while its migration may run. */
  ghost predicate Timely(s: State, a: Action)
    requires Enabled(s, a)
  {
    match a
    case Tick(ms) =>
      forall w :: w in s.workers && s.workers[w].Holding() ==> s.clock + ms - s.workers[w].renewed < LEASE_MS
    case Close(w) => !s.workers[w].Holding()
    case Forget(w) => !s.workers[w].Holding()
    case _ => true
  }

  ghost predicate AllTimely(valid: seq<bool>, s: State, acts: seq<Action>)
    requires CanRun(valid, s, acts)
    decreases |acts|
  {
    acts == [] || (Timely(s, acts[0]) && AllTimely(valid, Apply(valid, s, acts[0]), acts[1..]))
  }

  /** A held row is owned, open, locked since the last renewal, and first among the open rows. */
  ghost predicate LeaseOk(s: State, w: nat, x: Worker) {
    x.Holding() ==>
      && Owns(s.rows, x.current, w) && s.rows[x.current].Open() && Settled(s.rows, x.current)
      && s.rows[x.current].lockedAt == Some(x.renewed) && s.clock - x.renewed < LEASE_MS
      && x.active == Some(x.current)
  }

  ghost predicate Leases(s: State) {
    forall w :: w in s.workers ==> LeaseOk(s, w, s.workers[w])
  }

  ghost predicate AtMostOneHolder(s: State) {
    forall v, w :: v in s.workers && w in s.workers && s.workers[v].Holding() && s.workers[w].Holding() ==> v == w
  }

  lemma LeasesExclude(s: State)
    requires Leases(s)
    ensures AtMostOneHolder(s)
  {
    forall v, w | v in s.workers && w in s.workers && s.workers[v].Holding() && s.workers[w].Holding() ensures v == w {
      assert LeaseOk(s, v, s.workers[v]) && LeaseOk(s, w, s.workers[w]);
      assert s.workers[v].current == s.workers[w].current;
    }
  }

  /** While somebody holds a lease, the acquire transaction finds the held row and leaves it alone. */
  lemma HeldBlocks(s: State, w: nat)
    requires w in s.workers && s.workers[w].Holding() && LeaseOk(s, w, s.workers[w])
    ensures Acquirable(s.rows, s.clock) == None
  {
    FirstOpenFromMeaning(s.rows, 0);
    assert FirstOpen(s.rows) == Some(s.workers[w].current);
  }

  lemma LeaseActor(valid: seq<bool>, first: seq<Row>, s: State, a: Action, w: nat)
    requires Order(valid, first, s) && Leases(s) && Enabled(s, a) && Timely(s, a) && Actor(a) == Some(w)
    ensures var t := Apply(valid, s, a); w in t.workers ==> LeaseOk(t, w, t.workers[w])
  {
    if w in s.workers {
      assert LeaseOk(s, w, s.workers[w]) && OrderOk(valid, first, s, w, s.workers[w]);
      match a
      case Acquire(_) => FirstOpenFromMeaning(s.rows, 0);
      case HeartBeat(_) =>
      case ReadActive(_) =>
      case Validate(_) =>
      case _ =>
    }
  }

  /** The row that `v` holds is left alone by everybody else. */
  lemma HeldRowStays(valid: seq<bool>, s: State, a: Action, v: nat)
    requires v in s.workers && s.workers[v].Holding() && LeaseOk(s, v, s.workers[v]) && Enabled(s, a)
              && Actor(a) != Some(v)
    ensures |Apply(valid, s, a).rows| == |s.rows|
    ensures Apply(valid, s, a).rows[s.workers[v].current] == s.rows[s.workers[v].current]
    ensures Settled(Apply(valid, s, a).rows, s.workers[v].current)
  {
    var m := s.workers[v].current;
    HeldBlocks(s, v);
    Fencing(valid, s, a, m);
    forall k | 0 <= k < m ensures k < |Apply(valid, s, a).rows| && !Apply(valid, s, a).rows[k].Open() {
      Fencing(valid, s, a, k);
    }
  }

  lemma LeaseOther(valid: seq<bool>, s: State, a: Action, v: nat)
    requires v in s.workers && LeaseOk(s, v, s.workers[v]) && Enabled(s, a) && (a.Tick? ==> Timely(s, a))
              && Actor(a) != Some(v)
    ensures var t := Apply(valid, s, a); v in t.workers && LeaseOk(t, v, t.workers[v])
  {
    var x, t := s.workers[v], Apply(valid, s, a);
    assert LeaseOk(s, v, x);
    assert v in t.workers && t.workers[v] == x;
    if x.Holding() {
      HeldRowStays(valid, s, a, v);
      assert t.rows[x.current] == s.rows[x.current];
      assert t.clock - x.renewed < LEASE_MS;
    }
  }

  lemma LeaseStep(valid: seq<bool>, first: seq<Row>, s: State, a: Action)
    requires Order(valid, first, s) && Leases(s) && Enabled(s, a) && Timely(s, a)
    ensures Leases(Apply(valid, s, a))
  {
    var t := Apply(valid, s, a);
    forall v | v in t.workers ensures LeaseOk(t, v, t.workers[v]) {
      if Actor(a) == Some(v) { LeaseActor(valid, first, s, a, v); } else { LeaseOther(valid, s, a, v); }
    }
  }

  lemma {:induction false} LeaseRun(valid: seq<bool>, first: seq<Row>, s: State, acts: seq<Action>)
    requires Order(valid, first, s) && Leases(s) && CanRun(valid, s, acts) && AllTimely(valid, s, acts)
    ensures Leases(Exec(valid, s, acts))
    decreases |acts|
  {
    if acts != [] {
      OrderStep(valid, first, s, acts[0]);
      LeaseStep(valid, first, s, acts[0]);
      LeaseRun(valid, first, Apply(valid, s, acts[0]), acts[1..]);
    }
  }

  /** No two workers are ever between acquiring a migration and leaving it. */
  lemma MutualExclusion(valid: seq<bool>, s: State, acts: seq<Action>)
    requires Fresh(s) && CanRun(valid, s, acts) && AllTimely(valid, s, acts)
    ensures AtMostOneHolder(Exec(valid, s, acts)) && Leases(Exec(valid, s, acts))
  {
    LeaseRun(valid, s.rows, s, acts);
    LeasesExclude(Exec(valid, s, acts));
  }

  /** Another worker takes a held row over exactly when the last renewal is 60 s old or older. */
  lemma TakeoverIff(valid: seq<bool>, s: State, w: nat, v: nat)
    requires w in s.workers && s.workers[w].Holding() && Enabled(s, Acquire(v))
    requires var x := s.workers[w];
             && Owns(s.rows, x.current, w) && s.rows[x.current].Open() && Settled(s.rows, x.current)
             && s.rows[x.current].lockedAt == Some(x.renewed)
    ensures var t := Apply(valid, s, Acquire(v));
            && (s.clock - s.workers[w].renewed >= 60_000 <==> Owns(t.rows, s.workers[w].current, v))
            && (s.clock - s.workers[w].renewed >= 60_000 <==> v in t.workers && t.workers[v].phase == Acquired)
  {
    FirstOpenFromMeaning(s.rows, 0);
    assert FirstOpen(s.rows) == Some(s.workers[w].current);
  }

  /* ---------- close ---------- */

  ghost predicate NeverOverlaps(valid: seq<bool>, s: State) {
    forall acts :: CanRun(valid, s, acts) && AllTimely(valid, s, acts) ==> AtMostOneHolder(Exec(valid, s, acts))
  }

  lemma Cons(valid: seq<bool>, s: State, a: Action, acts: seq<Action>)
    requires Enabled(s, a) && CanRun(valid, Apply(valid, s, a), acts)
    ensures CanRun(valid, s, [a] + acts) && Exec(valid, s, [a] + acts) == Exec(valid, Apply(valid, s, a), acts)
    ensures Timely(s, a) && AllTimely(valid, Apply(valid, s, a), acts) ==> AllTimely(valid, s, [a] + acts)
  {
    assert ([a] + acts)[1..] == acts;
  }

  lemma {:induction false} Concat(valid: seq<bool>, s: State, a: seq<Action>, b: seq<Action>)
    requires CanRun(valid, s, a) && CanRun(valid, Exec(valid, s, a), b)
    ensures CanRun(valid, s, a + b) && Exec(valid, s, a + b) == Exec(valid, Exec(valid, s, a), b)
    decreases |a|
  {
    if a == [] {
      assert a + b == b;
    } else {
      Concat(valid, Apply(valid, s, a[0]), a[1..], b);
      assert (a + b)[1..] == a[1..] + b;
    }
  }

  /** Once a holder's `close` has released the lease, a new worker locks the same row. */
  lemma CloseGivesAway(valid: seq<bool>, s: State, w: nat, v: nat)
    requires w in s.workers && s.workers[w].Holding() && LeaseOk(s, w, s.workers[w]) && Enabled(s, Close(w))
    requires v !in s.used && v != w
    ensures var t, acts := Apply(valid, s, Close(w)), [Start(v), Acquire(v)];
            && CanRun(valid, t, acts) && AllTimely(valid, t, acts)
            && var u := Exec(valid, t, acts);
            && u.clock == s.clock && w in u.workers && u.workers[w] == s.workers[w].(closing := true)
            && v in u.workers
            && u.workers[v] == Worker(Acquired, s.workers[w].active, s.workers[w].current, s.clock, true, false)
            && Owns(u.rows, s.workers[w].current, v) && u.rows[s.workers[w].current].Open()
  {
    var m := s.workers[w].current;
    var t := Apply(valid, s, Close(w));
    var t1 := Apply(valid, t, Start(v));
    assert t1.rows == s.rows[m := s.rows[m].(lockedAt := None)];
    assert Settled(t1.rows, m) && t1.rows[m].Open();
    FirstOpenFromMeaning(t1.rows, 0);
    assert FirstOpen(t1.rows) == Some(m);
    Cons(valid, t1, Acquire(v), []);
    Cons(valid, t, Start(v), [Acquire(v)] + []);
    assert [Start(v), Acquire(v)] == [Start(v)] + ([Acquire(v)] + []);
  }

  lemma TwoHolders(valid: seq<bool>, s: State, w: nat, v: nat)
    requires w in s.workers && s.workers[w].Holding() && LeaseOk(s, w, s.workers[w]) && Enabled(s, Close(w))
    requires v !in s.used && v != w
    ensures !NeverOverlaps(valid, Apply(valid, s, Close(w)))
  {
    var t, acts := Apply(valid, s, Close(w)), [Start(v), Acquire(v)];
    CloseGivesAway(valid, s, w, v);
    var u := Exec(valid, t, acts);
    assert u.workers[v].Holding() && u.workers[w].Holding();
    assert CanRun(valid, t, acts) && AllTimely(valid, t, acts) && !AtMostOneHolder(u);
  }

  lemma LeasesAreSafe(valid: seq<bool>, first: seq<Row>, t: State)
    requires Order(valid, first, t) && Leases(t)
    ensures NeverOverlaps(valid, t)
  {
    forall acts | CanRun(valid, t, acts) && AllTimely(valid, t, acts) ensures AtMostOneHolder(Exec(valid, t, acts)) {
      LeaseRun(valid, first, t, acts);
      LeasesExclude(Exec(valid, t, acts));
    }
  }

  /** Releasing a lease is harmless exactly when the worker holds none at that moment, which is what timely runs ask
      of it: otherwise a continuation, timely in every other respect, has two holders. */
  lemma CloseIsSafeIff(valid: seq<bool>, first: seq<Row>, s: State, w: nat)
    requires Order(valid, first, s) && Leases(s) && Enabled(s, Close(w))
    ensures !s.workers[w].Holding() <==> NeverOverlaps(valid, Apply(valid, s, Close(w)))
  {
    assert LeaseOk(s, w, s.workers[w]);
    if s.workers[w].Holding() {
      var v := FreshNat(s.used + s.workers.Keys);
      TwoHolders(valid, s, w, v);
    } else {
      OrderStep(valid, first, s, Close(w));
      LeaseStep(valid, first, s, Close(w));
      LeasesAreSafe(valid, first, Apply(valid, s, Close(w)));
    }
  }

  /** A `close` of a worker that owns its row, with nothing in between. */
  function Closed(valid: seq<bool>, s: State, w: nat): State
    requires Enabled(s, Close(w)) && Owns(s.rows, s.workers[w].active.value, w)
  {
    Apply(valid, Apply(valid, s, Close(w)), Forget(w))
  }

  lemma ClosedLeases(valid: seq<bool>, first: seq<Row>, s: State, w: nat)
    requires Order(valid, first, s) && Leases(s) && Enabled(s, Close(w)) && Owns(s.rows, s.workers[w].active.value, w)
    requires !s.workers[w].PastHeartBeat()
    ensures Order(valid, first, Closed(valid, s, w)) && Leases(Closed(valid, s, w))
  {
    var t := Apply(valid, s, Close(w));
    OrderStep(valid, first, s, Close(w));
    OrderStep(valid, first, t, Forget(w));
    var u := Closed(valid, s, w);
    forall v | v in u.workers ensures LeaseOk(u, v, u.workers[v]) {
      if v != w {
        LeaseOther(valid, s, Close(w), v);
        LeaseOther(valid, t, Forget(w), v);
      }
    }
  }

  /** The lock is free and `w` goes on as if it had it: a new worker locks the row. */
  lemma ClosedGivesAway(valid: seq<bool>, s: State, w: nat, v: nat)
    requires w in s.workers && s.workers[w].PastHeartBeat() && LeaseOk(s, w, s.workers[w]) && Enabled(s, Close(w))
    requires v !in s.used && v != w
    ensures !NeverOverlaps(valid, Closed(valid, s, w))
  {
    var m := s.workers[w].current;
    var t, acts := Closed(valid, s, w), [Start(v), Acquire(v)];
    var t1 := Apply(valid, t, Start(v));
    assert t1.rows == s.rows[m := s.rows[m].(lockedAt := None)];
    assert Settled(t1.rows, m) && t1.rows[m].Open();
    FirstOpenFromMeaning(t1.rows, 0);
    assert FirstOpen(t1.rows) == Some(m);
    Cons(valid, t1, Acquire(v), []);
    Cons(valid, t, Start(v), [Acquire(v)] + []);
    assert acts == [Start(v)] + ([Acquire(v)] + []);
    var u := Exec(valid, t, acts);
    assert u.workers[v].Holding() && u.workers[w].Holding();
    assert CanRun(valid, t, acts) && AllTimely(valid, t, acts) && !AtMostOneHolder(u);
  }

  /** A whole `close` that nothing interrupts is harmless exactly when `run` has not read the migration yet: it
      then finds none and rejects. */
  lemma WholeCloseIsSafeIff(valid: seq<bool>, first: seq<Row>, s: State, w: nat)
    requires Order(valid, first, s) && Leases(s) && Enabled(s, Close(w)) && Owns(s.rows, s.workers[w].active.value, w)
    ensures !s.workers[w].PastHeartBeat() <==> NeverOverlaps(valid, Closed(valid, s, w))
  {
    assert LeaseOk(s, w, s.workers[w]);
    if s.workers[w].PastHeartBeat() {
      var v := FreshNat(s.used + s.workers.Keys);
      ClosedGivesAway(valid, s, w, v);
    } else {
      ClosedLeases(valid, first, s, w);
      LeasesAreSafe(valid, first, Closed(valid, s, w));
    }
  }

  /** Both workers then go on to run the migration: the first was running, validating, or waiting for its heartbeat
      and comes to read the migration before `close` forgets it. */
  lemma CloseOverlaps(valid: seq<bool>, s: State, w: nat, v: nat)
    requires w in s.workers && s.workers[w].Holding() && LeaseOk(s, w, s.workers[w]) && Enabled(s, Close(w))
    requires v !in s.used && v != w && !Invalid(valid, s.workers[w].current)
    ensures var acts := [Close(w)] + ([Start(v), Acquire(v)] + (RunBoth(s, w, v) + [Forget(w)]));
            && CanRun(valid, s, acts)
            && var t := Exec(valid, s, acts);
            && t.clock == s.clock && w in t.workers && v in t.workers
            && t.workers[w].phase == Running && t.workers[v].phase == Running
            && t.workers[v].current == t.workers[w].current && t.workers[w].active == None
  {
    var t, give := Apply(valid, s, Close(w)), [Start(v), Acquire(v)];
    CloseGivesAway(valid, s, w, v);
    var u := Exec(valid, t, give);
    BothRun(valid, u, w, v);
    var x := Exec(valid, u, RunBoth(s, w, v));
    Cons(valid, x, Forget(w), []);
    assert [Forget(w)] + [] == [Forget(w)];
    Concat(valid, u, RunBoth(s, w, v), [Forget(w)]);
    Concat(valid, t, give, RunBoth(s, w, v) + [Forget(w)]);
    Cons(valid, s, Close(w), give + (RunBoth(s, w, v) + [Forget(w)]));
  }

  /** What `w` still has to do until it runs. */
  function ToRun(x: Worker, w: nat): seq<Action> {
    match x.phase
    case Acquired => [ReadActive(w), Validate(w)]
    case Validating => [Validate(w)]
    case _ => []
  }

  /** The first worker goes on, the second sends its heartbeat and goes on. */
  function RunBoth(s: State, w: nat, v: nat): seq<Action>
    requires w in s.workers
  {
    ToRun(s.workers[w], w) + [HeartBeat(v), ReadActive(v), Validate(v)]
  }

  lemma ToRunRuns(valid: seq<bool>, s: State, w: nat)
    requires w in s.workers && s.workers[w].Holding() && !Invalid(valid, s.workers[w].current)
    requires s.workers[w].active == Some(s.workers[w].current)
    ensures CanRun(valid, s, ToRun(s.workers[w], w))
    ensures Exec(valid, s, ToRun(s.workers[w], w)) == Put(s, w, s.workers[w].(phase := Running))
  {
    var x := s.workers[w];
    match x.phase
    case Acquired =>
      var t := Apply(valid, s, ReadActive(w));
      Cons(valid, t, Validate(w), []);
      Cons(valid, s, ReadActive(w), [Validate(w)] + []);
      assert ToRun(x, w) == [ReadActive(w)] + ([Validate(w)] + []);
    case Validating =>
      Cons(valid, s, Validate(w), []);
      assert ToRun(x, w) == [Validate(w)] + [];
    case Running =>
      assert s.workers[w := x] == s.workers;
    case _ =>
  }

  lemma BeatAndRun(valid: seq<bool>, s: State, v: nat)
    requires v in s.workers && s.workers[v].phase == Acquired && s.workers[v].active == Some(s.workers[v].current)
    requires !Invalid(valid, s.workers[v].current)
    ensures CanRun(valid, s, [HeartBeat(v), ReadActive(v), Validate(v)])
    ensures var t := Exec(valid, s, [HeartBeat(v), ReadActive(v), Validate(v)]);
            && t.clock == s.clock && v in t.workers && t.workers[v].phase == Running
            && t.workers[v].current == s.workers[v].current && t.workers - {v} == s.workers - {v}
  {
    var t1 := Apply(valid, s, HeartBeat(v));
    var t2 := Apply(valid, t1, ReadActive(v));
    Cons(valid, t2, Validate(v), []);
    Cons(valid, t1, ReadActive(v), [Validate(v)] + []);
    Cons(valid, s, HeartBeat(v), [ReadActive(v)] + ([Validate(v)] + []));
    assert [HeartBeat(v), ReadActive(v), Validate(v)] == [HeartBeat(v)] + ([ReadActive(v)] + ([Validate(v)] + []));
  }

  lemma BothRun(valid: seq<bool>, s: State, w: nat, v: nat)
    requires w != v && w in s.workers && v in s.workers && s.workers[w].Holding() && s.workers[v].phase == Acquired
    requires s.workers[w].active == s.workers[v].active == Some(s.workers[w].current)
    requires s.workers[v].current == s.workers[w].current && !Invalid(valid, s.workers[w].current)
    ensures CanRun(valid, s, RunBoth(s, w, v))
    ensures var t := Exec(valid, s, RunBoth(s, w, v));
            && t.clock == s.clock && w in t.workers && v in t.workers
            && t.workers[w] == s.workers[w].(phase := Running) && t.workers[v].phase == Running
            && t.workers[v].current == t.workers[w].current
  {
    ToRunRuns(valid, s, w);
    var s1 := Exec(valid, s, ToRun(s.workers[w], w));
    BeatAndRun(valid, s1, v);
    Concat(valid, s, ToRun(s.workers[w], w), [HeartBeat(v), ReadActive(v), Validate(v)]);
    var t := Exec(valid, s, RunBoth(s, w, v));
    assert w in (t.workers - {v}) && (t.workers - {v})[w] == (s1.workers - {v})[w];
  }

  /** The overlap from the start: one open migration, one worker, a close while it runs, a second worker. */
  lemma CloseOverlapsFromStart(row: Row, now: int)
    requires row.Open() && row.lockedAt == None
    ensures var acts := ([Start(0), Acquire(0)] + [HeartBeat(0), ReadActive(0), Validate(0)])
                        + ([Close(0)]
                            + ([Start(1), Acquire(1)] + ([HeartBeat(1), ReadActive(1), Validate(1)] + [Forget(0)])));
            var s := State(now, [row], map[], {});
            && Fresh(s) && CanRun([true], s, acts)
            && var t := Exec([true], s, acts);
            && 0 in t.workers && 1 in t.workers && t.workers[0].phase == Running && t.workers[1].phase == Running
            && t.workers[0].current == t.workers[1].current
  {
    var s := State(now, [row], map[], {});
    var s1 := Apply([true], s, Start(0));
    FirstOpenFromMeaning(s1.rows, 0);
    assert FirstOpen(s1.rows) == Some(0);
    Cons([true], s1, Acquire(0), []);
    Cons([true], s, Start(0), [Acquire(0)] + []);
    assert [Start(0), Acquire(0)] == [Start(0)] + ([Acquire(0)] + []);
    var lock, beat := [Start(0), Acquire(0)], [HeartBeat(0), ReadActive(0), Validate(0)];
    FirstRuns(Exec([true], s, lock));
    Concat([true], s, lock, beat);
    var s3 := Exec([true], s, lock + beat);
    CloseOverlaps([true], s3, 0, 1);
    assert RunBoth(s3, 0, 1) == [HeartBeat(1), ReadActive(1), Validate(1)];
    Concat([true], s, lock + beat,
        [Close(0)] + ([Start(1), Acquire(1)] + ([HeartBeat(1), ReadActive(1), Validate(1)] + [Forget(0)])));
  }

  /** The first worker, holding the only row, comes to run it. */
  lemma FirstRuns(s: State)
    requires |s.rows| == 1 && s.workers.Keys == {0}
              && s.workers[0] == Worker(Acquired, Some(0), 0, s.clock, true, false)
    requires s.rows[0].Open() && s.rows[0].workerId == Some(0) && s.rows[0].lockedAt == Some(s.clock)
    ensures var acts := [HeartBeat(0), ReadActive(0), Validate(0)];
            && CanRun([true], s, acts)
            && var t := Exec([true], s, acts);
            && t.used == s.used && t.workers.Keys == {0} && t.workers[0] == s.workers[0].(phase := Running)
            && LeaseOk(t, 0, t.workers[0])
  {
    var t1 := Apply([true], s, HeartBeat(0));
    assert t1.rows == s.rows;
    var t2 := Apply([true], t1, ReadActive(0));
    Cons([true], t2, Validate(0), []);
    Cons([true], t1, ReadActive(0), [Validate(0)] + []);
    Cons([true], s, HeartBeat(0), [ReadActive(0)] + ([Validate(0)] + []));
    assert [HeartBeat(0), ReadActive(0), Validate(0)] == [HeartBeat(0)] + ([ReadActive(0)] + ([Validate(0)] + []));
  }
}
