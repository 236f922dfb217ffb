/** Main results about the ingestion protocol: what a covered row is, exactly when projections converge, and safe
    coalescing. */
module IngestionTheorems {
  import Collections
  import opened Wrappers
  import opened RawEvents
  import opened Ingestion
  import opened IngestionInvariant

  /* ---------- building runs ---------- */

  lemma Cons(c: Config, s: State, a: Action, acts: seq<Action>)
    requires Enabled(c, s, a) && CanRun(c, Apply(c, s, a), acts)
    ensures CanRun(c, s, [a] + acts) && Exec(c, s, [a] + acts) == Exec(c, Apply(c, s, a), acts)
    ensures ClockPastStamps(c, s, a) && WritesInOrder(c, s, a) && Disciplined(c, Apply(c, s, a), acts)
            ==> Disciplined(c, s, [a] + acts)
  {
    assert ([a] + acts)[1..] == acts;
  }

  lemma {:induction false} DisciplinedIsClocked(c: Config, s: State, acts: seq<Action>)
    requires CanRun(c, s, acts) && Disciplined(c, s, acts)
    ensures Clocked(c, s, acts)
    decreases |acts|
  {
    if acts != [] { DisciplinedIsClocked(c, Apply(c, s, acts[0]), acts[1..]); }
  }

  /* ---------- the deletion flag ---------- */

  /** Something beside the entity's own tombstone may delete it. */
  ghost predicate Guarded(s: State, e: Entity) {
    || e.project in s.projectTombstones
    || (!e.kind.Trace? && e.traceId.Some? &&
        exists i :: 0 <= i < |s.raw| && s.raw[i].entity == Entity(e.project, Trace, e.traceId.value, None)
                    && s.raw[i].event.tombstone)
  }

  ghost predicate FlagOk(s: State, e: Entity, n: nat, deleted: bool) {
    && n <= |s.raw|
    && (Deleted(History(s.raw[..n], e)) ==> deleted)
    && (deleted ==> Deleted(History(s.raw[..n], e)) || Guarded(s, e))
  }

  ghost predicate FlagsOk(s: State) {
    && (forall e :: e in s.projection ==> FlagOk(s, e, s.projection[e].n, s.projection[e].deleted))
    && (forall w :: w in s.runs && s.runs[w].HasRead() ==>
          var r := s.runs[w];
          r.n <= |s.raw| && (r.phase != HistoryRead ==> FlagOk(s, r.job.entity, r.n, r.deleted)))
    && (forall x :: x in s.erases ==> x.n <= |s.raw| && Deleted(History(s.raw[..x.n], x.entity)))
  }

  lemma FlagStays(s: State, t: State, e: Entity, n: nat, deleted: bool)
    requires FlagOk(s, e, n, deleted) && s.raw <= t.raw && s.projectTombstones <= t.projectTombstones
    ensures FlagOk(t, e, n, deleted)
  {
    assert t.raw[..n] == s.raw[..n];
    assert forall i :: 0 <= i < |s.raw| ==> t.raw[i] == s.raw[i];
  }

  lemma ParentTombstoned(s: State, e: Entity)
    requires ParentDeleted(s, e)
    ensures Guarded(s, e)
  {
    var p := ParentTrace(e).value;
    DeletedMeaning(History(s.raw, p));
    var t :| t in History(s.raw, p) && t.tombstone;
    HistoryRows(s.raw, p);
  }

  /** A tombstone no older than any row of the entity deletes it. */
  lemma TombstoneDeletes(raw: seq<Stored>, row: Stored)
    requires row.event.tombstone
    requires forall i :: 0 <= i < |raw| && raw[i].entity == row.entity ==>
              raw[i].event.ingestedAt <= row.event.ingestedAt
    ensures Deleted(History(raw + [row], row.entity))
  {
    var h := History(raw + [row], row.entity);
    HistoryRows(raw + [row], row.entity);
    LiveRows(h);
    DeletedMeaning(h);
    assert (raw + [row])[|raw|] == row;
    assert row.event in h;
    forall v | v in LiveEvents(h) ensures v.ingestedAt <= row.event.ingestedAt { assert v in h; }
  }

  /** Flags written before stay right when the history and the project tombstones only grow. */
  lemma FlagsCarry(s: State, t: State)
    requires FlagsOk(s) && s.raw <= t.raw && s.projectTombstones <= t.projectTombstones
    requires forall e :: e in t.projection ==>
               FlagOk(s, e, t.projection[e].n, t.projection[e].deleted)
               || FlagOk(t, e, t.projection[e].n, t.projection[e].deleted)
    requires forall w :: w in t.runs && t.runs[w].HasRead() ==>
               t.runs[w].n <= |s.raw| && (t.runs[w].phase != HistoryRead ==>
                   FlagOk(s, t.runs[w].job.entity, t.runs[w].n, t.runs[w].deleted))
    requires forall x :: x in t.erases ==>
               x in s.erases || (x.n <= |t.raw| && Deleted(History(t.raw[..x.n], x.entity)))
    ensures FlagsOk(t)
  {
    forall e | e in t.projection ensures FlagOk(t, e, t.projection[e].n, t.projection[e].deleted) {
      if FlagOk(s, e, t.projection[e].n, t.projection[e].deleted) {
        FlagStays(s, t, e, t.projection[e].n, t.projection[e].deleted);
      }
    }
    forall w | w in t.runs && t.runs[w].HasRead() && t.runs[w].phase != HistoryRead
      ensures FlagOk(t, t.runs[w].job.entity, t.runs[w].n, t.runs[w].deleted)
    { FlagStays(s, t, t.runs[w].job.entity, t.runs[w].n, t.runs[w].deleted); }
    forall x | x in s.erases ensures t.raw[..x.n] == s.raw[..x.n] {}
  }

  /** Steps that write no snapshot, read no history and compute no flag. */
  lemma FlagsFrame(s: State, t: State)
    requires FlagsOk(s) && s.raw <= t.raw && s.projectTombstones <= t.projectTombstones
    requires t.projection == s.projection && t.erases == s.erases
    requires forall w :: w in t.runs && t.runs[w].HasRead() ==>
               w in s.runs && s.runs[w].HasRead() && t.runs[w].job == s.runs[w].job && t.runs[w].n == s.runs[w].n
               && t.runs[w].deleted == s.runs[w].deleted
               && (s.runs[w].phase == HistoryRead ==> t.runs[w].phase == HistoryRead)
    ensures FlagsOk(t)
  {
    FlagsCarry(s, t);
  }

  lemma FlagEraseProject(c: Config, s: State, p: nat)
    requires FlagsOk(s) && p in s.projectTombstones
    ensures FlagsOk(Apply(c, s, EraseProject(p)))
  {
    var t := Apply(c, s, EraseProject(p));
    forall e | e in t.projection ensures FlagOk(t, e, t.projection[e].n, t.projection[e].deleted) {
      assert FlagOk(s, e, s.projection[e].n, s.projection[e].deleted);
    }
    FlagsCarry(s, t);
  }

  lemma FlagTombstone(c: Config, s: State, e: Entity)
    requires FlagsOk(s) && ClockPastStamps(c, s, WriteTombstone(e))
    ensures FlagsOk(Apply(c, s, WriteTombstone(e)))
  {
    var t := Apply(c, s, WriteTombstone(e));
    TombstoneDeletes(s.raw, t.raw[|s.raw|]);
    assert t.raw[..|s.raw| + 1] == s.raw + [t.raw[|s.raw|]];
    FlagsCarry(s, t);
  }

  lemma FlagRead(c: Config, s: State, w: nat)
    requires FlagsOk(s) && Enabled(c, s, ReadHistory(w))
    ensures FlagsOk(Apply(c, s, ReadHistory(w)))
  {
    FlagsCarry(s, Apply(c, s, ReadHistory(w)));
  }

  lemma FlagGuards(c: Config, s: State, w: nat, a: Action)
    requires FlagsOk(s) && a in {GuardProject(w), GuardParent(w)} && Enabled(c, s, a)
    ensures FlagsOk(Apply(c, s, a))
  {
    var r, t := s.runs[w], Apply(c, s, a);
    if ParentDeleted(s, r.job.entity) { ParentTombstoned(s, r.job.entity); }
    assert FlagOk(s, r.job.entity, r.n, t.runs[w].deleted);
    FlagsCarry(s, t);
  }

  lemma FlagWrite(c: Config, s: State, w: nat)
    requires FlagsOk(s) && Enabled(c, s, Write(w))
    ensures FlagsOk(Apply(c, s, Write(w)))
  {
    var r := s.runs[w];
    assert FlagOk(s, r.job.entity, r.n, r.deleted);
    FlagsCarry(s, Apply(c, s, Write(w)));
  }

  lemma FlagErase(c: Config, s: State, x: Erase)
    requires FlagsOk(s) && Enabled(c, s, EraseRows(x))
    ensures FlagsOk(Apply(c, s, EraseRows(x)))
  {
    assert FlagOk(s, x.entity, x.n, true);
    FlagsCarry(s, Apply(c, s, EraseRows(x)));
  }

  /** Requests, queues and key expiry. */
  lemma FlagQueue(c: Config, s: State, a: Action)
    requires FlagsOk(s) && Enabled(c, s, a)
    requires a.Tick? || a.StampEvents? || a.WriteRaw? || a.Enqueue? || a.WriteProjectTombstone?
             || a.Redeliver? || a.ExpireWatermark? || a.ExpireSeen?
    ensures FlagsOk(Apply(c, s, a))
  {
    var t := Apply(c, s, a);
    assert t.runs == s.runs && t.projection == s.projection && t.erases == s.erases && s.raw <= t.raw;
    FlagsFrame(s, t);
  }

  lemma FlagWorker(c: Config, s: State, a: Action, w: nat)
    requires FlagsOk(s) && Enabled(c, s, a)
    requires (a.Take? && a.w == w) || a in {CheckSeen(w), Redirect(w), CheckWatermark(w), Fail(w)}
    ensures FlagsOk(Apply(c, s, a))
  {
    var t := Apply(c, s, a);
    forall v | v in t.runs && v != w ensures v in s.runs && t.runs[v] == s.runs[v] {}
    assert w in t.runs ==> !t.runs[w].HasRead();
    FlagsFrame(s, t);
  }

  lemma FlagFinish(c: Config, s: State, a: Action, w: nat, stored: bool)
    requires FlagsOk(s) && Enabled(c, s, a)
    requires a == Publish(w, stored) || a == MarkSeen(w, stored)
    ensures FlagsOk(Apply(c, s, a))
  {
    var t := Apply(c, s, a);
    forall v | v in t.runs && v != w ensures v in s.runs && t.runs[v] == s.runs[v] {}
    FlagsFrame(s, t);
  }

  lemma FlagStep(c: Config, s: State, a: Action)
    requires FlagsOk(s) && Enabled(c, s, a) && ClockPastStamps(c, s, a)
    ensures FlagsOk(Apply(c, s, a))
  {
    match a
    case WriteTombstone(e) => FlagTombstone(c, s, e);
    case EraseRows(x) => FlagErase(c, s, x);
    case EraseProject(p) => FlagEraseProject(c, s, p);
    case ReadHistory(w) => FlagRead(c, s, w);
    case GuardProject(w) => FlagGuards(c, s, w, a);
    case GuardParent(w) => FlagGuards(c, s, w, a);
    case Write(w) => FlagWrite(c, s, w);
    case Take(w, _) => FlagWorker(c, s, a, w);
    case CheckSeen(w) => FlagWorker(c, s, a, w);
    case Redirect(w) => FlagWorker(c, s, a, w);
    case CheckWatermark(w) => FlagWorker(c, s, a, w);
    case Fail(w) => FlagWorker(c, s, a, w);
    case Publish(w, stored) => FlagFinish(c, s, a, w, stored);
    case MarkSeen(w, stored) => FlagFinish(c, s, a, w, stored);
    case _ => FlagQueue(c, s, a);
  }

  lemma {:induction false} FlagRun(c: Config, s: State, acts: seq<Action>)
    requires FlagsOk(s) && CanRun(c, s, acts) && Clocked(c, s, acts)
    ensures FlagsOk(Exec(c, s, acts))
    decreases |acts|
  {
    if acts != [] {
      FlagStep(c, s, acts[0]);
      FlagRun(c, Apply(c, s, acts[0]), acts[1..]);
    }
  }

  /* ---------- the newest accepted snapshot ---------- */

  lemma SameChoices(c: Config, s: State, m: map<Entity, nat>, a: Action)
    ensures Enabled(c, s.(newest := m), a) <==> Enabled(c, s, a)
  {
  }

  /** No step depends on the record of the newest snapshots. */
  lemma NewestIsUnread(c: Config, s: State, m: map<Entity, nat>, a: Action)
    requires Enabled(c, s, a)
    ensures Enabled(c, s.(newest := m), a)
    ensures Apply(c, s.(newest := m), a) == Apply(c, s, a).(newest := Apply(c, s.(newest := m), a).newest)
  {
    SameChoices(c, s, m, a);
    if !ByWorker(a) { UnreadOutside(c, s, m, a); }
    else if a.Take? || a.Redirect? || a.Fail? { UnreadQueue(c, s, m, a); }
    else if a.CheckSeen? || a.CheckWatermark? { UnreadChecks(c, s, m, a); }
    else if a.ReadHistory? { UnreadRead(c, s, m, a); }
    else if a.GuardProject? || a.GuardParent? { UnreadGuards(c, s, m, a); }
    else { UnreadLate(c, s, m, a); }
  }

  lemma UnreadOutside(c: Config, s: State, m: map<Entity, nat>, a: Action)
    requires !ByWorker(a) && Enabled(c, s, a) && Enabled(c, s.(newest := m), a)
    ensures Apply(c, s.(newest := m), a) == Apply(c, s, a).(newest := Apply(c, s.(newest := m), a).newest)
  {
  }

  lemma UnreadQueue(c: Config, s: State, m: map<Entity, nat>, a: Action)
    requires (a.Take? || a.Redirect? || a.Fail?) && Enabled(c, s, a) && Enabled(c, s.(newest := m), a)
    ensures Apply(c, s.(newest := m), a) == Apply(c, s, a).(newest := m)
  {
  }

  lemma UnreadChecks(c: Config, s: State, m: map<Entity, nat>, a: Action)
    requires (a.CheckSeen? || a.CheckWatermark?) && Enabled(c, s, a) && Enabled(c, s.(newest := m), a)
    ensures Apply(c, s.(newest := m), a) == Apply(c, s, a).(newest := m)
  {
  }

  lemma UnreadRead(c: Config, s: State, m: map<Entity, nat>, a: Action)
    requires a.ReadHistory? && Enabled(c, s, a) && Enabled(c, s.(newest := m), a)
    ensures Apply(c, s.(newest := m), a) == Apply(c, s, a).(newest := m)
  {
  }

  lemma UnreadGuards(c: Config, s: State, m: map<Entity, nat>, a: Action)
    requires (a.GuardProject? || a.GuardParent?) && Enabled(c, s, a) && Enabled(c, s.(newest := m), a)
    ensures Apply(c, s.(newest := m), a) == Apply(c, s, a).(newest := m)
  {
  }

  lemma UnreadLate(c: Config, s: State, m: map<Entity, nat>, a: Action)
    requires (a.Write? || a.Publish? || a.MarkSeen?) && Enabled(c, s, a) && Enabled(c, s.(newest := m), a)
    ensures Apply(c, s.(newest := m), a) == Apply(c, s, a).(newest := Apply(c, s.(newest := m), a).newest)
  {
    match a
    case Write(_) =>
    case Publish(_, _) =>
    case MarkSeen(_, _) =>
  }

  /** Somewhere in the run the projection row of `e` is a snapshot of `n` rows. */
  ghost predicate EverStored(c: Config, s: State, acts: seq<Action>, e: Entity, n: nat)
    requires CanRun(c, s, acts)
    decreases |acts|
  {
    || (e in s.projection && s.projection[e].n == n)
    || (acts != [] && EverStored(c, Apply(c, s, acts[0]), acts[1..], e, n))
  }

  predicate Recorded(s: State, e: Entity) { e in s.projection ==> s.projection[e].n <= Longest(s, e) }

  lemma NewestStep(c: Config, s: State, a: Action, e: Entity)
    requires Enabled(c, s, a) && Recorded(s, e)
    ensures var t := Apply(c, s, a);
            && Recorded(t, e) && Longest(s, e) <= Longest(t, e)
            && (Longest(t, e) == Longest(s, e) || (e in t.projection && t.projection[e].n == Longest(t, e)))
  {
    match a
    case Write(_) =>
    case EraseRows(_) =>
    case EraseProject(_) =>
    case _ => if ByWorker(a) { WorkersKeepRows(c, s, a); } else { OthersKeepSnapshots(c, s, a); }
  }

  lemma {:induction false} NewestRun(c: Config, s: State, acts: seq<Action>, e: Entity)
    requires CanRun(c, s, acts) && Recorded(s, e)
    ensures var t := Exec(c, s, acts);
            && Longest(s, e) <= Longest(t, e)
            && (forall n: nat :: EverStored(c, s, acts, e, n) ==> n <= Longest(t, e))
            && (Longest(t, e) == Longest(s, e) || EverStored(c, s, acts, e, Longest(t, e)))
    decreases |acts|
  {
    if acts != [] {
      var u := Apply(c, s, acts[0]);
      NewestStep(c, s, acts[0], e);
      NewestRun(c, u, acts[1..], e);
      if Longest(Exec(c, u, acts[1..]), e) != Longest(s, e) && Longest(u, e) != Longest(s, e) {
        assert EverStored(c, u, acts[1..], e, Longest(u, e));
      }
    }
  }

  /** What the record means: a row is covered exactly when some snapshot stored during the run holds it. */
  lemma CoveredMeaning(c: Config, now: int, acts: seq<Action>, i: nat)
    requires CanRun(c, Init(now), acts) && i < |Exec(c, Init(now), acts).raw|
    ensures var s := Exec(c, Init(now), acts);
            Covered(s, i) <==> exists n: nat :: i < n && EverStored(c, Init(now), acts, s.raw[i].entity, n)
  {
    NewestRun(c, Init(now), acts, Exec(c, Init(now), acts).raw[i].entity);
  }

  /* ---------- convergence ---------- */

  lemma {:induction false} NoEventsNoRows(raw: seq<Stored>, e: Entity)
    ensures EventsOf(raw, e) == [] <==> forall i :: 0 <= i < |raw| ==> raw[i].entity != e
  {
    EventsOfRows(raw, e);
    forall i | 0 <= i < |raw| && raw[i].entity == e ensures EventsOf(raw, e) != [] {
      assert raw[i].event in EventsOf(raw, e);
    }
    if EventsOf(raw, e) != [] { assert EventsOf(raw, e)[0] in EventsOf(raw, e); }
  }

  /** Two histories of an entity are equal exactly when no row of it lies between them. */
  lemma SameHistoryIff(raw: seq<Stored>, n: nat, e: Entity)
    requires n <= |raw|
    ensures History(raw[..n], e) == History(raw, e) <==> forall i :: n <= i < |raw| ==> raw[i].entity != e
  {
    if forall i :: n <= i < |raw| ==> raw[i].entity != e {
      PrefixIsWhole(raw, n, e);
    } else {
      var i :| n <= i < |raw| && raw[i].entity == e;
      var front, rest := raw[..n], raw[n..];
      assert raw == front + rest && rest[i - n].entity == e;
      EventsOfAppend(front, rest, e);
      EventsOfRows(rest, e);
      assert rest[i - n].event in EventsOf(rest, e);
      ReadOrderSorts(EventsOf(raw, e));
      ReadOrderSorts(EventsOf(front, e));
      assert |multiset(History(raw, e))| > |multiset(History(front, e))|;
    }
  }

  /** With nothing in flight, a projection is the rebuild of the full history exactly when it holds every row that
      any snapshot ever held. */
  lemma QuiescentIff(c: Config, s: State, e: Entity)
    requires Inv(c, s) && Quiescent(s)
    ensures Converged(s, e) <==> UpToDate(s, e)
  {
    forall k | 0 <= k < |s.raw| ensures Covered(s, k) { assert Covered(s, k) || Owed(s, k); }
    NoEventsNoRows(s.raw, e);
    if EventsOf(s.raw, e) != [] {
      var i :| 0 <= i < |s.raw| && s.raw[i].entity == e;
      assert Covered(s, i);
      forall k | 0 <= k < |s.raw| && s.raw[k].entity == e ensures k < Longest(s, e) { assert Covered(s, k); }
      SameHistoryIff(s.raw, s.projection[e].n, e);
    }
  }

  /** Once no request, job, run or erase is in flight, a projection is the rebuild of the full history of its entity
      exactly when it holds every row that any snapshot ever held, however requests, retries, redeliveries,
      redirects, skips, expiries and writes were interleaved. It is then deleted if that history says so, and then
      only, but for a tombstone of its project or of its parent trace. */
  lemma ConvergenceIff(c: Config, now: int, acts: seq<Action>, e: Entity)
    requires CanRun(c, Init(now), acts) && Clocked(c, Init(now), acts)
    requires Quiescent(Exec(c, Init(now), acts))
    ensures var s := Exec(c, Init(now), acts);
            && (Converged(s, e) <==> UpToDate(s, e))
            && (Converged(s, e) && EventsOf(s.raw, e) != [] ==>
                  && (Deleted(History(s.raw, e)) ==> s.projection[e].deleted)
                  && (s.projection[e].deleted ==> Deleted(History(s.raw, e)) || Guarded(s, e)))
  {
    RunKeeps(c, Init(now), acts);
    QuiescentIff(c, Exec(c, Init(now), acts), e);
    FlagRun(c, Init(now), acts);
  }

  lemma UpToDateStays(s: State, t: State, e: Entity)
    requires SizesOk(s) && UpToDate(s, e) && s.raw <= t.raw && t.newest == s.newest
    requires e in t.projection ==> e in s.projection && t.projection[e].n == s.projection[e].n
    ensures UpToDate(t, e)
  {
  }

  lemma UpToDateStored(s: State, e: Entity, x: Snapshot, d: Entity)
    requires SizesOk(s) && UpToDate(s, e) && NotOlder(s, d, x.n)
    ensures UpToDate(Store(s, d, x), e)
  {
  }

  lemma UpToDateStep(c: Config, s: State, a: Action, e: Entity)
    requires SizesOk(s) && UpToDate(s, e) && Enabled(c, s, a) && WritesInOrder(c, s, a)
    ensures UpToDate(Apply(c, s, a), e)
  {
    if a.Write? {
      UpToDateStored(s, e, Snapshot(s.runs[a.w].n, s.runs[a.w].deleted), s.runs[a.w].job.entity);
    } else if a.EraseRows? {
      UpToDateStored(s, e, Snapshot(a.x.n, true), a.x.entity);
    } else if ByWorker(a) {
      WorkersKeepRows(c, s, a);
    } else {
      RowsStay(c, s, a);
      if !a.EraseProject? { OthersKeepSnapshots(c, s, a); }
      UpToDateStays(s, Apply(c, s, a), e);
    }
  }

  lemma RowsStay(c: Config, s: State, a: Action)
    requires Enabled(c, s, a) && !ByWorker(a)
    ensures s.raw <= Apply(c, s, a).raw
  {
  }

  lemma {:induction false} UpToDateRun(c: Config, s: State, acts: seq<Action>, e: Entity)
    requires Inv(c, s) && UpToDate(s, e) && CanRun(c, s, acts) && Disciplined(c, s, acts)
    ensures UpToDate(Exec(c, s, acts), e)
    decreases |acts|
  {
    if acts != [] {
      UpToDateStep(c, s, acts[0], e);
      StepKeeps(c, s, acts[0]);
      UpToDateRun(c, Apply(c, s, acts[0]), acts[1..], e);
    }
  }

  /** In a run whose writes are in order every projection converges. It is deleted if its history says so, and then
      only, but for a tombstone of its project or of its parent trace. */
  lemma Convergence(c: Config, now: int, acts: seq<Action>, e: Entity)
    requires CanRun(c, Init(now), acts) && Disciplined(c, Init(now), acts)
    requires Quiescent(Exec(c, Init(now), acts))
    ensures var s := Exec(c, Init(now), acts);
            && Converged(s, e)
            && (EventsOf(s.raw, e) != [] ==>
                  && (Deleted(History(s.raw, e)) ==> s.projection[e].deleted)
                  && (s.projection[e].deleted ==> Deleted(History(s.raw, e)) || Guarded(s, e)))
  {
    DisciplinedIsClocked(c, Init(now), acts);
    UpToDateRun(c, Init(now), acts, e);
    ConvergenceIff(c, now, acts, e);
  }

  /* ---------- coalescing ---------- */

  /** A job that the watermark skips loses nothing, in whatever order snapshots are written: every row of its
      entity that was visible when the job was stamped, its own rows among them, is in an accepted snapshot. */
  lemma CoalescingIsSafe(c: Config, now: int, acts: seq<Action>, j: Job)
    requires CanRun(c, Init(now), acts) && Clocked(c, Init(now), acts)
    ensures var s := Exec(c, Init(now), acts);
            SkippedByWatermark(c, s, j) ==>
              forall i :: 0 <= i < |s.raw| && s.raw[i].entity == j.entity && s.raw[i].visibleAt <= j.timestamp
                          ==> Covered(s, i)
    ensures var s := Exec(c, Init(now), acts);
            forall w :: w in s.runs && s.runs[w].job == j ==>
              forall i :: 0 <= i < |s.raw| && OwnRow(s.raw[i], HandleOf(j)) ==> s.raw[i].visibleAt <= j.timestamp
  {
    RunKeeps(c, Init(now), acts);
  }

  /** A lowered or expired watermark skips fewer jobs and takes no coverage away. */
  lemma LowerWatermarkOnlyRebuilds(c: Config, s: State, lower: map<WatermarkKey, int>, j: Job)
    requires Inv(c, s)
    requires forall k :: k in lower ==> k in s.watermark && lower[k] <= s.watermark[k]
    ensures Inv(c, s.(watermark := lower))
    ensures SkippedByWatermark(c, s.(watermark := lower), j) ==> SkippedByWatermark(c, s, j)
  {
    LowerWatermarksHold(s, lower);
    NewWatermarks(c, s, lower);
  }

  /** Some job is about to be skipped although one of its rows is in no snapshot. */
  ghost predicate AboutToLose(c: Config, s: State) {
    exists w, i :: w in s.runs && 0 <= i < |s.raw| && At(s, w, Unseen) && !Redirects(c, s.runs[w])
                   && SkippedByWatermark(c, s, s.runs[w].job)
                   && OwnRow(s.raw[i], HandleOf(s.runs[w].job)) && !Covered(s, i)
  }

  lemma NothingToLose(c: Config, s: State)
    requires Inv(c, s)
    ensures !AboutToLose(c, s)
  {
    forall w, i | w in s.runs && 0 <= i < |s.raw| && SkippedByWatermark(c, s, s.runs[w].job)
                  && OwnRow(s.raw[i], HandleOf(s.runs[w].job))
      ensures Covered(s, i)
    {
      assert JobOk(s, s.runs[w].job);
    }
  }

  /** A worker takes the job of `h2` and comes to its watermark check, through the secondary queue if
      the project is redirected. */
  function ReachCheck(c: Config, j: Job, w: nat): seq<Action> {
    [Take(w, Queued(j, false)), CheckSeen(w)] +
    if j.entity.project in c.redirected then [Redirect(w), Take(w, Queued(j, true)), CheckSeen(w)] else []
  }

  lemma TakeAndCheck(c: Config, s: State, q: Queued, w: nat)
    requires w !in s.runs && q in s.queue && SeenOf(q.job) !in s.seen
    ensures var acts := [Take(w, q), CheckSeen(w)];
            && CanRun(c, s, acts) && Disciplined(c, s, acts)
            && Exec(c, s, acts) == s.(queue := s.queue - multiset{q},
                                      runs := s.runs[w := Run(q.job, q.secondary, Unseen, 0, 0, false)])
  {
    var s1 := Apply(c, s, Take(w, q));
    Cons(c, s1, CheckSeen(w), []);
    Cons(c, s, Take(w, q), [CheckSeen(w)] + []);
    assert [Take(w, q)] + ([CheckSeen(w)] + []) == [Take(w, q), CheckSeen(w)];
    assert s1.runs[w := Run(q.job, q.secondary, Unseen, 0, 0, false)]
        == s.runs[w := Run(q.job, q.secondary, Unseen, 0, 0, false)];
  }

  lemma {:induction false} Concat(c: Config, s: State, a: seq<Action>, b: seq<Action>)
    requires CanRun(c, s, a) && CanRun(c, Exec(c, s, a), b)
    ensures CanRun(c, s, a + b) && Exec(c, s, a + b) == Exec(c, Exec(c, s, a), b)
    ensures Disciplined(c, s, a) && Disciplined(c, Exec(c, s, a), b) ==> Disciplined(c, s, a + b)
    decreases |a|
  {
    if a == [] {
      assert a + b == b;
    } else {
      Concat(c, Apply(c, s, a[0]), a[1..], b);
      assert (a + b)[1..] == a[1..] + b;
    }
  }

  lemma RedirectAndCheck(c: Config, s: State, j: Job, w: nat)
    requires At(s, w, Unseen) && s.runs[w].job == j && Redirects(c, s.runs[w]) && SeenOf(j) !in s.seen
    ensures var acts := [Redirect(w)] + [Take(w, Queued(j, true)), CheckSeen(w)];
            && CanRun(c, s, acts) && Disciplined(c, s, acts)
            && var t := Exec(c, s, acts);
            && t.raw == s.raw && t.watermark == s.watermark && t.newest == s.newest
            && At(t, w, Unseen) && t.runs[w].job == j && t.runs[w].secondary
  {
    var s1 := Apply(c, s, Redirect(w));
    assert Queued(j, true) in s1.queue;
    TakeAndCheck(c, s1, Queued(j, true), w);
    Cons(c, s, Redirect(w), [Take(w, Queued(j, true)), CheckSeen(w)]);
  }

  lemma ReachCheckRuns(c: Config, s: State, j: Job, w: nat)
    requires w !in s.runs && Queued(j, false) in s.queue && SeenOf(j) !in s.seen
    ensures CanRun(c, s, ReachCheck(c, j, w)) && Disciplined(c, s, ReachCheck(c, j, w))
    ensures var t := Exec(c, s, ReachCheck(c, j, w));
            && t.raw == s.raw && t.watermark == s.watermark && t.newest == s.newest
            && At(t, w, Unseen) && t.runs[w].job == j && !Redirects(c, t.runs[w])
  {
    var first := [Take(w, Queued(j, false)), CheckSeen(w)];
    TakeAndCheck(c, s, Queued(j, false), w);
    if j.entity.project in c.redirected {
      var again := [Redirect(w)] + [Take(w, Queued(j, true)), CheckSeen(w)];
      RedirectAndCheck(c, Exec(c, s, first), j, w);
      Concat(c, s, first, again);
      assert ReachCheck(c, j, w) == first + again;
    } else {
      assert ReachCheck(c, j, w) == first;
    }
  }
}
