/** Patching the resource type of audit logs in batches until nothing new is fetched
    (worker/src/backgroundMigrations/patchLLMToolAndLLLMSchemaAuditLogs.ts). */
module AuditLogPatch {
  import opened Arithmetic
  import opened Collections
  import opened Wrappers

  const BATCH_SIZE: nat := 1000

  datatype Kind = Project | LlmSchema | LlmTool | OtherKind

  /** A stored JSON snapshot: missing or empty, unreadable (also any value that is no object), or an object. */
  datatype Snapshot = Absent | Unreadable | Object(hasSchema: bool, hasParameters: bool)

  datatype Log = Log(kind: Kind, projectId: nat, resourceId: nat, before: Snapshot, after: Snapshot)

  type Table = map<nat, Log>

  /* ---------- inference ---------- */

  function Look(s: Snapshot, kind: Kind): Kind {
    if !s.Object? then kind
    else if s.hasParameters then LlmTool
    else if s.hasSchema then LlmSchema
    else kind
  }

  predicate Telling(s: Snapshot) { s.Object? && (s.hasSchema || s.hasParameters) }

  /** `after` decides when it tells anything, then `before`; `parameters` wins over `schema`. */
  function Infer(log: Log): (kind: Kind)
    ensures log.kind == Project ==> (kind == Project <==> !Telling(log.before) && !Telling(log.after))
    ensures Telling(log.after) ==>
              (kind == LlmTool <==> log.after.hasParameters) && (kind == LlmSchema <==> !log.after.hasParameters)
    ensures !Telling(log.after) && Telling(log.before) ==>
              (kind == LlmTool <==> log.before.hasParameters) && (kind == LlmSchema <==> !log.before.hasParameters)
    ensures !Telling(log.after) && !Telling(log.before) ==> kind == log.kind
  {
    Look(log.after, Look(log.before, log.kind))
  }

  predicate Mismatched(log: Log) { log.kind == Project && log.resourceId != log.projectId }

  function Open(rows: Table): set<nat> { set id | id in rows && Mismatched(rows[id]) }

  function Hopeless(rows: Table): set<nat> { set id | id in Open(rows) && Infer(rows[id]) == Project }

  /* ---------- one round ---------- */

  /** A possible answer of the query: any batch of open logs, the same one again if the database likes. */
  predicate IsFetch(rows: Table, fetched: set<nat>) {
    fetched <= Open(rows) && |fetched| == Min(BATCH_SIZE, |Open(rows)|)
  }

  function Patch(rows: Table, ids: set<nat>): Table {
    map id | id in rows :: if id in ids then rows[id].(kind := Infer(rows[id])) else rows[id]
  }

  function WriteBack(rows: Table, kinds: map<nat, Kind>): Table {
    map id | id in rows :: if id in kinds then rows[id].(kind := kinds[id]) else rows[id]
  }

  datatype State = State(rows: Table, failed: set<nat>)

  function Next(s: State, fetched: set<nat>): State
    requires fetched <= s.rows.Keys
  {
    var logs := fetched - s.failed;
    State(Patch(s.rows, logs), s.failed + set id | id in logs && Infer(s.rows[id]) == Project)
  }

  lemma RoundIsNext(rows: Table, failed: set<nat>, fetched: set<nat>, kinds: map<nat, Kind>, added: set<nat>)
    requires fetched <= rows.Keys
    requires kinds == map id | id in fetched - failed :: Infer(rows[id])
    requires added == set id | id in fetched - failed && Infer(rows[id]) == Project
    ensures State(WriteBack(rows, kinds), failed + added) == Next(State(rows, failed), fetched)
  {
  }

  /* ---------- runs ---------- */

  /** Only open logs with a telling snapshot change, each to its inferred kind; failures are hopeless. */
  predicate Inv(first: Table, s: State) {
    && s.rows.Keys == first.Keys && s.failed <= Hopeless(first)
    && (forall id :: id in first ==>
          s.rows[id] == first[id] || (id in Open(first) && s.rows[id] == first[id].(kind := Infer(first[id]))))
  }

  /** Every open log whose kind can be inferred is patched, nothing else. */
  predicate Complete(first: Table, rows: Table) { rows == Patch(first, Open(first)) }

  /** Complete: exactly the project logs whose resource is another than their project have their inferred kind, and
      nothing else of any log changed. */
  lemma CompleteMeaning(first: Table, rows: Table)
    ensures Complete(first, rows) <==>
            && rows.Keys == first.Keys
            && forall id :: id in first ==>
                 var log := first[id];
                 rows[id] == if log.kind == Project && log.resourceId != log.projectId
                             then log.(kind := Infer(log)) else log
  {
    if rows.Keys == first.Keys && forall id :: id in first ==>
         rows[id] == if id in Open(first) then first[id].(kind := Infer(first[id])) else first[id]
    {
      assert rows == Patch(first, Open(first));
    }
  }


  lemma RoundKeeps(first: Table, s: State, fetched: set<nat>)
    requires Inv(first, s) && fetched <= Open(s.rows)
    ensures Inv(first, Next(s, fetched))
    ensures forall id :: id in Open(s.rows) ==> s.rows[id] == first[id]
    ensures Open(Next(s, fetched).rows) <= Open(s.rows)
  {
  }

  /** A round that still patches or fails something leaves fewer logs to look at. */
  lemma RoundShrinks(first: Table, s: State, fetched: set<nat>)
    requires Inv(first, s) && fetched <= Open(s.rows) && fetched - s.failed != {}
    ensures var t := Next(s, fetched); |Open(t.rows) - t.failed| < |Open(s.rows) - s.failed|
  {
    var t := Next(s, fetched);
    var id :| id in fetched - s.failed;
    RoundKeeps(first, s, fetched);
    assert id !in Open(t.rows) - t.failed;
    SubsetSize(Open(t.rows) - t.failed, Open(s.rows) - s.failed - {id});
  }

  /** When a round fetches only known failures, the patch is complete or a full batch of logs is hopeless. */
  lemma EmptyRound(first: Table, s: State, fetched: set<nat>)
    requires Inv(first, s) && IsFetch(s.rows, fetched) && fetched <= s.failed
    ensures Complete(first, s.rows) || |Hopeless(first)| >= BATCH_SIZE
  {
    if |Hopeless(first)| < BATCH_SIZE {
      SubsetSize(fetched, Hopeless(first));
      SubsetSize(fetched, Open(s.rows));
      forall id | id in first ensures s.rows[id] == Patch(first, Open(first))[id] {
        if id in Open(first) && s.rows[id] == first[id] { assert id in Open(s.rows); }
      }
    }
  }

  lemma NothingNew(s: State, fetched: set<nat>)
    requires fetched <= s.rows.Keys && fetched <= s.failed
    ensures Next(s, fetched) == s
  {
    assert fetched - s.failed == {};
  }

  /** The rounds of a run with the given fetches, the last of which finds nothing new. */
  predicate IsRun(s: State, fetches: seq<set<nat>>)
    decreases |fetches|
  {
    && fetches != [] && IsFetch(s.rows, fetches[0])
    && (fetches[0] <= s.failed <==> |fetches| == 1)
    && (|fetches| > 1 ==> IsRun(Next(s, fetches[0]), fetches[1..]))
  }

  function Final(s: State, fetches: seq<set<nat>>): Table
    requires IsRun(s, fetches)
    decreases |fetches|
  {
    if |fetches| == 1 then s.rows else Final(Next(s, fetches[0]), fetches[1..])
  }

  /** Rounds that all find something new. */
  predicate Goes(s: State, fetches: seq<set<nat>>)
    decreases |fetches|
  {
    fetches == [] ||
    (IsFetch(s.rows, fetches[0]) && !(fetches[0] <= s.failed) && Goes(Next(s, fetches[0]), fetches[1..]))
  }

  function After(s: State, fetches: seq<set<nat>>): State
    requires Goes(s, fetches)
    decreases |fetches|
  {
    if fetches == [] then s else After(Next(s, fetches[0]), fetches[1..])
  }

  lemma {:induction false} GoesOn(s: State, fetches: seq<set<nat>>, f: set<nat>)
    requires Goes(s, fetches) && IsFetch(After(s, fetches).rows, f)
    ensures !(f <= After(s, fetches).failed) ==>
              Goes(s, fetches + [f]) && After(s, fetches + [f]) == Next(After(s, fetches), f)
    ensures f <= After(s, fetches).failed ==>
              IsRun(s, fetches + [f]) && Final(s, fetches + [f]) == After(s, fetches).rows
    decreases |fetches|
  {
    assert (fetches + [f])[1..] == if fetches == [] then [] else fetches[1..] + [f];
    if fetches != [] { GoesOn(Next(s, fetches[0]), fetches[1..], f); }
  }

  lemma {:induction false} RunIsComplete(first: Table, s: State, fetches: seq<set<nat>>)
    requires Inv(first, s) && IsRun(s, fetches) && |Hopeless(first)| < BATCH_SIZE
    ensures Complete(first, Final(s, fetches))
    decreases |fetches|
  {
    if |fetches| == 1 {
      EmptyRound(first, s, fetches[0]);
    } else {
      RoundKeeps(first, s, fetches[0]);
      RunIsComplete(first, Next(s, fetches[0]), fetches[1..]);
    }
  }

  /** With a full batch of hopeless logs the run can end at once, patching nothing. */
  lemma IdleRun(first: Table) returns (fetches: seq<set<nat>>)
    requires |Hopeless(first)| >= BATCH_SIZE
    ensures IsRun(State(first, {}), fetches) && Final(State(first, {}), fetches) == first
  {
    var f := SubsetOfSize(Hopeless(first), BATCH_SIZE);
    SubsetSize(Hopeless(first), Open(first));
    var s := State(first, {});
    var t := Next(s, f);
    assert t.rows == first && t.failed == f;
    assert f != {};
    assert IsRun(t, [f]);
    fetches := [f, f];
    assert fetches[1..] == [f];
  }

  /** Every run leaves every log patched that can be exactly when fewer than a batch of logs are hopeless,
      or all of them are. */
  lemma AlwaysCompleteIff(first: Table)
    ensures (forall fetches :: IsRun(State(first, {}), fetches) ==> Complete(first, Final(State(first, {}), fetches)))
            <==> |Hopeless(first)| < 1000 || Hopeless(first) == Open(first)
  {
    var s := State(first, {});
    if |Hopeless(first)| < BATCH_SIZE {
      forall fetches | IsRun(s, fetches) ensures Complete(first, Final(s, fetches)) {
        RunIsComplete(first, s, fetches);
      }
    } else if Hopeless(first) == Open(first) {
      forall fetches | IsRun(s, fetches) ensures Complete(first, Final(s, fetches)) {
        NothingToPatch(first, s, fetches);
      }
    } else {
      var fetches := IdleRun(first);
      var id :| id in Open(first) && id !in Hopeless(first);
      assert Patch(first, Open(first))[id].kind != first[id].kind;
    }
  }

  lemma {:induction false} NothingToPatch(first: Table, s: State, fetches: seq<set<nat>>)
    requires Inv(first, s) && IsRun(s, fetches) && Hopeless(first) == Open(first)
    ensures Complete(first, Final(s, fetches))
    decreases |fetches|
  {
    if |fetches| > 1 {
      RoundKeeps(first, s, fetches[0]);
      NothingToPatch(first, Next(s, fetches[0]), fetches[1..]);
    }
  }

  /** The state of a run from `first` after rounds that all found something new. */
  ghost predicate Patched(first: Table, s: State, fetches: seq<set<nat>>) {
    Inv(first, s) && Goes(State(first, {}), fetches) && s == After(State(first, {}), fetches)
  }

  /** One more round goes on with fewer logs to look at, or it is the last. */
  lemma PatchesOn(first: Table, s: State, fetches: seq<set<nat>>, f: set<nat>)
    requires Patched(first, s, fetches) && IsFetch(s.rows, f)
    ensures Inv(first, Next(s, f))
    ensures !(f <= s.failed) ==>
              && Patched(first, Next(s, f), fetches + [f])
              && |Open(Next(s, f).rows) - Next(s, f).failed| < |Open(s.rows) - s.failed|
    ensures f <= s.failed ==>
              && Next(s, f) == s && (Complete(first, s.rows) || |Hopeless(first)| >= BATCH_SIZE)
              && IsRun(State(first, {}), fetches + [f]) && Final(State(first, {}), fetches + [f]) == s.rows
  {
    RoundKeeps(first, s, f);
    GoesOn(State(first, {}), fetches, f);
    if f <= s.failed {
      NothingNew(s, f);
      EmptyRound(first, s, f);
    } else {
      RoundShrinks(first, s, f);
    }
  }

  /* ---------- the migration ---------- */

  datatype Ending = Finished | Aborted

  class AuditLogs {
    var rows: Table

    method Fetch() returns (fetched: set<nat>)
      ensures IsFetch(rows, fetched)
    {
      var open := Open(rows);
      ghost var some := SubsetOfSize(open, Min(BATCH_SIZE, |open|));
      fetched :| fetched <= open && |fetched| == Min(BATCH_SIZE, |open|);
    }

    /** One round: fetch, leave out known failures, infer, write back. */
    method Round(failed: set<nat>) returns (nextFailed: set<nat>, done: bool, ghost fetched: set<nat>)
      modifies this
      ensures IsFetch(old(rows), fetched)
      ensures State(rows, nextFailed) == Next(State(old(rows), failed), fetched)
      ensures done <==> fetched <= failed
    {
      var found := Fetch();
      var logs := found - failed;
      var kinds, added := InferAll(logs);
      nextFailed := failed + added;
      RoundIsNext(rows, failed, found, kinds, added);
      rows := WriteBack(rows, kinds);
      done := logs == {};
      fetched := found;
    }

    /** `abortAfter` says in which round the abort signal is first seen; `fetches` are what the rounds fetched. */
    method Run(abortAfter: Option<nat>) returns (ending: Ending, failed: set<nat>, ghost fetches: seq<set<nat>>)
      modifies this
      ensures Inv(old(rows), State(rows, failed))
      ensures ending == Finished ==> Complete(old(rows), rows) || |Hopeless(old(rows))| >= BATCH_SIZE
      ensures ending == Finished ==>
                IsRun(State(old(rows), {}), fetches) && rows == Final(State(old(rows), {}), fetches)
      ensures ending == Aborted ==>
                && abortAfter == Some(|fetches|) && Goes(State(old(rows), {}), fetches)
                && State(rows, failed) == After(State(old(rows), {}), fetches)
    {
      ghost var first := rows;
      failed, fetches := {}, [];
      var rounds := 0;
      while abortAfter.None? || rounds < abortAfter.value
        invariant Patched(first, State(rows, failed), fetches)
        invariant rounds == |fetches| && (abortAfter.Some? ==> rounds <= abortAfter.value)
        decreases |Open(rows) - failed|
      {
        ghost var s := State(rows, failed);
        var done;
        ghost var fetched;
        failed, done, fetched := Round(failed);
        PatchesOn(first, s, fetches, fetched);
        fetches := fetches + [fetched];
        if done { return Finished, failed, fetches; }
        rounds := rounds + 1;
      }
      ending := Aborted;
    }

    method InferAll(logs: set<nat>) returns (kinds: map<nat, Kind>, failed: set<nat>)
      requires logs <= rows.Keys
      ensures kinds == map id | id in logs :: Infer(rows[id])
      ensures failed == set id | id in logs && Infer(rows[id]) == Project
    {
      kinds, failed := map[], {};
      var left := logs;
      while left != {}
        invariant left <= logs
        invariant kinds == map id | id in logs - left :: Infer(rows[id])
        invariant failed == set id | id in logs - left && Infer(rows[id]) == Project
      {
        var id :| id in left;
        var kind := rows[id].kind;
        if rows[id].before.Object? {
          if rows[id].before.hasSchema { kind := LlmSchema; }
          if rows[id].before.hasParameters { kind := LlmTool; }
        }
        if rows[id].after.Object? {
          if rows[id].after.hasSchema { kind := LlmSchema; }
          if rows[id].after.hasParameters { kind := LlmTool; }
        }
        kinds := kinds[id := kind];
        if kind == Project { failed := failed + {id}; }
        left := left - {id};
      }
    }
  }
}
