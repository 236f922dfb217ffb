/** The processor of one job, branch by branch, over the shared stores it reads and writes. */
module IngestionProcessor {
  import opened Wrappers
  import opened RawEvents
  import opened Ingestion
  import opened IngestionTheorems

  datatype Outcome = SkippedSeen | Redirected | SkippedWatermark | NoEvents | Rebuilt

  /** The steps an undisturbed invocation takes; the two flags say whether the Redis writes succeeded. */
  function Steps(o: Outcome, w: nat, published: bool, marked: bool): seq<Action> {
    match o
    case SkippedSeen => [CheckSeen(w)]
    case Redirected => [CheckSeen(w), Redirect(w)]
    case SkippedWatermark => [CheckSeen(w), CheckWatermark(w)]
    case NoEvents => [CheckSeen(w), CheckWatermark(w), ReadHistory(w)]
    case Rebuilt => [CheckSeen(w), CheckWatermark(w), ReadHistory(w), GuardProject(w), GuardParent(w),
                     Write(w), Publish(w, published), MarkSeen(w, marked)]
  }

  /** CanRun and Exec of a literal list, one action at a time from the back. */
  ghost predicate Leads(c: Config, s: State, acts: seq<Action>, t: State) {
    CanRun(c, s, acts) && Exec(c, s, acts) == t
  }

  lemma Lead(c: Config, s: State, a: Action, acts: seq<Action>, t: State)
    requires Enabled(c, s, a) && Leads(c, Apply(c, s, a), acts, t)
    ensures Leads(c, s, [a] + acts, t)
  {
    Cons(c, s, a, acts);
  }

  class Stores {
    const config: Config
    var clock: int
    var raw: seq<Stored>
    var appends: map<Handle, Append>
    var started: set<Handle>
    var queue: multiset<Queued>
    var watermark: map<WatermarkKey, int>
    var seen: set<SeenKey>
    var projectTombstones: set<nat>
    var projection: map<Entity, Snapshot>
    var erases: set<Erase>
    var runs: map<nat, Run>
    ghost var newest: map<Entity, nat>

    constructor (c: Config, now: int)
      ensures config == c && AsState() == Init(now)
    {
      config := c;
      clock, raw, appends, started, queue := now, [], map[], {}, multiset{};
      watermark, seen, projectTombstones, projection, erases, runs, newest := map[], {}, {}, map[], {}, map[], map[];
    }

    ghost function AsState(): State
      reads this
    {
      State(clock, raw, appends, started, queue, watermark, seen, projectTombstones, projection, erases, runs, newest)
    }

    /** One invocation, already taken from its queue by worker `w`. */
    method Process(w: nat, published: bool, marked: bool) returns (o: Outcome)
      requires At(AsState(), w, Taken)
      modifies this`queue, this`watermark, this`seen, this`projection, this`runs, this`newest
      ensures Leads(config, old(AsState()), Steps(o, w, published, marked), AsState())
      ensures w !in runs
    {
      ghost var before := AsState();
      var skipped := Skip(w, published, marked);
      if skipped.Some? { return skipped.value; }
      o := Rebuild(w, published, marked);
      ChecksPassedLeads(config, before, w, o, published, marked);
    }

    /** The seen key, the secondary queue and the watermark, in this order. */
    method Skip(w: nat, published: bool, marked: bool) returns (o: Option<Outcome>)
      requires At(AsState(), w, Taken)
      modifies this`queue, this`runs
      ensures o.Some? ==> w !in runs && Leads(config, old(AsState()), Steps(o.value, w, published, marked), AsState())
      ensures o.None? ==>
                && AsState() == old(AsState())
                && !SkippedBySeen(config, AsState(), runs[w].job) && !Redirects(config, runs[w])
                && !SkippedByWatermark(config, AsState(), runs[w].job)
    {
      ghost var before := AsState();
      var job, secondary := runs[w].job, runs[w].secondary;
      if config.seenCache {
        if SeenOf(job) in seen {
          runs := runs - {w};
          SeenLeads(config, before, w, published, marked);
          return Some(SkippedSeen);
        }
      }
      if !secondary && job.entity.project in config.redirected {
        queue := queue + multiset{Queued(job, true)};
        runs := runs - {w};
        RedirectLeads(config, before, w, published, marked);
        return Some(Redirected);
      }
      if config.coalesce {
        if KeyOf(job) in watermark && watermark[KeyOf(job)] >= job.timestamp {
          runs := runs - {w};
          WatermarkLeads(config, before, w, published, marked);
          return Some(SkippedWatermark);
        }
      }
      return None;
    }

    /** The part after all skips: read the history, check the guards, write and mark. */
    method Rebuild(w: nat, published: bool, marked: bool) returns (o: Outcome)
      requires w in runs
      modifies this`watermark, this`seen, this`projection, this`runs, this`newest
      ensures o == if LiveEvents(History(raw, old(runs)[w].job.entity)) == [] then NoEvents else Rebuilt
      ensures AsState() == if o == NoEvents then Drop(old(AsState()), w)
                           else AfterRebuild(config, old(AsState()), w, published, marked)
      ensures w !in runs
    {
      var job := runs[w].job;
      var p := ParseRawEventHistory(History(raw, job.entity), 0);
      if p.events == [] {
        runs := runs - {w};
        return NoEvents;
      }
      var deleted := CheckDeleted(job.entity, p.deleted);
      MergeAndWrite(job, deleted, p.maxIngestedAt, published, marked);
      runs := runs - {w};
      return Rebuilt;
    }

    /** The project-level and parent-trace deletion guards. */
    method CheckDeleted(e: Entity, own: bool) returns (deleted: bool)
      ensures deleted == (own || e.project in projectTombstones || ParentDeleted(AsState(), e))
      ensures (e.kind.Observation? || e.kind.Score?) && e.traceId.Some? ==>
                var trace := Entity(e.project, Trace, e.traceId.value, None);
                deleted == (own || e.project in projectTombstones || Deleted(History(raw, trace)))
      ensures e.kind.Trace? || e.traceId.None? ==> deleted == (own || e.project in projectTombstones)
    {
      deleted := own;
      if e.project in projectTombstones { deleted := true; }
      if !deleted && (e.kind.Observation? || e.kind.Score?) && e.traceId.Some? {
        var parent := ParseRawEventHistory(History(raw, Entity(e.project, Trace, e.traceId.value, None)), 0);
        deleted := parent.deleted;
      }
    }

    /** Store the snapshot, then publish the watermark and the seen key. */
    method MergeAndWrite(job: Job, deleted: bool, maxIngestedAt: int, published: bool, marked: bool)
      modifies this`watermark, this`seen, this`projection, this`newest
      ensures projection == old(projection)[job.entity := Snapshot(|raw|, deleted)]
      ensures newest == Longer(old(newest), job.entity, |raw|)
      ensures watermark == if config.coalesce && published then old(watermark)[KeyOf(job) := maxIngestedAt]
                else old(watermark)
      ensures seen == if config.seenCache && marked then old(seen) + {SeenOf(job)} else old(seen)
    {
      projection := projection[job.entity := Snapshot(|raw|, deleted)];
      newest := Longer(newest, job.entity, |raw|);
      if config.coalesce && published { watermark := watermark[KeyOf(job) := maxIngestedAt]; }
      if config.seenCache && marked { seen := seen + {SeenOf(job)}; }
    }
  }

  lemma SeenLeads(c: Config, s: State, w: nat, published: bool, marked: bool)
    requires At(s, w, Taken) && SkippedBySeen(c, s, s.runs[w].job)
    ensures Leads(c, s, Steps(SkippedSeen, w, published, marked), Drop(s, w))
  {
    Lead(c, s, CheckSeen(w), [], Drop(s, w));
    assert Steps(SkippedSeen, w, published, marked) == [CheckSeen(w)] + [];
  }

  lemma RedirectLeads(c: Config, s: State, w: nat, published: bool, marked: bool)
    requires At(s, w, Taken) && !SkippedBySeen(c, s, s.runs[w].job) && Redirects(c, s.runs[w])
    ensures Leads(c, s, Steps(Redirected, w, published, marked),
                  Drop(s.(queue := s.queue + multiset{Queued(s.runs[w].job, true)}), w))
  {
    var s1 := Apply(c, s, CheckSeen(w));
    assert s1.runs - {w} == s.runs - {w};
    Lead(c, s1, Redirect(w), [], Apply(c, s1, Redirect(w)));
    Lead(c, s, CheckSeen(w), [Redirect(w)] + [], Apply(c, s1, Redirect(w)));
    assert Steps(Redirected, w, published, marked) == [CheckSeen(w)] + ([Redirect(w)] + []);
  }

  lemma WatermarkLeads(c: Config, s: State, w: nat, published: bool, marked: bool)
    requires At(s, w, Taken) && !SkippedBySeen(c, s, s.runs[w].job) && !Redirects(c, s.runs[w])
    requires SkippedByWatermark(c, s, s.runs[w].job)
    ensures Leads(c, s, Steps(SkippedWatermark, w, published, marked), Drop(s, w))
  {
    var s1 := Apply(c, s, CheckSeen(w));
    assert s1.runs - {w} == s.runs - {w};
    Lead(c, s1, CheckWatermark(w), [], Drop(s, w));
    Lead(c, s, CheckSeen(w), [CheckWatermark(w)] + [], Drop(s, w));
    assert Steps(SkippedWatermark, w, published, marked) == [CheckSeen(w)] + ([CheckWatermark(w)] + []);
  }

  lemma NoEventsLeads(c: Config, s: State, w: nat, published: bool, marked: bool)
    requires At(s, w, Taken) && !SkippedBySeen(c, s, s.runs[w].job) && !Redirects(c, s.runs[w])
    requires !SkippedByWatermark(c, s, s.runs[w].job)
    requires LiveEvents(History(s.raw, s.runs[w].job.entity)) == []
    ensures Leads(c, s, Steps(NoEvents, w, published, marked), Drop(s, w))
  {
    var s1 := Apply(c, s, CheckSeen(w));
    var s2 := Apply(c, s1, CheckWatermark(w));
    assert s2.runs - {w} == s.runs - {w};
    Lead(c, s2, ReadHistory(w), [], Drop(s, w));
    Lead(c, s1, CheckWatermark(w), [ReadHistory(w)] + [], Drop(s, w));
    Lead(c, s, CheckSeen(w), [CheckWatermark(w)] + ([ReadHistory(w)] + []), Drop(s, w));
    assert Steps(NoEvents, w, published, marked) == [CheckSeen(w)] + ([CheckWatermark(w)] + ([ReadHistory(w)] + []));
  }

  /** What an undisturbed rebuild leaves behind. */
  function AfterRebuild(c: Config, s: State, w: nat, published: bool, marked: bool): State
    requires w in s.runs
  {
    var job := s.runs[w].job;
    var h := History(s.raw, job.entity);
    s.(projection := s.projection[job.entity := Snapshot(|s.raw|,
         Deleted(h) || job.entity.project in s.projectTombstones || ParentDeleted(s, job.entity))],
       newest := Longer(s.newest, job.entity, |s.raw|),
       watermark := if c.coalesce && published then s.watermark[KeyOf(job) := Parse(h, 0).maxIngestedAt]
           else s.watermark,
       seen := if c.seenCache && marked then s.seen + {SeenOf(job)} else s.seen,
       runs := s.runs - {w})
  }

  lemma ReadAndGuard(c: Config, s: State, w: nat)
    requires At(s, w, Uncovered) && LiveEvents(History(s.raw, s.runs[w].job.entity)) != []
    ensures var r := s.runs[w];
            var d := Deleted(History(s.raw, r.job.entity)) || r.job.entity.project in s.projectTombstones
                     || ParentDeleted(s, r.job.entity);
            Leads(c, s, [ReadHistory(w), GuardProject(w), GuardParent(w)],
                  Advance(s, w, Run(r.job, r.secondary, ParentChecked, |s.raw|, s.clock, d)))
  {
    var s1 := Apply(c, s, ReadHistory(w));
    var s2 := Apply(c, s1, GuardProject(w));
    var s3 := Apply(c, s2, GuardParent(w));
    assert s.raw[..|s.raw|] == s.raw;
    assert s3.runs == s.runs[w := s3.runs[w]];
    Lead(c, s2, GuardParent(w), [], s3);
    Lead(c, s1, GuardProject(w), [GuardParent(w)] + [], s3);
    Lead(c, s, ReadHistory(w), [GuardProject(w)] + ([GuardParent(w)] + []), s3);
    assert [ReadHistory(w), GuardProject(w), GuardParent(w)]
        == [ReadHistory(w)] + ([GuardProject(w)] + ([GuardParent(w)] + []));
  }

  lemma PublishAndMark(c: Config, s: State, w: nat, published: bool, marked: bool)
    requires At(s, w, Accepted) && s.runs[w].n == |s.raw|
    ensures var r := s.runs[w];
            Leads(c, s, [Publish(w, published), MarkSeen(w, marked)],
              s.(watermark := if c.coalesce && published
                              then s.watermark[KeyOf(r.job) := Parse(History(s.raw, r.job.entity), 0).maxIngestedAt]
                              else s.watermark,
                 seen := if c.seenCache && marked then s.seen + {SeenOf(r.job)} else s.seen,
                 runs := s.runs - {w}))
  {
    var s1 := Apply(c, s, Publish(w, published));
    var s2 := Apply(c, s1, MarkSeen(w, marked));
    assert s.raw[..|s.raw|] == s.raw;
    assert s2.runs == s.runs - {w};
    Lead(c, s1, MarkSeen(w, marked), [], s2);
    Lead(c, s, Publish(w, published), [MarkSeen(w, marked)] + [], s2);
    assert [Publish(w, published), MarkSeen(w, marked)] == [Publish(w, published)] + ([MarkSeen(w, marked)] + []);
  }

  lemma WriteAndMark(c: Config, s: State, w: nat, published: bool, marked: bool)
    requires At(s, w, ParentChecked) && s.runs[w].n == |s.raw|
    ensures var r := s.runs[w];
            Leads(c, s, [Write(w), Publish(w, published), MarkSeen(w, marked)],
              s.(projection := s.projection[r.job.entity := Snapshot(r.n, r.deleted)],
                 newest := Longer(s.newest, r.job.entity, r.n),
                 watermark := if c.coalesce && published
                              then s.watermark[KeyOf(r.job) := Parse(History(s.raw, r.job.entity), 0).maxIngestedAt]
                              else s.watermark,
                 seen := if c.seenCache && marked then s.seen + {SeenOf(r.job)} else s.seen,
                 runs := s.runs - {w}))
  {
    var s1 := Apply(c, s, Write(w));
    var last := [Publish(w, published), MarkSeen(w, marked)];
    PublishAndMark(c, s1, w, published, marked);
    assert s1.runs - {w} == s.runs - {w};
    Lead(c, s, Write(w), last, Exec(c, s1, last));
    assert [Write(w), Publish(w, published), MarkSeen(w, marked)] == [Write(w)] + last;
  }

  lemma UncoveredLeads(c: Config, s: State, w: nat, published: bool, marked: bool)
    requires At(s, w, Uncovered) && LiveEvents(History(s.raw, s.runs[w].job.entity)) != []
    ensures Leads(c, s, RebuildSteps(w, published, marked),
                  AfterRebuild(c, s, w, published, marked))
  {
    var read := [ReadHistory(w), GuardProject(w), GuardParent(w)];
    var write := [Write(w), Publish(w, published), MarkSeen(w, marked)];
    ReadAndGuard(c, s, w);
    var s3 := Exec(c, s, read);
    WriteAndMark(c, s3, w, published, marked);
    Concat(c, s, read, write);
    assert s3.runs - {w} == s.runs - {w};
  }

  lemma PassesChecks(c: Config, s: State, w: nat, rest: seq<Action>, t: State)
    requires At(s, w, Taken) && !SkippedBySeen(c, s, s.runs[w].job) && !Redirects(c, s.runs[w])
    requires !SkippedByWatermark(c, s, s.runs[w].job)
    requires Leads(c, Advance(s, w, s.runs[w].(phase := Uncovered)), rest, t)
    ensures Leads(c, s, [CheckSeen(w)] + ([CheckWatermark(w)] + rest), t)
  {
    var s1 := Apply(c, s, CheckSeen(w));
    assert s1.runs[w := s.runs[w].(phase := Uncovered)] == s.runs[w := s.runs[w].(phase := Uncovered)];
    Lead(c, s1, CheckWatermark(w), rest, t);
    Lead(c, s, CheckSeen(w), [CheckWatermark(w)] + rest, t);
  }

  /** The steps after the checks: read and guard, then write and mark. */
  function RebuildSteps(w: nat, published: bool, marked: bool): seq<Action> {
    [ReadHistory(w), GuardProject(w), GuardParent(w)] + [Write(w), Publish(w, published), MarkSeen(w, marked)]
  }

  lemma RebuiltSteps(w: nat, published: bool, marked: bool)
    ensures Steps(Rebuilt, w, published, marked) ==
            [CheckSeen(w)] + ([CheckWatermark(w)] + RebuildSteps(w, published, marked))
  {
  }

  lemma UncoveredRebuild(c: Config, s: State, w: nat, published: bool, marked: bool)
    requires w in s.runs && LiveEvents(History(s.raw, s.runs[w].job.entity)) != []
    ensures Leads(c, Advance(s, w, s.runs[w].(phase := Uncovered)), RebuildSteps(w, published, marked),
                  AfterRebuild(c, s, w, published, marked))
  {
    var r := s.runs[w].(phase := Uncovered);
    UncoveredLeads(c, Advance(s, w, r), w, published, marked);
  }

  lemma RebuiltLeads(c: Config, s: State, w: nat, published: bool, marked: bool)
    requires At(s, w, Taken) && !SkippedBySeen(c, s, s.runs[w].job) && !Redirects(c, s.runs[w])
    requires !SkippedByWatermark(c, s, s.runs[w].job)
    requires LiveEvents(History(s.raw, s.runs[w].job.entity)) != []
    ensures Leads(c, s, Steps(Rebuilt, w, published, marked), AfterRebuild(c, s, w, published, marked))
  {
    var t := AfterRebuild(c, s, w, published, marked);
    UncoveredRebuild(c, s, w, published, marked);
    PassesChecks(c, s, w, RebuildSteps(w, published, marked), t);
    RebuiltSteps(w, published, marked);
  }

  lemma ChecksPassedLeads(c: Config, s: State, w: nat, o: Outcome, published: bool, marked: bool)
    requires At(s, w, Taken) && !SkippedBySeen(c, s, s.runs[w].job) && !Redirects(c, s.runs[w])
    requires !SkippedByWatermark(c, s, s.runs[w].job)
    requires o == if LiveEvents(History(s.raw, s.runs[w].job.entity)) == [] then NoEvents else Rebuilt
    ensures Leads(c, s, Steps(o, w, published, marked),
                  if o == NoEvents then Drop(s, w) else AfterRebuild(c, s, w, published, marked))
  {
    if o == NoEvents { NoEventsLeads(c, s, w, published, marked); }
    else { RebuiltLeads(c, s, w, published, marked); }
  }
}
