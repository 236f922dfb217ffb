/** Raw event history of one entity (packages/shared/src/server/greptime).

    `raw_events` is append-only. A projection is rebuilt from the whole history of an entity, read
    back in (ingested_at, event_id) order, with re-delivered copies dropped and tombstones collapsed
    into one flag. */
module RawEvents {
  import opened Arithmetic
  import opened Wrappers

  /** One row. `body` stands for the verbatim event JSON; a tombstone carries no event. */
  datatype RawEvent = RawEvent(ingestedAt: int, eventId: nat, tombstone: bool, body: nat)

  datatype ParsedHistory = ParsedHistory(
    events: seq<RawEvent>, minIngestedAt: int, maxIngestedAt: int, generation: int, deleted: bool)

  /* ---------- what a parsed history means ---------- */

  predicate HasId(events: seq<RawEvent>, id: nat) {
    exists k :: 0 <= k < |events| && events[k].eventId == id
  }

  /** The first copy of every live event, in read order. */
  function LiveEvents(rows: seq<RawEvent>): seq<RawEvent> {
    if rows == [] then []
    else
      var front, r := LiveEvents(rows[..|rows| - 1]), rows[|rows| - 1];
      if r.tombstone || HasId(front, r.eventId) then front else front + [r]
  }

  function Tombstones(rows: seq<RawEvent>): seq<RawEvent> {
    if rows == [] then []
    else
      var front, r := Tombstones(rows[..|rows| - 1]), rows[|rows| - 1];
      if r.tombstone then front + [r] else front
  }

  /** Latest stamp, None for the source's -Infinity. */
  function Latest(rows: seq<RawEvent>): Option<int> {
    if rows == [] then None
    else
      var front, t := Latest(rows[..|rows| - 1]), rows[|rows| - 1].ingestedAt;
      if front.None? then Some(t) else Some(Max(front.value, t))
  }

  function Earliest(rows: seq<RawEvent>): Option<int> {
    if rows == [] then None
    else
      var front, t := Earliest(rows[..|rows| - 1]), rows[|rows| - 1].ingestedAt;
      if front.None? then Some(t) else Some(Min(front.value, t))
  }

  function CountAt(rows: seq<RawEvent>, t: int): nat {
    if rows == [] then 0
    else CountAt(rows[..|rows| - 1], t) + if rows[|rows| - 1].ingestedAt == t then 1 else 0
  }

  const GENERATIONS_PER_MS := 4096
  const MAX_SAME_MS := 4095

  function Generation(rows: seq<RawEvent>, fallback: int): int {
    var live := LiveEvents(rows);
    match Latest(live)
    case None => fallback * GENERATIONS_PER_MS
    case Some(t) => t * GENERATIONS_PER_MS + Min(CountAt(live, t), MAX_SAME_MS)
  }

  predicate Deleted(rows: seq<RawEvent>) {
    var tomb, live := Latest(Tombstones(rows)), Latest(LiveEvents(rows));
    tomb.Some? && (live.None? || tomb.value >= live.value)
  }

  function Parse(rows: seq<RawEvent>, now: int): ParsedHistory {
    var live, earliest := LiveEvents(rows), Earliest(rows);
    var minAt := if earliest.None? then now else earliest.value;
    var maxAt := if Latest(live).None? then minAt else Latest(live).value;
    ParsedHistory(live, minAt, maxAt, Generation(rows, minAt), Deleted(rows))
  }

  /** The one pass of the source, with its running minimum, maxima and same-millisecond count. */
  method ParseRawEventHistory(rows: seq<RawEvent>, now: int) returns (p: ParsedHistory)
    ensures p == Parse(rows, now)
  {
    var seen: set<nat> := {};
    var events: seq<RawEvent> := [];
    var minAt: Option<int>, maxTombstoneAt: Option<int>, maxLiveAt: Option<int> := None, None, None;
    var liveEventsAtMax := 0;
    for i := 0 to |rows|
      invariant events == LiveEvents(rows[..i])
      invariant forall id: nat :: id in seen <==> HasId(events, id)
      invariant minAt == Earliest(rows[..i])
      invariant maxTombstoneAt == Latest(Tombstones(rows[..i]))
      invariant maxLiveAt == Latest(events)
      invariant maxLiveAt.Some? ==> liveEventsAtMax == CountAt(events, maxLiveAt.value)
    {
      var row := rows[i];
      assert rows[..i + 1][..i] == rows[..i];
      minAt := Some(if minAt.None? then row.ingestedAt else Min(minAt.value, row.ingestedAt));
      if row.tombstone {
        var before := Tombstones(rows[..i]);
        assert (before + [row])[..|before|] == before;
        maxTombstoneAt := Some(if maxTombstoneAt.None? then row.ingestedAt
                               else Max(maxTombstoneAt.value, row.ingestedAt));
        continue;
      }
      if row.eventId in seen { continue; }
      OneMoreLive(events, row);
      seen := seen + {row.eventId};
      events := events + [row];
      if maxLiveAt.None? || row.ingestedAt > maxLiveAt.value {
        maxLiveAt, liveEventsAtMax := Some(row.ingestedAt), 1;
      } else if row.ingestedAt == maxLiveAt.value {
        liveEventsAtMax := liveEventsAtMax + 1;
      }
    }
    assert rows[..|rows|] == rows;
    var resolvedMin := if minAt.None? then now else minAt.value;
    p := ParsedHistory(
      events, resolvedMin,
      if maxLiveAt.Some? then maxLiveAt.value else resolvedMin,
      if maxLiveAt.Some?
      then maxLiveAt.value * GENERATIONS_PER_MS + Min(liveEventsAtMax, MAX_SAME_MS)
      else resolvedMin * GENERATIONS_PER_MS,
      maxTombstoneAt.Some? && (maxLiveAt.None? || maxTombstoneAt.value >= maxLiveAt.value));
  }

  /* ---------- maxima and counts ---------- */

  lemma OneMoreLive(before: seq<RawEvent>, row: RawEvent)
    ensures var t := row.ingestedAt;
            && Latest(before + [row]) == Some(if Latest(before).None? then t else Max(Latest(before).value, t))
            && (Latest(before).None? || t > Latest(before).value ==> CountAt(before + [row], t) == 1)
            && (Latest(before) == Some(t) ==> CountAt(before + [row], t) == CountAt(before, t) + 1)
            && (Latest(before).Some? && t < Latest(before).value ==>
                  CountAt(before + [row], Latest(before).value) == CountAt(before, Latest(before).value))
    ensures forall id: nat :: HasId(before + [row], id) <==> HasId(before, id) || id == row.eventId
  {
    var events := before + [row];
    assert events[..|before|] == before && events[|before|] == row;
    AfterLatestNone(before, row.ingestedAt);
    forall id: nat ensures HasId(events, id) <==> HasId(before, id) || id == row.eventId {
      if HasId(before, id) {
        var k :| 0 <= k < |before| && before[k].eventId == id;
        assert events[k].eventId == id;
      }
    }
  }

  lemma LatestBounds(rows: seq<RawEvent>)
    ensures Latest(rows).None? <==> rows == []
    ensures Latest(rows).Some? ==>
              && (forall k :: 0 <= k < |rows| ==> rows[k].ingestedAt <= Latest(rows).value)
              && (exists k :: 0 <= k < |rows| && rows[k].ingestedAt == Latest(rows).value)
  {
    if rows != [] {
      var front := rows[..|rows| - 1];
      LatestBounds(front);
      if Latest(front).Some? && Latest(rows) == Latest(front) {
        var k :| 0 <= k < |front| && front[k].ingestedAt == Latest(front).value;
        assert rows[k].ingestedAt == Latest(rows).value;
      }
    }
  }

  /** Nothing is stamped after the latest stamp. */
  lemma {:induction false} AfterLatestNone(rows: seq<RawEvent>, t: int)
    ensures Latest(rows).None? || t > Latest(rows).value ==> CountAt(rows, t) == 0
  {
    if rows != [] {
      AfterLatestNone(rows[..|rows| - 1], t);
      LatestBounds(rows);
      LatestBounds(rows[..|rows| - 1]);
    }
  }

  lemma {:induction false} LatestConcat(a: seq<RawEvent>, b: seq<RawEvent>)
    ensures Latest(a + b) == if Latest(a).None? then Latest(b)
                             else if Latest(b).None? then Latest(a)
                             else Some(Max(Latest(a).value, Latest(b).value))
    ensures forall t :: CountAt(a + b, t) == CountAt(a, t) + CountAt(b, t)
  {
    if b == [] {
      assert a + b == a;
    } else {
      assert (a + b)[..|a + b| - 1] == a + b[..|b| - 1];
      LatestConcat(a, b[..|b| - 1]);
    }
  }

  /** The creation time is the earliest stamp of all rows, tombstones and copies included. */
  lemma {:induction false} EarliestMeaning(rows: seq<RawEvent>)
    ensures Earliest(rows).None? <==> rows == []
    ensures Earliest(rows).Some? ==>
              && (forall r :: r in rows ==> Earliest(rows).value <= r.ingestedAt)
              && (exists r :: r in rows && r.ingestedAt == Earliest(rows).value)
  {
    if rows != [] {
      var front, last := rows[..|rows| - 1], rows[|rows| - 1];
      EarliestMeaning(front);
      assert rows == front + [last];
      if Earliest(rows) == Earliest(front) {
        var r :| r in front && r.ingestedAt == Earliest(front).value;
        assert r in rows;
      } else {
        assert last in rows;
      }
    }
  }

  /* ---------- the deletion flag ---------- */

  lemma {:induction false} TombstoneRows(rows: seq<RawEvent>)
    ensures forall r :: r in Tombstones(rows) <==> r in rows && r.tombstone
  {
    if rows != [] {
      TombstoneRows(rows[..|rows| - 1]);
      assert rows == rows[..|rows| - 1] + [rows[|rows| - 1]];
    }
  }

  lemma {:induction false} LiveRows(rows: seq<RawEvent>)
    ensures forall r :: r in LiveEvents(rows) ==> r in rows && !r.tombstone
    ensures forall r :: r in rows && !r.tombstone ==> HasId(LiveEvents(rows), r.eventId)
  {
    if rows != [] {
      var front, r := rows[..|rows| - 1], rows[|rows| - 1];
      LiveRows(front);
      assert rows == front + [r];
      forall q | q in rows && !q.tombstone ensures HasId(LiveEvents(rows), q.eventId) {
        if q in front {
          var k :| 0 <= k < |LiveEvents(front)| && LiveEvents(front)[k].eventId == q.eventId;
          assert LiveEvents(rows)[k].eventId == q.eventId;
        } else if !HasId(LiveEvents(front), r.eventId) {
          assert LiveEvents(rows)[|LiveEvents(front)|] == r;
        }
      }
    }
  }

  /** No live row of the same event is read before row `i`. */
  predicate IsFirstCopy(rows: seq<RawEvent>, i: nat)
    requires i < |rows|
  {
    !rows[i].tombstone && forall j :: 0 <= j < i ==> rows[j].tombstone || rows[j].eventId != rows[i].eventId
  }

  /** Reading row by row, exactly the first copies of live events are kept, in read order. */
  lemma KeepsFirstCopies(rows: seq<RawEvent>, i: nat)
    requires i < |rows|
    ensures LiveEvents(rows[..i + 1]) == LiveEvents(rows[..i]) + if IsFirstCopy(rows, i) then [rows[i]] else []
  {
    var front := rows[..i];
    assert rows[..i + 1][..i] == front;
    LiveRows(front);
    if HasId(LiveEvents(front), rows[i].eventId) {
      var k :| 0 <= k < |LiveEvents(front)| && LiveEvents(front)[k].eventId == rows[i].eventId;
      var r := LiveEvents(front)[k];
      assert r in front;
      var j :| 0 <= j < i && rows[j] == r;
    } else {
      forall j | 0 <= j < i ensures rows[j].tombstone || rows[j].eventId != rows[i].eventId { assert rows[j] in front; }
    }
  }

  /** Deleted exactly when some tombstone is no older than the first copy of every live event. */
  lemma DeletedMeaning(rows: seq<RawEvent>)
    ensures Deleted(rows) <==>
            exists t :: t in rows && t.tombstone
                        && forall e :: e in LiveEvents(rows) ==> e.ingestedAt <= t.ingestedAt
  {
    var tombs, live := Tombstones(rows), LiveEvents(rows);
    TombstoneRows(rows);
    LatestBounds(tombs);
    LatestBounds(live);
    if Deleted(rows) {
      var k :| 0 <= k < |tombs| && tombs[k].ingestedAt == Latest(tombs).value;
      assert tombs[k] in rows && tombs[k].tombstone;
    }
    if t :| t in rows && t.tombstone && forall e :: e in live ==> e.ingestedAt <= t.ingestedAt {
      assert t in tombs;
    }
  }

  /* ---------- what the parsed fields say about the rows ---------- */

  lemma {:induction false} FirstCopiesUpTo(rows: seq<RawEvent>, n: nat) returns (at: seq<nat>)
    requires n <= |rows|
    ensures var events := LiveEvents(rows[..n]);
            && |at| == |events|
            && (forall k, l :: 0 <= k < l < |at| ==> at[k] < at[l])
            && (forall k :: 0 <= k < |at| ==> at[k] < n && IsFirstCopy(rows, at[k]) && events[k] == rows[at[k]])
            && (forall i: nat :: i < n && IsFirstCopy(rows, i) ==> i in at)
    decreases n
  {
    if n == 0 {
      at := [];
    } else {
      at := FirstCopiesUpTo(rows, n - 1);
      KeepsFirstCopies(rows, n - 1);
      if IsFirstCopy(rows, n - 1) { at := at + [n - 1]; }
    }
  }

  /** The events are the first copies of live rows, all of them, in the order in which they were read. */
  lemma EventsAreFirstCopies(rows: seq<RawEvent>, now: int) returns (at: seq<nat>)
    ensures var events := Parse(rows, now).events;
            && |at| == |events|
            && (forall k, l :: 0 <= k < l < |at| ==> at[k] < at[l])
            && (forall k :: 0 <= k < |at| ==> at[k] < |rows| && IsFirstCopy(rows, at[k]) && events[k] == rows[at[k]])
            && (forall i: nat :: i < |rows| && IsFirstCopy(rows, i) ==> i in at)
  {
    at := FirstCopiesUpTo(rows, |rows|);
    assert rows[..|rows|] == rows;
  }

  function StampedAt(rows: seq<RawEvent>, t: int): set<nat> { set k: nat | k < |rows| && rows[k].ingestedAt == t }

  lemma StampedOneMore(rows: seq<RawEvent>, t: int)
    requires rows != []
    ensures var n := |rows| - 1;
            StampedAt(rows, t) == StampedAt(rows[..n], t) + if rows[n].ingestedAt == t then {n} else {}
  {
  }

  lemma {:induction false} CountAtIsSize(rows: seq<RawEvent>, t: int)
    ensures CountAt(rows, t) == |StampedAt(rows, t)|
  {
    if rows != [] {
      CountAtIsSize(rows[..|rows| - 1], t);
      StampedOneMore(rows, t);
    }
  }

  /** Creation time: the earliest stamp of all rows, or the present without any. Watermark: the latest stamp of the
      events, or the creation time without any. */
  lemma ParsedStamps(rows: seq<RawEvent>, now: int)
    ensures var p := Parse(rows, now);
            && (rows == [] ==> p.minIngestedAt == now)
            && (rows != [] ==>
                  && (forall r :: r in rows ==> p.minIngestedAt <= r.ingestedAt)
                  && exists r :: r in rows && r.ingestedAt == p.minIngestedAt)
            && (p.events == [] ==> p.maxIngestedAt == p.minIngestedAt)
            && (p.events != [] ==>
                  && (forall e :: e in p.events ==> e.ingestedAt <= p.maxIngestedAt)
                  && exists e :: e in p.events && e.ingestedAt == p.maxIngestedAt)
  {
    EarliestMeaning(rows);
    LatestBounds(LiveEvents(rows));
  }

  /** Generation: 4096 per millisecond of the watermark, plus the events of that very millisecond up to 4095; without
      events it is that of the creation time. Deleted: some tombstone is no older than every event. */
  lemma ParsedVerdict(rows: seq<RawEvent>, now: int)
    ensures var p := Parse(rows, now);
            && (p.events == [] ==> p.generation == p.minIngestedAt * 4096)
            && (p.events != [] ==>
                  var newest := |StampedAt(p.events, p.maxIngestedAt)|;
                  p.generation == p.maxIngestedAt * 4096 + if newest <= 4095 then newest else 4095)
            && (p.deleted <==>
                  exists t :: t in rows && t.tombstone && forall e :: e in p.events ==> e.ingestedAt <= t.ingestedAt)
  {
    var live := LiveEvents(rows);
    LatestBounds(live);
    DeletedMeaning(rows);
    if live != [] { CountAtIsSize(live, Latest(live).value); }
  }

  /* ---------- re-delivery, late arrival and re-creation ---------- */

  /** A row read after `a` either leaves the live events alone or is inserted right after those of `a`. */
  lemma {:induction false} LiveSplit(a: seq<RawEvent>, r: RawEvent, b: seq<RawEvent>)
    requires !r.tombstone
    ensures HasId(LiveEvents(a), r.eventId) ==> LiveEvents(a + [r] + b) == LiveEvents(a + b)
    ensures (forall q :: q in a + b ==> q.tombstone || q.eventId != r.eventId) ==>
              && LiveEvents(a) <= LiveEvents(a + b)
              && LiveEvents(a + [r] + b) == LiveEvents(a) + [r] + LiveEvents(a + b)[|LiveEvents(a)|..]
  {
    if b == [] {
      assert a + [r] + b == a + [r];
      assert a + b == a;
      assert (a + [r])[..|a|] == a;
      LiveRows(a);
    } else {
      var last, b' := b[|b| - 1], b[..|b| - 1];
      LiveSplit(a, r, b');
      assert (a + [r] + b)[..|a + [r] + b| - 1] == a + [r] + b';
      assert (a + b)[..|a + b| - 1] == a + b';
      assert (a + [r] + b)[|a + [r] + b| - 1] == last == (a + b)[|a + b| - 1];
      if forall q :: q in a + b ==> q.tombstone || q.eventId != r.eventId {
        assert forall q :: q in a + b' ==> q in a + b;
        var la, lab, l := LiveEvents(a), LiveEvents(a + b'), LiveEvents(a + [r] + b');
        assert lab == la + lab[|la|..];
        assert last in a + b;
        if !last.tombstone { SameIds(la, r, lab[|la|..], last.eventId); }
      }
    }
  }

  lemma SameIds(x: seq<RawEvent>, r: RawEvent, y: seq<RawEvent>, id: nat)
    requires id != r.eventId
    ensures HasId(x + [r] + y, id) <==> HasId(x + y, id)
  {
    if k :| 0 <= k < |x + y| && (x + y)[k].eventId == id {
      var j := if k < |x| then k else k + 1;
      assert (x + [r] + y)[j] == (x + y)[k];
    }
    if k :| 0 <= k < |x + [r] + y| && (x + [r] + y)[k].eventId == id {
      var j := if k < |x| then k else k - 1;
      assert (x + y)[j] == (x + [r] + y)[k];
    }
  }

  lemma {:induction false} TombstonesSkipLive(a: seq<RawEvent>, r: RawEvent, b: seq<RawEvent>)
    requires !r.tombstone
    ensures Tombstones(a + [r] + b) == Tombstones(a + b)
  {
    if b == [] {
      assert a + [r] + b == a + [r];
      assert (a + [r])[..|a|] == a;
      assert a + b == a;
    } else {
      var b' := b[..|b| - 1];
      TombstonesSkipLive(a, r, b');
      assert (a + [r] + b)[..|a + [r] + b| - 1] == a + [r] + b';
      assert (a + b)[..|a + b| - 1] == a + b';
    }
  }

  /** Reading a re-delivered copy again changes neither the events, nor the watermark, the generation
      or the deletion flag: a retried append cannot double-write and cannot resurrect. */
  lemma RedeliveryIsIdempotent(a: seq<RawEvent>, r: RawEvent, b: seq<RawEvent>, fallback: int)
    requires !r.tombstone && HasId(LiveEvents(a), r.eventId)
    ensures LiveEvents(a + [r] + b) == LiveEvents(a + b)
    ensures Generation(a + [r] + b, fallback) == Generation(a + b, fallback)
    ensures Deleted(a + [r] + b) == Deleted(a + b)
  {
    LiveSplit(a, r, b);
    TombstonesSkipLive(a, r, b);
  }

  /** A new live event raises the generation exactly when it is stamped after every other event, or
      shares the latest millisecond with fewer than 4095 of them; otherwise the generation does not
      move although the history did. */
  lemma GenerationRisesIff(a: seq<RawEvent>, r: RawEvent, b: seq<RawEvent>, fallback: int)
    requires !r.tombstone
    requires forall q :: q in a + b ==> q.tombstone || q.eventId != r.eventId
    requires LiveEvents(a + b) != []
    ensures var live := LiveEvents(a + b);
            var rises := r.ingestedAt > Latest(live).value
                         || (r.ingestedAt == Latest(live).value
                             && CountAt(live, r.ingestedAt) < MAX_SAME_MS);
            && (rises ==> Generation(a + [r] + b, fallback) > Generation(a + b, fallback))
            && (!rises ==> Generation(a + [r] + b, fallback) == Generation(a + b, fallback))
            && LiveEvents(a + [r] + b) != live
  {
    LiveSplit(a, r, b);
    var la, live := LiveEvents(a), LiveEvents(a + b);
    assert live == la + live[|la|..];
    InsertOne(la, r, live[|la|..]);
    LatestBounds(live);
    AfterLatestNone(live, r.ingestedAt);
    CountBound(live, Latest(live).value);
    assert |LiveEvents(a + [r] + b)| == |live| + 1;
  }

  /** Inserting one row moves the latest stamp and the counts as if it had been appended. */
  lemma InsertOne(x: seq<RawEvent>, r: RawEvent, y: seq<RawEvent>)
    ensures Latest(x + [r] + y) == if Latest(x + y).None? then Some(r.ingestedAt)
                                   else Some(Max(Latest(x + y).value, r.ingestedAt))
    ensures forall t :: CountAt(x + [r] + y, t) == CountAt(x + y, t) + if t == r.ingestedAt then 1 else 0
  {
    LatestConcat(x, y);
    LatestConcat(x + [r], y);
    LatestConcat(x, [r]);
    SingleEvent(r);
  }

  lemma SingleEvent(r: RawEvent)
    ensures Latest([r]) == Some(r.ingestedAt)
    ensures forall t :: CountAt([r], t) == if t == r.ingestedAt then 1 else 0
  {
    assert [r][..0] == [];
    assert Latest([r][..0]) == None;
    assert forall t :: CountAt([r][..0], t) == 0;
  }

  /** The latest stamp is counted at least once. */
  lemma {:induction false} CountBound(rows: seq<RawEvent>, t: int)
    ensures (exists k :: 0 <= k < |rows| && rows[k].ingestedAt == t) ==> CountAt(rows, t) >= 1
  {
    if rows != [] {
      CountBound(rows[..|rows| - 1], t);
      if k :| 0 <= k < |rows| && rows[k].ingestedAt == t {
        if k < |rows| - 1 { assert rows[..|rows| - 1][k].ingestedAt == t; }
      }
    }
  }

  /** Appending a live event un-deletes an entity exactly when it is a new event stamped after every
      tombstone (re-creation); a copy of an old event never does. */
  lemma RecreatedIff(rows: seq<RawEvent>, r: RawEvent)
    requires !r.tombstone && Deleted(rows)
    ensures !Deleted(rows + [r]) <==>
            !HasId(LiveEvents(rows), r.eventId)
            && forall t :: t in rows && t.tombstone ==> t.ingestedAt < r.ingestedAt
  {
    TombstonesSkipLive(rows, r, []);
    assert rows + [r] + [] == rows + [r];
    assert rows + [] == rows;
    assert (rows + [r])[..|rows|] == rows;
    TombstoneRows(rows);
    var tombs, live := Tombstones(rows), LiveEvents(rows);
    LatestBounds(tombs);
    LatestConcat(live, [r]);
    SingleEvent(r);
    if forall t :: t in rows && t.tombstone ==> t.ingestedAt < r.ingestedAt {
      var k :| 0 <= k < |tombs| && tombs[k].ingestedAt == Latest(tombs).value;
      assert tombs[k] in rows;
    } else {
      var t :| t in rows && t.tombstone && t.ingestedAt >= r.ingestedAt;
      assert t in tombs;
    }
  }

  /* ---------- read order ---------- */

  /** ORDER BY ingested_at ASC, event_id ASC. */
  predicate ReadsBefore(r: RawEvent, s: RawEvent) {
    r.ingestedAt < s.ingestedAt || (r.ingestedAt == s.ingestedAt && r.eventId <= s.eventId)
  }

  predicate InReadOrder(rows: seq<RawEvent>) {
    forall i, j :: 0 <= i < j < |rows| ==> ReadsBefore(rows[i], rows[j])
  }

  function Insert(r: RawEvent, rows: seq<RawEvent>): seq<RawEvent> {
    if rows == [] || ReadsBefore(r, rows[0]) then [r] + rows
    else [rows[0]] + Insert(r, rows[1..])
  }

  /** The rows of one entity as the history query returns them, whatever order they arrived in. */
  function ReadOrder(rows: seq<RawEvent>): seq<RawEvent> {
    if rows == [] then [] else Insert(rows[0], ReadOrder(rows[1..]))
  }

  lemma {:induction false} InsertKeepsRows(r: RawEvent, rows: seq<RawEvent>)
    ensures multiset(Insert(r, rows)) == multiset{r} + multiset(rows)
  {
    if rows != [] && !ReadsBefore(r, rows[0]) {
      InsertKeepsRows(r, rows[1..]);
      assert rows == [rows[0]] + rows[1..];
    }
  }

  lemma {:induction false} InsertSorts(r: RawEvent, rows: seq<RawEvent>)
    requires InReadOrder(rows)
    ensures InReadOrder(Insert(r, rows))
  {
    if rows != [] && !ReadsBefore(r, rows[0]) {
      InsertSorts(r, rows[1..]);
      InsertKeepsRows(r, rows[1..]);
      var rest := Insert(r, rows[1..]);
      forall k | 0 <= k < |rest| ensures ReadsBefore(rows[0], rest[k]) {
        assert rest[k] in multiset(rest);
      }
    }
  }

  lemma {:induction false} ReadOrderSorts(rows: seq<RawEvent>)
    ensures InReadOrder(ReadOrder(rows))
    ensures multiset(ReadOrder(rows)) == multiset(rows)
  {
    if rows != [] {
      ReadOrderSorts(rows[1..]);
      InsertSorts(rows[0], ReadOrder(rows[1..]));
      InsertKeepsRows(rows[0], ReadOrder(rows[1..]));
      assert rows == [rows[0]] + rows[1..];
    }
  }

  /** A history is read by stamp, then by event id, and holds exactly the given rows. */
  lemma ReadOrderMeaning(rows: seq<RawEvent>)
    ensures var read := ReadOrder(rows);
            && multiset(read) == multiset(rows)
            && forall i, j :: 0 <= i < j < |read| ==>
                 read[i].ingestedAt < read[j].ingestedAt
                 || (read[i].ingestedAt == read[j].ingestedAt && read[i].eventId <= read[j].eventId)
  {
    ReadOrderSorts(rows);
  }

  lemma HeadAndTail(rows: seq<RawEvent>)
    requires rows != []
    ensures multiset(rows[1..]) == multiset(rows) - multiset{rows[0]}
  {
    assert rows == [rows[0]] + rows[1..];
  }

  predicate Antisymmetric(rows: seq<RawEvent>) {
    forall r, s :: r in rows && s in rows && ReadsBefore(r, s) && ReadsBefore(s, r) ==> r == s
  }

  lemma SameHead(a: seq<RawEvent>, b: seq<RawEvent>)
    requires a != [] && b != [] && InReadOrder(a) && InReadOrder(b) && multiset(a) == multiset(b) && Antisymmetric(a)
    ensures a[0] == b[0]
  {
    assert a[0] in multiset(b) && b[0] in multiset(a);
    var i :| 0 <= i < |a| && a[i] == b[0];
    var j :| 0 <= j < |b| && b[j] == a[0];
    assert ReadsBefore(a[0], a[0]) || i > 0;
  }

  lemma {:induction false} SortedIsUnique(a: seq<RawEvent>, b: seq<RawEvent>)
    requires InReadOrder(a) && InReadOrder(b) && multiset(a) == multiset(b) && Antisymmetric(a)
    ensures a == b
  {
    assert |a| == |multiset(a)| == |multiset(b)| == |b|;
    if a != [] {
      SameHead(a, b);
      HeadAndTail(a);
      HeadAndTail(b);
      SortedTail(a);
      SortedTail(b);
      SortedIsUnique(a[1..], b[1..]);
      assert a == [a[0]] + a[1..] && b == [b[0]] + b[1..];
    }
  }

  lemma SortedTail(rows: seq<RawEvent>)
    requires rows != [] && InReadOrder(rows)
    ensures InReadOrder(rows[1..]) && (Antisymmetric(rows) ==> Antisymmetric(rows[1..]))
  {
  }

  /** Out-of-order delivery disappears: two arrival orders of the same rows parse to the same history,
      as long as rows that share stamp and event id are copies of one another. */
  lemma ArrivalOrderIrrelevant(a: seq<RawEvent>, b: seq<RawEvent>, now: int)
    requires multiset(a) == multiset(b)
    requires forall r, s :: r in a && s in a && r.ingestedAt == s.ingestedAt && r.eventId == s.eventId ==> r == s
    ensures Parse(ReadOrder(a), now) == Parse(ReadOrder(b), now)
  {
    ReadOrderSorts(a);
    ReadOrderSorts(b);
    forall r | r in ReadOrder(a) ensures r in a { assert r in multiset(a); }
    SortedIsUnique(ReadOrder(a), ReadOrder(b));
  }
}
