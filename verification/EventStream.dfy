/** The incremental event-stream parser and reader loop of the dashboard query hook
    (web/src/hooks/useSSEDashboardQuery.ts). */
module EventStream {
  import opened Collections
  import opened TextSplit
  import opened Wrappers

  /* ---------- parsing ---------- */

  datatype Event = Event(kind: string, data: string)
  datatype Parsed = Parsed(events: seq<Event>, remaining: string)

  const BLANK_LINE := "\n\n"

  predicate Blank(s: string) { forall k :: 0 <= k < |s| ==> IsSpace(s[k]) }

  predicate StartsWith(s: string, prefix: string) { prefix <= s }

  function ReadLine(e: Event, line: string): Event {
    if StartsWith(line, "event: ") then e.(kind := line[7..])
    else if StartsWith(line, "data: ") then e.(data := line[6..])
    else e
  }

  function ReadLines(lines: seq<string>): Event {
    if lines == [] then Event("message", "") else ReadLine(ReadLines(Init(lines)), Last(lines))
  }

  function EventsOf(block: string): seq<Event> {
    var e := ReadLines(Split(block, "\n"));
    if Blank(block) || e.data == "" then [] else [e]
  }

  function FlatMap<T>(f: string -> seq<T>, blocks: seq<string>): seq<T> {
    if blocks == [] then [] else FlatMap(f, Init(blocks)) + f(Last(blocks))
  }

  function EventsFrom(blocks: seq<string>): seq<Event> { FlatMap(EventsOf, blocks) }

  function Parse(buffer: string): Parsed {
    var blocks := Split(buffer, BLANK_LINE);
    Parsed(EventsFrom(Init(blocks)), Last(blocks))
  }

  method ParseSSEBuffer(buffer: string) returns (p: Parsed)
    ensures p == Parse(buffer)
  {
    var blocks := Split(buffer, BLANK_LINE);
    var remaining := Last(blocks);
    blocks := Init(blocks);
    var events := [];
    for i := 0 to |blocks|
      invariant events == EventsFrom(blocks[..i])
    {
      assert Init(blocks[..i + 1]) == blocks[..i];
      if Blank(blocks[i]) { continue; }
      var lines := Split(blocks[i], "\n");
      var kind, data := "message", "";
      for k := 0 to |lines|
        invariant Event(kind, data) == ReadLines(lines[..k])
      {
        assert Init(lines[..k + 1]) == lines[..k];
        if StartsWith(lines[k], "event: ") {
          kind := lines[k][7..];
        } else if StartsWith(lines[k], "data: ") {
          data := lines[k][6..];
        }
      }
      assert lines[..|lines|] == lines;
      if data != "" { events := events + [Event(kind, data)]; }
    }
    assert blocks[..|blocks|] == blocks;
    return Parsed(events, remaining);
  }

  /** Line `k` is the last one with the prefix. */
  predicate LastWith(lines: seq<string>, prefix: string, k: nat) {
    k < |lines| && prefix <= lines[k] && forall j :: k < j < |lines| ==> !(prefix <= lines[j])
  }

  predicate NoneWith(lines: seq<string>, prefix: string) { forall k :: 0 <= k < |lines| ==> !(prefix <= lines[k]) }

  lemma {:induction false} NoLine(lines: seq<string>)
    ensures NoneWith(lines, "event: ") ==> ReadLines(lines).kind == "message"
    ensures NoneWith(lines, "data: ") ==> ReadLines(lines).data == ""
    decreases |lines|
  {
    if lines != [] { NoLine(Init(lines)); }
  }

  lemma {:induction false} KindLine(lines: seq<string>, k: nat)
    requires LastWith(lines, "event: ", k)
    ensures ReadLines(lines).kind == lines[k][7..]
    decreases |lines|
  {
    if k < |lines| - 1 { KindLine(Init(lines), k); }
  }

  lemma {:induction false} DataLineIs(lines: seq<string>, k: nat)
    requires LastWith(lines, "data: ", k)
    ensures ReadLines(lines).data == lines[k][6..]
    decreases |lines|
  {
    if k < |lines| - 1 { DataLineIs(Init(lines), k); } else { assert lines[k][0] == "data: "[0]; }
  }

  /** The last event line names the kind, which is `message` without one, and the last data line holds the data. */
  lemma LinesMeaning(lines: seq<string>)
    ensures var e := ReadLines(lines);
            && (NoneWith(lines, "event: ") ==> e.kind == "message")
            && (NoneWith(lines, "data: ") ==> e.data == "")
            && (forall k: nat :: LastWith(lines, "event: ", k) ==> e.kind == lines[k][7..])
            && (forall k: nat :: LastWith(lines, "data: ", k) ==> e.data == lines[k][6..])
  {
    NoLine(lines);
    forall k: nat | LastWith(lines, "event: ", k) ensures ReadLines(lines).kind == lines[k][7..] { KindLine(lines, k); }
    forall k: nat | LastWith(lines, "data: ", k) ensures ReadLines(lines).data == lines[k][6..] {
      DataLineIs(lines, k);
    }
  }

  /** A block gives one event, unless it is white space or its last data line is empty or missing. */
  lemma BlockMeaning(block: string)
    ensures var lines := Split(block, "\n");
            && |EventsOf(block)| <= 1
            && (forall e :: e in EventsOf(block) ==> e == ReadLines(lines) && e.data != "")
            && (EventsOf(block) != [] <==>
                  && (exists c :: c in block && !IsSpace(c))
                  && exists k: nat :: LastWith(lines, "data: ", k) && |lines[k]| > 6)
  {
    var lines := Split(block, "\n");
    LinesMeaning(lines);
    LastExists(lines, "data: ");
    if !Blank(block) { var k :| 0 <= k < |block| && !IsSpace(block[k]); assert block[k] in block; }
  }

  lemma {:induction false} LastExists(lines: seq<string>, prefix: string)
    ensures NoneWith(lines, prefix) || exists k: nat :: LastWith(lines, prefix, k)
    decreases |lines|
  {
    if lines != [] {
      var front, n := Init(lines), |lines| - 1;
      LastExists(front, prefix);
      if prefix <= lines[n] {
        assert LastWith(lines, prefix, n);
      } else if k: nat :| LastWith(front, prefix, k) {
        assert LastWith(lines, prefix, k);
      } else {
        assert forall k :: 0 <= k < n ==> lines[k] == front[k];
      }
    }
  }

  lemma FlatMapSnoc<T>(f: string -> seq<T>, blocks: seq<string>, last: string)
    ensures FlatMap(f, blocks + [last]) == FlatMap(f, blocks) + f(last)
  {
    assert Init(blocks + [last]) == blocks;
  }

  lemma Associative<T>(x: seq<T>, y: seq<T>, z: seq<T>)
    ensures x + y + z == x + (y + z)
  {
  }

  lemma {:induction false} FlatMapConcat<T>(f: string -> seq<T>, a: seq<string>, b: seq<string>)
    ensures FlatMap(f, a + b) == FlatMap(f, a) + FlatMap(f, b)
  {
    if b == [] {
      assert a + b == a;
    } else {
      var front, last := Init(b), Last(b);
      FlatMapConcat(f, a, front);
      FlatMapSnoc(f, a + front, last);
      FlatMapSnoc(f, front, last);
      assert b == front + [last];
      Associative(a, front, [last]);
      Associative(FlatMap(f, a), FlatMap(f, front), f(last));
    }
  }

  /** Parsing can stop anywhere and go on from the remaining text. */
  lemma ParseConcat(a: string, b: string)
    ensures Parse(a + b).events == Parse(a).events + Parse(Parse(a).remaining + b).events
    ensures Parse(a + b).remaining == Parse(Parse(a).remaining + b).remaining
  {
    var first, rest := Init(Split(a, BLANK_LINE)), Split(Parse(a).remaining + b, BLANK_LINE);
    SplitConcat(a, b, BLANK_LINE);
    assert Init(first + rest) == first + Init(rest);
    FlatMapConcat(EventsOf, first, Init(rest));
  }

  lemma {:induction false} BlankParts(s: string)
    requires Blank(s)
    ensures forall k :: 0 <= k < |Split(s, BLANK_LINE)| ==> Blank(Split(s, BLANK_LINE)[k])
    decreases |s|
  {
    if Find(s, BLANK_LINE) >= 0 { BlankParts(s[Find(s, BLANK_LINE) + 2..]); }
  }

  lemma {:induction false} BlankBlocks(blocks: seq<string>)
    requires forall k :: 0 <= k < |blocks| ==> Blank(blocks[k])
    ensures EventsFrom(blocks) == []
  {
    if blocks != [] { BlankBlocks(Init(blocks)); }
  }

  lemma BlankTextIsSilent(s: string)
    requires Blank(s)
    ensures Parse(s).events == []
  {
    BlankParts(s);
    BlankBlocks(Init(Split(s, BLANK_LINE)));
  }

  /* ---------- what is sent is what is parsed ---------- */

  function Block(e: Event): string { "event: " + e.kind + "\n" + "data: " + e.data }

  function Wire(events: seq<Event>): string {
    if events == [] then "" else Block(events[0]) + BLANK_LINE + Wire(events[1..])
  }

  predicate Sendable(e: Event) { '\n' !in e.kind && '\n' !in e.data && e.data != "" }

  lemma BlockIsClean(e: Event)
    requires Sendable(e)
    ensures CleanPart(Block(e), BLANK_LINE)
  {
    var b := Block(e);
    var s, p := b + BLANK_LINE, 7 + |e.kind|;
    assert s[p] == '\n' && s[p + 1] == 'd';
    assert forall k :: 0 <= k < |b| && s[k] == '\n' ==> k == p by {
      forall k | 0 <= k < |b| && k != p ensures s[k] != '\n' {
        if 7 <= k < p {
          assert s[k] == e.kind[k - 7];
        } else if p + 7 <= k {
          assert s[k] == e.data[k - p - 7];
        }
      }
    }
    forall j | 0 <= j < |b| ensures !At(s, BLANK_LINE, j) {
      var two := s[j..j + 2];
      assert two[0] == s[j] && two[1] == s[j + 1];
    }
    assert s[|b|..|b| + 2] == BLANK_LINE;
    FoundAt(s, BLANK_LINE, |b|);
  }

  lemma LinesOfBlock(e: Event)
    requires Sendable(e)
    ensures Split(Block(e), "\n") == ["event: " + e.kind, "data: " + e.data]
  {
    var l0, l1 := "event: " + e.kind, "data: " + e.data;
    forall k | 0 <= k < |l0| ensures l0[k] != '\n' { if k >= 7 { assert l0[k] == e.kind[k - 7]; } }
    forall k | 0 <= k < |l1| ensures l1[k] != '\n' { if k >= 6 { assert l1[k] == e.data[k - 6]; } }
    WithoutChar(l0, '\n');
    WithoutChar(l1, '\n');
    SplitCons(l0, l1, "\n");
    Regroup(l0, "\n", "data: ", e.data);
  }

  lemma DataLine(e: Event, data: string)
    ensures ReadLine(e, "data: " + data) == e.(data := data)
  {
    var line := "data: " + data;
    assert line[6..] == data && line[0] == 'd';
  }

  lemma BlockEvent(e: Event)
    requires Sendable(e)
    ensures EventsOf(Block(e)) == [e]
  {
    var l0, l1 := "event: " + e.kind, "data: " + e.data;
    LinesOfBlock(e);
    ReadTwoLines(l0, l1);
    DataLine(Event(e.kind, ""), e.data);
    assert Block(e)[0] == 'e' && !IsSpace('e');
  }

  lemma ReadTwoLines(l0: string, l1: string)
    ensures ReadLines([l0, l1]) == ReadLine(ReadLine(Event("message", ""), l0), l1)
  {
    assert Init([l0, l1]) == [l0] && Init([l0]) == [];
    assert ReadLines([]) == Event("message", "") && ReadLines([l0]) == ReadLine(ReadLines([]), l0);
  }

  function Blocks(events: seq<Event>): seq<string> {
    if events == [] then [] else [Block(events[0])] + Blocks(events[1..])
  }

  lemma {:induction false} WireSplits(events: seq<Event>)
    requires forall k :: 0 <= k < |events| ==> Sendable(events[k])
    ensures IsSplit(Blocks(events) + [""], Wire(events), BLANK_LINE)
  {
    if events == [] {
      assert Blocks(events) + [""] == [""];
    } else {
      var e, rest := events[0], events[1..];
      WireSplits(rest);
      BlockIsClean(e);
      IsSplitCons(Block(e), Blocks(rest) + [""], Wire(rest), BLANK_LINE);
      assert Blocks(events) + [""] == [Block(e)] + (Blocks(rest) + [""]);
    }
  }

  lemma {:induction false} BlocksParse(events: seq<Event>)
    requires forall k :: 0 <= k < |events| ==> Sendable(events[k])
    ensures EventsFrom(Blocks(events)) == events
  {
    if events != [] {
      var e, rest := events[0], events[1..];
      BlocksParse(rest);
      BlockEvent(e);
      FlatMapConcat(EventsOf, [Block(e)], Blocks(rest));
      FlatMapSnoc(EventsOf, [], Block(e));
      assert [] + [Block(e)] == [Block(e)];
      assert events == [e] + rest;
    }
  }

  /** A serialised event list parses back to itself, with nothing left over. */
  lemma WireRoundTrip(events: seq<Event>)
    requires forall k :: 0 <= k < |events| ==> Sendable(events[k])
    ensures Parse(Wire(events)) == Parsed(events, "")
  {
    WireSplits(events);
    BlocksParse(events);
    SplitIsUnique(Blocks(events) + [""], Wire(events), BLANK_LINE);
    assert Init(Blocks(events) + [""]) == Blocks(events);
  }

  /* ---------- progress numbers ---------- */

  /** A JavaScript number with exact finite values. */
  datatype Num = NaN | NegInf | Finite(value: real) | PosInf

  predicate Positive(a: Num) { a.PosInf? || (a.Finite? && a.value > 0.0) }

  predicate AtLeast(a: Num, b: Num) {
    !a.NaN? && !b.NaN? && (a.PosInf? || b.NegInf? || (a.Finite? && b.Finite? && a.value >= b.value))
  }

  function Max(a: Num, b: Num): Num {
    if a.NaN? || b.NaN? then NaN else if AtLeast(a, b) then a else b
  }

  function Ratio(readRows: Num, totalRows: Num): Num {
    if !Positive(totalRows) then Finite(0.0)
    else if readRows.NaN? then NaN
    else if totalRows.PosInf? then (if readRows.Finite? then Finite(0.0) else NaN)
    else if readRows.Finite? then Finite(readRows.value / totalRows.value)
    else readRows
  }

  function ComputeMonotonicPercent(readRows: Num, totalRows: Num, prevMax: Num): (r: Num)
    ensures r.NaN? <==> prevMax.NaN? || Ratio(readRows, totalRows).NaN?
    ensures !r.NaN? ==> AtLeast(r, prevMax) && AtLeast(r, Ratio(readRows, totalRows))
    ensures !r.NaN? ==> r == prevMax || r == Ratio(readRows, totalRows)
  {
    Max(prevMax, Ratio(readRows, totalRows))
  }

  /** The percentage without a total above zero, and with an infinite number in it: zero counts as reported without a
      total and of an infinite total, an infinite row count counts as itself, and infinity of infinity is no number. */
  lemma PercentCases(readRows: Num, totalRows: Num, prevMax: Num)
    requires !prevMax.NaN?
    ensures var r := ComputeMonotonicPercent(readRows, totalRows, prevMax);
            var positive := totalRows.PosInf? || (totalRows.Finite? && totalRows.value > 0.0);
            && (!positive || (totalRows.PosInf? && readRows.Finite?) ==>
                  r == if prevMax.NegInf? || (prevMax.Finite? && prevMax.value < 0.0) then Finite(0.0) else prevMax)
            && (positive && readRows.NaN? ==> r.NaN?)
            && (totalRows.PosInf? && (readRows.PosInf? || readRows.NegInf?) ==> r.NaN?)
            && (positive && totalRows.Finite? && readRows.PosInf? ==> r == PosInf)
            && (positive && totalRows.Finite? && readRows.NegInf? ==> r == prevMax)
  {
  }

  /** The percentage of finite numbers: at least the previous maximum, at least the share of rows read, and one of the
      two exactly. */
  lemma PercentOfFinite(read: real, total: real, prev: real)
    requires total > 0.0
    ensures var r := ComputeMonotonicPercent(Finite(read), Finite(total), Finite(prev));
            r.Finite? && r.value >= prev && r.value * total >= read && (r.value == prev || r.value * total == read)
  {
    var ratio := read / total;
    assert ratio * total == read;
    if prev > ratio { Scaled(ratio, prev, total); }
  }

  lemma Scaled(a: real, b: real, total: real)
    requires a <= b && total > 0.0
    ensures a * total <= b * total
  {
  }

  /* ---------- handling events ---------- */

  datatype Counters = Counters(readRows: Num, totalRows: Num, elapsedNs: Num, readBytes: Num)
  datatype Progress = Progress(counters: Counters, percent: Num)
  datatype ErrorBody = Unreadable | NoMessage | Message(text: string)
  datatype Status = Idle | Loading | Success | Error

  /** The readings of an event's data that the handler relies on; `None` and `Unreadable` are thrown errors. */
  datatype Decoder<!R> = Decoder(row: string -> Option<R>, counters: string -> Option<Counters>,
                                 message: string -> ErrorBody)

  datatype View<R> = View(rows: seq<R>, data: Option<seq<R>>, progress: Option<Progress>, maxPercent: Num,
                          status: Status, error: Option<string>, terminated: bool)

  function Start<R>(): View<R> { View([], None, None, Finite(0.0), Loading, None, false) }

  predicate Terminal(e: Event) { e.kind == "done" || e.kind == "error" }

  function ErrorText(body: ErrorBody, data: string): string {
    match body
    case Unreadable => data
    case NoMessage => "Unknown error"
    case Message(text) => text
  }

  function Handle<R>(d: Decoder<R>, v: View<R>, e: Event): View<R> {
    if v.terminated then v
    else if e.kind == "progress" then
      match d.counters(e.data)
      case None => v
      case Some(c) =>
        var percent := ComputeMonotonicPercent(c.readRows, c.totalRows, v.maxPercent);
        v.(maxPercent := percent, progress := Some(Progress(c, percent)))
    else if e.kind == "row" then
      match d.row(e.data)
      case None => v
      case Some(row) => v.(rows := v.rows + [row])
    else if e.kind == "done" then v.(data := Some(v.rows), status := Success, terminated := true)
    else if e.kind == "error" then
      v.(error := Some(ErrorText(d.message(e.data), e.data)), status := Error, terminated := true)
    else v
  }

  function HandleAll<R>(d: Decoder<R>, v: View<R>, events: seq<Event>): View<R> {
    if events == [] then v else Handle(d, HandleAll(d, v, Init(events)), Last(events))
  }

  /** The result when the stream is over. */
  function Finish<R>(v: View<R>): View<R> {
    if v.terminated then v
    else if |v.rows| > 0 then v.(data := Some(v.rows), status := Success)
    else v.(error := Some("Stream ended unexpectedly"), status := Error)
  }

  /** The outcome of a text received in one piece and closed by a blank line. */
  function Outcome<R>(d: Decoder<R>, text: string): View<R> {
    Finish(HandleAll(d, Start(), Parse(text + BLANK_LINE).events))
  }

  lemma {:induction false} HandleConcat<R>(d: Decoder<R>, v: View<R>, a: seq<Event>, b: seq<Event>)
    ensures HandleAll(d, v, a + b) == HandleAll(d, HandleAll(d, v, a), b)
  {
    if b == [] {
      assert a + b == a;
    } else {
      assert Init(a + b) == a + Init(b);
      HandleConcat(d, v, a, Init(b));
    }
  }

  lemma {:induction false} TerminatedStays<R>(d: Decoder<R>, v: View<R>, events: seq<Event>)
    requires v.terminated
    ensures HandleAll(d, v, events) == v
  {
    if events != [] { TerminatedStays(d, v, Init(events)); }
  }

  /* ---------- the meaning of an outcome ---------- */

  /** The events before the first terminal one. */
  function Live(events: seq<Event>): (r: seq<Event>)
    ensures r <= events
    ensures forall k :: 0 <= k < |r| ==> r[k] == events[k] && !Terminal(events[k])
    ensures |r| < |events| ==> Terminal(events[|r|])
  {
    if events == [] || Terminal(events[0]) then [] else [events[0]] + Live(events[1..])
  }

  function RowsIn<R>(d: Decoder<R>, events: seq<Event>): seq<R> {
    if events == [] then []
    else RowsIn(d, Init(events)) +
         (if Last(events).kind == "row" && d.row(Last(events).data).Some? then [d.row(Last(events).data).value] else [])
  }

  /** The rows are those of the readable row events, in their order. */
  lemma {:induction false} RowsInMeaning<R>(d: Decoder<R>, events: seq<Event>) returns (at: seq<nat>)
    ensures |at| == |RowsIn(d, events)|
    ensures forall k, l :: 0 <= k < l < |at| ==> at[k] < at[l]
    ensures forall k :: 0 <= k < |at| ==>
              && at[k] < |events| && events[at[k]].kind == "row"
              && d.row(events[at[k]].data) == Some(RowsIn(d, events)[k])
    ensures forall i: nat :: i < |events| && events[i].kind == "row" && d.row(events[i].data).Some? ==> i in at
    decreases |events|
  {
    if events == [] {
      at := [];
    } else {
      var n, e := |events| - 1, Last(events);
      var front := RowsInMeaning(d, Init(events));
      at := front + if e.kind == "row" && d.row(e.data).Some? then [n] else [];
      forall i: nat | i < |events| && events[i].kind == "row" && d.row(events[i].data).Some? ensures i in at {
        if i < n { assert Init(events)[i] == events[i] && i in front; }
      }
    }
  }

  lemma {:induction false} LiveRun<R>(d: Decoder<R>, v: View<R>, events: seq<Event>)
    requires !v.terminated && forall k :: 0 <= k < |events| ==> !Terminal(events[k])
    ensures var w := HandleAll(d, v, events);
            !w.terminated && w.rows == v.rows + RowsIn(d, events) && w.data == v.data && w.error == v.error
            && w.status == v.status
  {
    if events != [] { LiveRun(d, v, Init(events)); }
  }

  /** Events from the first terminal one on: only that one counts. */
  lemma OnlyFirstTerminal<R>(d: Decoder<R>, v: View<R>, events: seq<Event>)
    requires !v.terminated
    ensures var live := Live(events); var w := HandleAll(d, v, live);
            HandleAll(d, v, events) == if |live| < |events| then Handle(d, w, events[|live|]) else w
  {
    var live := Live(events);
    if |live| < |events| {
      var t, after := events[|live|], events[|live| + 1..];
      assert events == live + [t] + after;
      LiveRun(d, v, live);
      HandleConcat(d, v, live + [t], after);
      assert Init(live + [t]) == live && Last(live + [t]) == t;
      TerminatedStays(d, HandleAll(d, v, live + [t]), after);
    } else {
      assert events == live;
    }
  }

  /** What a finished run shows: rows before the first terminal event; success exactly on `done`, or
      without any terminal event when there is at least one row. */
  lemma OutcomeMeaning<R>(d: Decoder<R>, text: string)
    ensures var events := Parse(text + BLANK_LINE).events; var live := Live(events);
            var rows := RowsIn(d, live); var o := Outcome(d, text);
            && o.rows == rows
            && (o.status.Success? <==> if |live| < |events| then events[|live|].kind == "done" else rows != [])
            && (o.status.Success? ==> o.data == Some(rows) && o.error == None)
            && (!o.status.Success? ==> o.status.Error? && o.data == None)
            && (!o.status.Success? && |live| == |events| ==> o.error == Some("Stream ended unexpectedly"))
            && (!o.status.Success? && |live| < |events| ==>
                  o.error == match d.message(events[|live|].data)
                             case Unreadable => Some(events[|live|].data)
                             case NoMessage => Some("Unknown error")
                             case Message(text) => Some(text))
  {
    var events := Parse(text + BLANK_LINE).events;
    OnlyFirstTerminal(d, Start(), events);
    LiveRun(d, Start(), Live(events));
  }

  lemma TerminalEnds<R>(d: Decoder<R>, events: seq<Event>, k: nat)
    requires k < |events| && Terminal(events[k])
    ensures HandleAll(d, Start(), events).terminated
  {
    OnlyFirstTerminal(d, Start(), events);
    LiveRun(d, Start(), Live(events));
  }

  lemma TailIsIgnored<R>(d: Decoder<R>, text: string, tail: string)
    requires HandleAll(d, Start(), Parse(text).events).terminated
    ensures HandleAll(d, Start(), Parse(text + tail).events) == HandleAll(d, Start(), Parse(text).events)
  {
    var events, later := Parse(text).events, Parse(Parse(text).remaining + tail).events;
    ParseConcat(text, tail);
    HandleConcat(d, Start(), events, later);
    TerminatedStays(d, HandleAll(d, Start(), events), later);
  }

  /** Whatever follows a complete terminal event cannot change the outcome. */
  lemma TerminalIsFinal<R>(d: Decoder<R>, text: string, more: string)
    requires exists k :: 0 <= k < |Parse(text).events| && Terminal(Parse(text).events[k])
    ensures Outcome(d, text + more) == Outcome(d, text) == HandleAll(d, Start(), Parse(text).events)
  {
    var k :| 0 <= k < |Parse(text).events| && Terminal(Parse(text).events[k]);
    TerminalEnds(d, Parse(text).events, k);
    TailIsIgnored(d, text, BLANK_LINE);
    TailIsIgnored(d, text, more + BLANK_LINE);
    assert text + more + BLANK_LINE == text + (more + BLANK_LINE);
  }

  /** The ratio a progress event reports, if it reports one. */
  predicate Reports<R>(d: Decoder<R>, e: Event, ratio: Num) {
    e.kind == "progress" && d.counters(e.data).Some? &&
    ratio == Ratio(d.counters(e.data).value.readRows, d.counters(e.data).value.totalRows)
  }

  predicate SomeNaN<R>(d: Decoder<R>, events: seq<Event>) {
    exists k :: 0 <= k < |events| && Reports(d, events[k], NaN)
  }

  ghost predicate CoversAll<R>(d: Decoder<R>, events: seq<Event>, p: Num) {
    forall k, r :: 0 <= k < |events| && Reports(d, events[k], r) ==> AtLeast(p, r)
  }

  lemma OneMoreReport<R>(d: Decoder<R>, events: seq<Event>, e: Event, p: Num, q: Num)
    ensures SomeNaN(d, events + [e]) <==> SomeNaN(d, events) || Reports(d, e, NaN)
    ensures CoversAll(d, events, q) && AtLeast(p, q) && (forall r :: Reports(d, e, r) ==> AtLeast(p, r))
            ==> CoversAll(d, events + [e], p)
  {
    var all := events + [e];
    assert all[|events|] == e;
    if SomeNaN(d, events) {
      var k :| 0 <= k < |events| && Reports(d, events[k], NaN);
      assert Reports(d, all[k], NaN);
    }
    if CoversAll(d, events, q) && AtLeast(p, q) && forall r :: Reports(d, e, r) ==> AtLeast(p, r) {
      forall k, r | 0 <= k < |all| && Reports(d, all[k], r) ensures AtLeast(p, r) {
        if k < |events| { assert Reports(d, events[k], r) && AtLeast(q, r); }
      }
    }
  }

  lemma {:induction false} LivePercent<R>(d: Decoder<R>, v: View<R>, live: seq<Event>)
    requires !v.terminated && !v.maxPercent.NaN? && forall k :: 0 <= k < |live| ==> !Terminal(live[k])
    ensures var p := HandleAll(d, v, live).maxPercent;
            && (p.NaN? <==> SomeNaN(d, live))
            && (!p.NaN? ==> AtLeast(p, v.maxPercent) && CoversAll(d, live, p))
  {
    if live != [] {
      var front, e := Init(live), Last(live);
      LivePercent(d, v, front);
      LiveRun(d, v, front);
      var w := HandleAll(d, v, front);
      OneMoreReport(d, front, e, Handle(d, w, e).maxPercent, w.maxPercent);
      assert live == front + [e];
    }
  }

  /** The percentage never falls and covers every ratio seen, unless a ratio was not a number:
      then, and only then, it is lost for good. */
  lemma PercentRun<R>(d: Decoder<R>, v: View<R>, events: seq<Event>)
    requires !v.terminated && !v.maxPercent.NaN?
    ensures var p := HandleAll(d, v, events).maxPercent; var live := Live(events);
            && (p.NaN? <==> SomeNaN(d, live))
            && (!p.NaN? ==> AtLeast(p, v.maxPercent) && CoversAll(d, live, p))
  {
    OnlyFirstTerminal(d, v, events);
    LiveRun(d, v, Live(events));
    LivePercent(d, v, Live(events));
  }

  lemma {:induction false} PercentIsReported<R>(d: Decoder<R>, v: View<R>, live: seq<Event>)
    requires !v.terminated && forall k :: 0 <= k < |live| ==> !Terminal(live[k])
    ensures var p := HandleAll(d, v, live).maxPercent;
            p.NaN? || p == v.maxPercent || exists k :: 0 <= k < |live| && Reports(d, live[k], p)
  {
    if live != [] {
      var front, e := Init(live), Last(live);
      PercentIsReported(d, v, front);
      LiveRun(d, v, front);
      var p, w := HandleAll(d, v, live).maxPercent, HandleAll(d, v, front);
      if p == w.maxPercent {
        if k :| 0 <= k < |front| && Reports(d, front[k], p) { assert Reports(d, live[k], p); }
      } else if !p.NaN? {
        assert Reports(d, live[|live| - 1], p);
      }
    }
  }

  /** A readable progress event of finite numbers with a total above zero. */
  predicate Share<R>(d: Decoder<R>, e: Event) {
    e.kind == "progress" && d.counters(e.data).Some? &&
    var c := d.counters(e.data).value;
    c.readRows.Finite? && c.totalRows.Finite? && c.totalRows.value > 0.0
  }

  function ReadRows<R>(d: Decoder<R>, e: Event): real
    requires Share(d, e)
  {
    d.counters(e.data).value.readRows.value
  }

  function TotalRows<R>(d: Decoder<R>, e: Event): (t: real)
    requires Share(d, e)
    ensures t > 0.0
  {
    d.counters(e.data).value.totalRows.value
  }

  lemma ShareReports<R>(d: Decoder<R>, e: Event) returns (q: real)
    requires Share(d, e)
    ensures Reports(d, e, Finite(q)) && q * TotalRows(d, e) == ReadRows(d, e)
  {
    q := ReadRows(d, e) / TotalRows(d, e);
  }

  /** A progress event that, if it is readable, reports finite numbers. */
  predicate FiniteNumbers<R>(d: Decoder<R>, e: Event) {
    e.kind == "progress" && d.counters(e.data).Some? ==>
      d.counters(e.data).value.readRows.Finite? && d.counters(e.data).value.totalRows.Finite?
  }

  lemma OnlyShares<R>(d: Decoder<R>, e: Event, p: Num)
    requires FiniteNumbers(d, e) && Reports(d, e, p)
    ensures p.Finite? && (p.value != 0.0 ==> Share(d, e))
    ensures Share(d, e) ==> p.value * TotalRows(d, e) == ReadRows(d, e)
  {
    if Share(d, e) { var q := ShareReports(d, e); }
  }

  lemma CoversShare<R>(d: Decoder<R>, events: seq<Event>, p: real, e: Event)
    requires CoversAll(d, events, Finite(p)) && e in events && Share(d, e)
    ensures p * TotalRows(d, e) >= ReadRows(d, e)
  {
    var q := ShareReports(d, e);
    var k :| 0 <= k < |events| && events[k] == e;
    assert Reports(d, events[k], Finite(q));
    assert AtLeast(Finite(p), Finite(q));
    Scaled(q, p, TotalRows(d, e));
  }

  lemma NoNaN<R>(d: Decoder<R>, events: seq<Event>)
    requires forall e :: e in events ==> FiniteNumbers(d, e)
    ensures !SomeNaN(d, events)
  {
    forall k | 0 <= k < |events| ensures !Reports(d, events[k], NaN) {
      if Reports(d, events[k], NaN) { OnlyShares(d, events[k], NaN); }
    }
  }

  /** Some progress event of the list reports the share `p` of rows. */
  predicate SomeShare<R>(d: Decoder<R>, events: seq<Event>, p: real) {
    exists e :: e in events && Share(d, e) && p * TotalRows(d, e) == ReadRows(d, e)
  }

  lemma LiveIsFinite<R>(d: Decoder<R>, live: seq<Event>) returns (p: real)
    requires forall k :: 0 <= k < |live| ==> !Terminal(live[k]) && FiniteNumbers(d, live[k])
    ensures HandleAll(d, Start(), live).maxPercent == Finite(p) && p >= 0.0 && CoversAll(d, live, Finite(p))
    ensures p == 0.0 || SomeShare(d, live, p)
  {
    LivePercent(d, Start(), live);
    NoNaN(d, live);
    PercentIsReported(d, Start(), live);
    var r := HandleAll(d, Start(), live).maxPercent;
    if r == Finite(0.0) {
      p := 0.0;
    } else {
      var k :| 0 <= k < |live| && Reports(d, live[k], r);
      OnlyShares(d, live[k], r);
      p := r.value;
      assert live[k] in live;
    }
  }

  lemma PercentIsLive<R>(d: Decoder<R>, events: seq<Event>)
    ensures HandleAll(d, Start(), events).maxPercent == HandleAll(d, Start(), Live(events)).maxPercent
  {
    OnlyFirstTerminal(d, Start(), events);
    LiveRun(d, Start(), Live(events));
  }

  /** No share of the list is larger than `p`. */
  predicate NoLarger<R>(d: Decoder<R>, events: seq<Event>, p: real) {
    forall e :: e in events && Share(d, e) ==> p * TotalRows(d, e) >= ReadRows(d, e)
  }

  lemma CoversShares<R>(d: Decoder<R>, events: seq<Event>, p: real)
    requires CoversAll(d, events, Finite(p))
    ensures NoLarger(d, events, p)
  {
    forall e | e in events && Share(d, e) ensures p * TotalRows(d, e) >= ReadRows(d, e) {
      CoversShare(d, events, p, e);
    }
  }

  /** The percentage at the end of a run in which all readable progress events report finite numbers: the largest share
      of rows read among those before the first terminal event, or zero. */
  lemma FinalPercent<R>(d: Decoder<R>, events: seq<Event>)
    requires forall e :: e in events ==> FiniteNumbers(d, e)
    ensures var p, live := HandleAll(d, Start(), events).maxPercent, Live(events);
            && p.Finite? && p.value >= 0.0 && NoLarger(d, live, p.value)
            && (p.value == 0.0 || SomeShare(d, live, p.value))
  {
    var live := Live(events);
    PercentIsLive(d, events);
    forall k | 0 <= k < |live| ensures FiniteNumbers(d, live[k]) { assert live[k] in events; }
    var p := LiveIsFinite(d, live);
    CoversShares(d, live, p);
  }

  /** The counters of the last readable progress event. */
  function LastCounters<R>(d: Decoder<R>, events: seq<Event>): Option<Counters> {
    if events == [] then None
    else if Last(events).kind == "progress" && d.counters(Last(events).data).Some? then d.counters(Last(events).data)
    else LastCounters(d, Init(events))
  }

  /** No readable progress event follows number `k`, which is one. */
  predicate LastProgress<R>(d: Decoder<R>, events: seq<Event>, k: nat) {
    && k < |events| && events[k].kind == "progress" && d.counters(events[k].data).Some?
    && forall j :: k < j < |events| ==> events[j].kind != "progress" || d.counters(events[j].data).None?
  }

  lemma {:induction false} LastCountersMeaning<R>(d: Decoder<R>, events: seq<Event>)
    ensures forall k: nat :: LastProgress(d, events, k) ==> LastCounters(d, events) == d.counters(events[k].data)
    ensures (forall e :: e in events ==> e.kind != "progress" || d.counters(e.data).None?) ==>
              LastCounters(d, events) == None
    decreases |events|
  {
    if events != [] {
      var front := Init(events);
      LastCountersMeaning(d, front);
      forall k: nat | LastProgress(d, events, k) ensures LastCounters(d, events) == d.counters(events[k].data) {
        if k < |front| { assert front[k] == events[k] && LastProgress(d, front, k); }
      }
      assert events == front + [Last(events)];
    }
  }

  lemma {:induction false} LiveProgress<R>(d: Decoder<R>, live: seq<Event>)
    requires forall k :: 0 <= k < |live| ==> !Terminal(live[k])
    ensures var v := HandleAll(d, Start(), live);
            v.progress == match LastCounters(d, live) case None => None case Some(c) => Some(Progress(c, v.maxPercent))
  {
    if live != [] {
      LiveProgress(d, Init(live));
      LiveRun(d, Start(), Init(live));
    }
  }

  /** The progress shown is that of the last readable progress event before the end, with the percentage
      reached so far. */
  lemma ProgressMeaning<R>(d: Decoder<R>, text: string)
    ensures var o := Outcome(d, text);
            o.progress == match LastCounters(d, Live(Parse(text + BLANK_LINE).events))
                          case None => None
                          case Some(c) => Some(Progress(c, o.maxPercent))
  {
    var events := Parse(text + BLANK_LINE).events;
    OnlyFirstTerminal(d, Start(), events);
    LiveRun(d, Start(), Live(events));
    LiveProgress(d, Live(events));
  }

  /* ---------- the reader loop ---------- */

  function Concat(chunks: seq<string>): string {
    if chunks == [] then "" else Concat(Init(chunks)) + Last(chunks)
  }

  class StreamRun<R> {
    const decoder: Decoder<R>
    var rows: seq<R>
    var data: Option<seq<R>>
    var progress: Option<Progress>
    var maxPercent: Num
    var status: Status
    var error: Option<string>
    var terminated: bool

    constructor (d: Decoder<R>)
      ensures decoder == d && AsView() == Start().(status := Idle)
    {
      decoder := d;
      rows, data, progress, maxPercent, status, error, terminated := [], None, None, Finite(0.0), Idle, None, false;
    }

    function AsView(): View<R>
      reads this
    {
      View(rows, data, progress, maxPercent, status, error, terminated)
    }

    method HandleEvent(e: Event)
      modifies this
      ensures AsView() == Handle(decoder, old(AsView()), e)
    {
      if terminated { return; }
      if e.kind == "progress" {
        match decoder.counters(e.data)
        case None =>
        case Some(c) =>
          maxPercent := ComputeMonotonicPercent(c.readRows, c.totalRows, maxPercent);
          progress := Some(Progress(c, maxPercent));
      } else if e.kind == "row" {
        match decoder.row(e.data)
        case None =>
        case Some(row) => rows := rows + [row];
      } else if e.kind == "done" {
        data, status, terminated := Some(rows), Success, true;
      } else if e.kind == "error" {
        error := Some(ErrorText(decoder.message(e.data), e.data));
        status, terminated := Error, true;
      }
    }

    method HandleEvents(events: seq<Event>)
      modifies this
      ensures AsView() == HandleAll(decoder, old(AsView()), events)
    {
      for i := 0 to |events|
        invariant AsView() == HandleAll(decoder, old(AsView()), events[..i])
      {
        assert Init(events[..i + 1]) == events[..i];
        HandleEvent(events[i]);
      }
      assert events[..|events|] == events;
    }

    /** However the network cuts the stream, the outcome is that of the whole text. */
    method RunQuery(chunks: seq<string>)
      modifies this
      ensures AsView() == Outcome(decoder, Concat(chunks))
    {
      rows, data, progress, maxPercent, status, error, terminated := [], None, None, Finite(0.0), Loading, None, false;
      var buffer := "";
      ghost var text := "";
      for i := 0 to |chunks|
        invariant text == Concat(chunks[..i])
        invariant buffer == Parse(text).remaining
        invariant AsView() == HandleAll(decoder, Start(), Parse(text).events)
      {
        assert Init(chunks[..i + 1]) == chunks[..i];
        var parsed := ParseSSEBuffer(buffer + chunks[i]);
        ParseConcat(text, chunks[i]);
        HandleConcat(decoder, Start(), Parse(text).events, parsed.events);
        buffer := parsed.remaining;
        HandleEvents(parsed.events);
        text := text + chunks[i];
      }
      assert chunks[..|chunks|] == chunks;
      FlushAdds(decoder, text);
      if !terminated && !Blank(buffer) {
        var parsed := ParseSSEBuffer(buffer + BLANK_LINE);
        HandleEvents(parsed.events);
      }
      if !terminated {
        if |rows| > 0 {
          data, status := Some(rows), Success;
        } else {
          error, status := Some("Stream ended unexpectedly"), Error;
        }
      }
    }
  }

  /** The final flush handles exactly what a closing blank line would have delivered, and skipping it
      after a terminal event or on a blank rest loses nothing. */
  lemma FlushAdds<R>(d: Decoder<R>, text: string)
    ensures var v, rest := HandleAll(d, Start(), Parse(text).events), Parse(text).remaining;
            HandleAll(d, Start(), Parse(text + BLANK_LINE).events)
            == if !v.terminated && !Blank(rest) then HandleAll(d, v, Parse(rest + BLANK_LINE).events) else v
  {
    var v, rest := HandleAll(d, Start(), Parse(text).events), Parse(text).remaining;
    ParseConcat(text, BLANK_LINE);
    HandleConcat(d, Start(), Parse(text).events, Parse(rest + BLANK_LINE).events);
    if v.terminated {
      TerminatedStays(d, v, Parse(rest + BLANK_LINE).events);
    } else if Blank(rest) {
      BlankTextIsSilent(rest + BLANK_LINE);
    }
  }
}
