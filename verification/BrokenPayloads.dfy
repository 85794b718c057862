/** Events whose payload holds a line break: none comes through, and which of them the reader stops at. */
module BrokenPayloads {
  import opened Common
  import opened Decimal
  import opened SseFrames
  import opened PayloadFates
  import opened Deliveries

  // ---------------------------------------------------------------- what survives

  function Weight(lines: seq<string>): nat {
    if lines == [] then 0 else |lines[0]| + 1 + Weight(lines[1..])
  }

  lemma {:induction false} SplitWeight(text: string, line: string)
    ensures Weight(Split(text, line)) <= |text| + |line| + 1
    decreases |text|
  {
    if text == "" {
    } else if !IsBreak(text[0]) {
      SplitWeight(text[1..], line + [text[0]]);
    } else if text[0] == '\r' && |text| > 1 && text[1] == '\n' {
      SplitWeight(text[2..], "");
    } else {
      SplitWeight(text[1..], "");
    }
  }

  /** Text up to its first break is one line; less than the rest is left to split. */
  lemma {:induction false} SplitBreak(text: string, n: nat, line: string) returns (rest: string)
    requires n < |text| && OneLine(text[..n]) && IsBreak(text[n])
    ensures Split(text, line) == [line + text[..n]] + Split(rest, "") && |rest| < |text| - n
    decreases n
  {
    if n == 0 {
      rest := if text[0] == '\r' && |text| > 1 && text[1] == '\n' then text[2..] else text[1..];
      assert line + text[..n] == line;
    } else {
      assert text[0] in text[..n];
      assert text[1..][..n - 1] == text[..n][1..];
      rest := SplitBreak(text[1..], n - 1, line + [text[0]]);
      assert line + [text[0]] + text[1..][..n - 1] == line + text[..n];
    }
  }

  /** The first payload ingested is no longer than what was gathered plus what data lines can still bring. */
  lemma {:induction false} FirstIngest(r: Reader, accepts: (nat, string) -> bool, lines: seq<string>)
    requires r.ingested == []
    ensures var r' := ReadLines(r, accepts, lines);
      r'.ingested != [] ==> |r'.ingested[0].1| <= |Join(r.data)| + Max(0, Weight(lines) - 5)
    decreases |lines|
  {
    if lines != [] && !r.failed {
      var r1 := ReadLine(r, accepts, lines[0]);
      LineGrowth(r, accepts, lines[0]);
      hide ReadLine, Join;
      if r1.ingested == [] {
        FirstIngest(r1, accepts, lines[1..]);
      } else {
        IngestedGrows(r1, accepts, lines[1..]);
      }
    }
  }

  /** One line gathers at most its length less four characters, and ingests no more than was gathered. */
  lemma LineGrowth(r: Reader, accepts: (nat, string) -> bool, line: string)
    requires r.ingested == []
    ensures var r1 := ReadLine(r, accepts, line);
      && (r1.ingested == [] ==> |Join(r1.data)| <= |Join(r.data)| + Max(0, |line| - 4))
      && (r1.ingested != [] ==> |r1.ingested[0].1| <= |Join(r.data)|)
  {
    var field := Parse(line);
    if field.DataField? {
      ParsedLength(line);
      JoinGrows(r.data, field.data);
    }
    hide Parse, Join;
    assert Join([]) == "" by { EmptyJoin(); }
  }

  lemma ParsedLength(line: string)
    requires Parse(line).DataField?
    ensures |Parse(line).data| <= |line| - 5
  {
    hide Trim, FromDecimal;
  }

  lemma EmptyJoin()
    ensures Join([]) == ""
  {
  }

  lemma JoinGrows(data: seq<string>, item: string)
    ensures |Join(data + [item])| <= |Join(data)| + 1 + |item|
  {
    assert (data + [item])[..|data|] == data;
  }

  lemma {:induction false} IngestedGrows(r: Reader, accepts: (nat, string) -> bool, lines: seq<string>)
    ensures r.ingested <= ReadLines(r, accepts, lines).ingested
    decreases |lines|
  {
    hide Parse, Join;
    if lines != [] && !r.failed { IngestedGrows(ReadLine(r, accepts, lines[0]), accepts, lines[1..]); }
  }

  lemma {:induction false} FirstBreak(s: string) returns (n: nat)
    requires !OneLine(s)
    ensures n < |s| && IsBreak(s[n]) && OneLine(s[..n])
  {
    hide IsBreak;
    var start := s[..|s| - 1];
    if OneLine(start) {
      n := |s| - 1;
    } else {
      n := FirstBreak(start);
      assert s[..n] == start[..n];
    }
  }

  /** The lines of a frame whose payload breaks at `n`: a complete frame with a shorter payload, and leftovers. */
  lemma BrokenLines(id: nat, data: string, n: nat) returns (rest: string)
    requires n < |data| && IsBreak(data[n]) && OneLine(data[..n])
    ensures Split(Render(Operation(id, data)), "") == FrameLines(Operation(id, data[..n])) + Split(rest, "")
    ensures |rest| <= |data| - n + 1
  {
    var head, tail := ["id: " + ToDecimal(id), EVENT_LINE], "data: " + data + NL + NL;
    CleanLines(Operation(id, data[..n]));
    hide Split, IsBreak, ToDecimal;
    assert "data: " + data[..n] in FrameLines(Operation(id, data[..n])) + [""];
    assert head[0] in FrameLines(Operation(id, data[..n])) + [""] && head[1] in FrameLines(Operation(id, data[..n])) + [""];
    RenderTail(id, data);
    SplitUnlines(head, tail);
    assert tail[..6 + n] == "data: " + data[..n] && tail[6 + n] == data[n];
    rest := SplitBreak(tail, 6 + n, "");
    assert "" + tail[..6 + n] == "data: " + data[..n];
    assert FrameLines(Operation(id, data[..n])) == head + ["data: " + data[..n]];
  }

  lemma BrokenPayload(id: nat, data: string, cursor: nat, accepts: (nat, string) -> bool)
    requires !OneLine(data) && data[0] != ' ' && Fits(Operation(id, data))
    ensures Read(Render(Operation(id, data)), cursor, accepts).ingested != [(id, data)]
  {
    var n := FirstBreak(data);
    var rest := BrokenLines(id, data, n);
    hide ToDecimal, Split, IsBreak, FrameLines, ReadLines, Render;
    OperationRead(Fresh(cursor), accepts, id, data[..n], Split(rest, ""));
    var r := Gathered(Fresh(cursor), id, data[..n]);
    FirstIngest(r, accepts, Split(rest, ""));
    SplitWeight(rest, "");
  }

  /** A single frame above the cursor comes through exactly when its payload holds no line break. */
  lemma PayloadSurvives(id: nat, data: string, cursor: nat, accepts: (nat, string) -> bool)
    requires data != "" && data[0] != ' ' && id > cursor && Fits(Operation(id, data)) && accepts(id, data)
    ensures Read(Render(Operation(id, data)), cursor, accepts).ingested == [(id, data)] <==> OneLine(data)
  {
    var f := Operation(id, data);
    if OneLine(data) {
      hide Render, Fits;
      assert RenderAll([f]) == Render(f) + RenderAll([f][1..]) == Render(f);
      StreamRoundTrip([f], cursor, accepts);
      assert Deliver([f], cursor, accepts).ingested == [(id, data)] + Deliver([f][1..], id, accepts).ingested;
    } else {
      BrokenPayload(id, data, cursor, accepts);
    }
  }

  /** Reading that never asks for acceptance does not depend on it. */
  lemma {:induction false} NeverAsked(r: Reader, accepts: (nat, string) -> bool, lines: seq<string>)
    requires !ReadLines(r, NEVER, lines).failed
    ensures ReadLines(r, accepts, lines) == ReadLines(r, NEVER, lines)
    decreases |lines|
  {
    hide Parse, Join;
    if lines != [] && !r.failed {
      NeverRead(r, accepts, lines);
      NeverAsked(ReadLine(r, NEVER, lines[0]), accepts, lines[1..]);
    }
  }

  lemma NeverRead(r: Reader, accepts: (nat, string) -> bool, lines: seq<string>)
    requires lines != [] && !r.failed && !ReadLines(r, NEVER, lines).failed
    ensures ReadLine(r, accepts, lines[0]) == ReadLine(r, NEVER, lines[0])
  {
    hide Parse, Join;
    var r1 := ReadLine(r, NEVER, lines[0]);
    assert ReadLines(r, NEVER, lines) == ReadLines(r1, NEVER, lines[1..]);
    assert !r1.failed;
  }

  const NEVER: (nat, string) -> bool := (n, data) => false

  lemma NeverAccepts(data: string)
    ensures PiecesRefused(data, NEVER)
  {
    hide AllRefused, PayloadLines;
    var lines := PayloadLines(data);
    if lines != [] {
      var n := FirstBlank(lines[1..]);
      if n < |lines[1..]| { NeverAcceptsRest(lines[1..][n + 1..]); }
    }
  }

  lemma {:induction false} NeverAcceptsRest(lines: seq<string>)
    ensures AllRefused(lines, NEVER)
    decreases |lines|
  {
    var n := FirstBlank(lines);
    if n < |lines| { NeverAcceptsRest(lines[n + 1..]); }
  }

  /** A frame that is passed in silence leaves no trace, whatever the client would accept. */
  lemma PassedFrame(r: Reader, accepts: (nat, string) -> bool, id: nat, data: string)
    requires r == Reset(r) && !r.failed && SilentlyPassed(id, data, r.cursor) && data[0] != ' '
    ensures ReadLines(r, accepts, Split(Render(Operation(id, data)), "")) == r
  {
    assert !OneLine(data);
    hide ReadLines, Split, Render, SilentlyPassed, PiecesRefused, OneLine;
    NeverAccepts(data);
    BrokenFate(r, NEVER, id, data);
    NeverAsked(r, accepts, Split(Render(Operation(id, data)), ""));
  }

  /** A payload with a single break is the two lines around it. */
  lemma OneBreak(a: string, sep: char, b: string)
    requires OneLine(a) && IsBreak(sep) && b != "" && OneLine(b)
    ensures PayloadLines(a + [sep] + b) == [a, b, ""] && !OneLine(a + [sep] + b)
  {
    var data := a + [sep] + b;
    assert data[|a|] == sep && sep in data;
    var tail := [sep] + b + NL + NL;
    assert data + NL + NL == a + tail;
    SplitAfter(a, tail, "");
    assert "" + a == a && "" + b == b;
    assert b[0] in b && tail[1] == b[0];
    assert tail[0] == sep && tail[1..] == b + NL + NL;
    assert Split(tail, a) == [a] + Split(b + NL + NL, "");
    SplitLine(b, NL, "");
    assert NL[1..] == "";
    assert Split(NL, "") == [""];
  }

  /** The fate of a payload with a single break is decided by the line after it: it passes when that line names another
      kind of event, or a number the client has. */
  lemma OneBreakFate(id: nat, a: string, sep: char, b: string, cursor: nat)
    requires OneLine(a) && IsBreak(sep) && b != "" && OneLine(b)
    ensures SilentlyPassed(id, a + [sep] + b, cursor) <==>
      var number := if Parse(b).IdField? then Parse(b).id else Some(id);
      && 26 + |ToDecimal(id)| + |a| + |b| <= BOUND && number.Some?
      && (number.value <= cursor || (Parse(b).KindField? && Parse(b).kind != "operation"))
  {
    OneBreak(a, sep, b);
    hide PayloadLines, ToDecimal, OneLine, Parse, LastId, LastKind, DataIn, Total, NumbersParse;
    var rest := [a, b, ""][1..];
    assert rest == [b, ""] && rest[1..] == [""];
    assert FirstBlank(rest) == 1 && rest[..1] == [b] && rest[1 + 1..] == [];
    assert AllPass([], cursor);
    Snoc([], b);
    assert [] + [b] == [b];
    NoLines(id);
    NumbersSplit([], b);
  }

  lemma NoLines(id: nat)
    ensures LastId([], Some(id)) == Some(id) && LastKind([], "operation") == "operation" && Total([]) == 0 && NumbersParse([])
  {
  }

  /** Wherever in its text an event holds a line break, it never comes through.  If no piece of it is accepted, nothing
      comes through in its place either, and the reader stops exactly when the event is not passed in silence. */
  lemma SeparatorLosesEvent(id: nat, before: string, sep: char, after: string, cursor: nat, accepts: (nat, string) -> bool)
    requires before != "" && before[0] != ' ' && IsBreak(sep) && Fits(Operation(id, before + [sep] + after))
    ensures Read(Render(Operation(id, before + [sep] + after)), cursor, accepts).ingested != [(id, before + [sep] + after)]
    ensures var data := before + [sep] + after; var r := Read(Render(Operation(id, data)), cursor, accepts);
      PiecesRefused(data, accepts) ==> r.ingested == [] && r.cursor == cursor && (r.failed <==> !SilentlyPassed(id, data, cursor))
  {
    var data := before + [sep] + after;
    assert data[|before|] == sep && data[0] == before[0];
    BrokenPayload(id, data, cursor, accepts);
    assert !OneLine(data);
    hide SilentlyPassed, PiecesRefused, OneLine, Split, ReadLines, Render;
    if PiecesRefused(data, accepts) { BrokenFate(Fresh(cursor), accepts, id, data); }
  }

  /** Two events on the wire, the first passed in silence: the reader ingests the second and the cursor moves past both. */
  lemma PassedForGood(id: nat, data: string, next: string, cursor: nat, accepts: (nat, string) -> bool)
    requires SilentlyPassed(id, data, cursor) && data[0] != ' ' && cursor <= id
    requires next != "" && next[0] != ' ' && OneLine(next) && Fits(Operation(id + 1, next)) && accepts(id + 1, next)
    ensures var r := Read(Render(Operation(id, data)) + Render(Operation(id + 1, next)), cursor, accepts);
      !r.failed && r.cursor == id + 1 && r.ingested == [(id + 1, next)]
  {
    hide SilentlyPassed, OneLine, Split, ReadLines, FrameLines, Fits;
    var f, g := Operation(id, data), Operation(id + 1, next);
    UnlinesEnd(FrameLines(f) + [""]);
    SplitTwo(Render(f), Render(g), "");
    ReadAppend(Fresh(cursor), accepts, Split(Render(f), ""), Split(Render(g), ""));
    PassedFrame(Fresh(cursor), accepts, id, data);
    FrameFate(Fresh(cursor), accepts, g);
  }

  // ---------------------------------------------------------------- a snapshot as the broker writes it

  /** The times, ids and the handle in a completed snapshot. */
  datatype Names = Names(created: string, flow: string, op: string, handle: string, resultId: string, updated: string)

  predicate Plain(w: Names) {
    OneLine(w.created) && OneLine(w.flow) && OneLine(w.op) && OneLine(w.handle) && OneLine(w.resultId) && OneLine(w.updated)
  }

  function OpeningIds(w: Names): string {
    "{\"created_at\":\"" + w.created + "\",\"error\":null,\"flow_id\":\"" + w.flow + "\",\"operation_id\":\"" + w.op
  }

  function Opening(w: Names): string {
    OpeningIds(w) + "\",\"remote_task_id\":\"" + w.handle + "\",\"result\":{\"artifacts\":[]," + "\"text\":\""
  }

  function Closing(w: Names): string {
    "\"},\"result_id\":\"" + w.resultId + "\",\"state\":\"completed\"," + "\"updated_at\":\"" + w.updated + "\"}"
  }

  /** The canonical JSON of a completed snapshot.  Only quotes, backslashes and control characters are escaped in it. */
  function SnapshotText(w: Names, text: string): string {
    Opening(w) + text + Closing(w)
  }

  lemma LinesTogether(a: string, b: string)
    requires OneLine(a) && OneLine(b)
    ensures OneLine(a + b)
  {
    hide IsBreak;
  }

  lemma OpeningIdsLine(w: Names)
    requires Plain(w)
    ensures OneLine(OpeningIds(w)) && OpeningIds(w) != "" && OpeningIds(w)[0] == '{'
  {
    hide IsBreak, OneLine;
    Printable("{\"created_at\":\"");
    Printable("\",\"error\":null,\"flow_id\":\"");
    Printable("\",\"operation_id\":\"");
    var a := "{\"created_at\":\"" + w.created;
    LinesTogether("{\"created_at\":\"", w.created);
    LinesTogether(a, "\",\"error\":null,\"flow_id\":\"");
    var b := a + "\",\"error\":null,\"flow_id\":\"";
    LinesTogether(b, w.flow);
    LinesTogether(b + w.flow, "\",\"operation_id\":\"");
    LinesTogether(b + w.flow + "\",\"operation_id\":\"", w.op);
  }

  lemma OpeningLine(w: Names)
    requires Plain(w)
    ensures OneLine(Opening(w)) && Opening(w) != "" && Opening(w)[0] == '{'
  {
    hide IsBreak, OneLine, OpeningIds;
    OpeningIdsLine(w);
    Printable("\",\"remote_task_id\":\"");
    Printable("\",\"result\":{\"artifacts\":[],");
    Printable("\"text\":\"");
    var d := OpeningIds(w) + "\",\"remote_task_id\":\"";
    LinesTogether(OpeningIds(w), "\",\"remote_task_id\":\"");
    LinesTogether(d, w.handle);
    LinesTogether(d + w.handle, "\",\"result\":{\"artifacts\":[],");
    LinesTogether(d + w.handle + "\",\"result\":{\"artifacts\":[],", "\"text\":\"");
  }

  lemma ClosingLine(w: Names)
    requires Plain(w)
    ensures OneLine(Closing(w)) && Closing(w) != ""
  {
    hide IsBreak, OneLine;
    Printable("\"},\"result_id\":\"");
    Printable("\",\"state\":\"completed\",");
    Printable("\"updated_at\":\"");
    Printable("\"}");
    LinesTogether("\"},\"result_id\":\"", w.resultId);
    var a := "\"},\"result_id\":\"" + w.resultId;
    LinesTogether(a, "\",\"state\":\"completed\",");
    var b := a + "\",\"state\":\"completed\",";
    LinesTogether(b, "\"updated_at\":\"");
    LinesTogether(b + "\"updated_at\":\"", w.updated);
    LinesTogether(b + "\"updated_at\":\"" + w.updated, "\"}");
  }

  lemma SnapshotParts(w: Names, a: string, sep: char, b: string)
    requires Plain(w) && OneLine(a) && OneLine(b)
    ensures OneLine(Opening(w) + a) && OneLine(b + Closing(w)) && b + Closing(w) != ""
    ensures SnapshotText(w, a + [sep] + b) == Opening(w) + a + [sep] + (b + Closing(w))
    ensures Opening(w) + a != "" && (Opening(w) + a)[0] == '{'
  {
    hide OneLine;
    OpeningLine(w);
    ClosingLine(w);
    LinesTogether(Opening(w), a);
    LinesTogether(b, Closing(w));
    hide Opening, Closing;
  }

  /** A completed snapshot whose result text holds a break, for example U+2028, which the broker writes unescaped: it
      does not come through; and if the line after the break is no field, the truncated JSON stops the reader. */
  lemma SnapshotLost(w: Names, id: nat, a: string, sep: char, b: string, cursor: nat, accepts: (nat, string) -> bool)
    requires Plain(w) && OneLine(a) && OneLine(b) && IsBreak(sep) && id > cursor
    requires Fits(Operation(id, SnapshotText(w, a + [sep] + b)))
    ensures var data := SnapshotText(w, a + [sep] + b);
      Read(Render(Operation(id, data)), cursor, accepts).ingested != [(id, data)]
    ensures var r := Read(Render(Operation(id, SnapshotText(w, a + [sep] + b))), cursor, accepts);
      Parse(b + Closing(w)).Other? && (forall m: nat :: !accepts(m, Opening(w) + a)) ==>
        r.failed && r.cursor == cursor && r.ingested == []
  {
    hide Opening, Closing, Fits, Render, Read, OneLine, IsBreak, Parse, SilentlyPassed, PiecesRefused;
    SnapshotParts(w, a, sep, b);
    var before, after := Opening(w) + a, b + Closing(w);
    SeparatorLosesEvent(id, before, sep, after, cursor, accepts);
    if Parse(after).Other? && (forall m: nat :: !accepts(m, before)) {
      OneBreakFate(id, before, sep, after, cursor);
      TruncatedRefused(before, sep, after, accepts);
    }
  }

  lemma TruncatedRefused(a: string, sep: char, b: string, accepts: (nat, string) -> bool)
    requires OneLine(a) && IsBreak(sep) && b != "" && OneLine(b) && !Parse(b).DataField?
    requires forall m: nat :: !accepts(m, a)
    ensures PiecesRefused(a + [sep] + b, accepts)
  {
    OneBreak(a, sep, b);
    hide PayloadLines, OneLine, Parse, DataIn;
    var rest := [a, b, ""][1..];
    assert rest == [b, ""] && rest[1..] == [""];
    assert FirstBlank(rest) == 1 && rest[..1] == [b] && rest[1 + 1..] == [];
    Snoc([], b);
    assert [] + [b] == [b];
    assert DataIn([]) == [] by { NoData(); }
    assert [a] + [] == [a];
  }

  lemma NoData()
    ensures DataIn([]) == []
  {
  }

  lemma TrimStart(s: string)
    requires s != "" && !IsSpace(s[0])
    ensures Trim(s) == "" || Trim(s)[0] == s[0]
  {
    hide IsSpace;
    TrimPrefix(s);
  }

  lemma {:induction false} TrimPrefix(s: string)
    ensures TrimRight(s) <= s
    decreases |s|
  {
    hide IsSpace;
    if s != "" && IsSpace(s[|s| - 1]) { TrimPrefix(s[..|s| - 1]); }
  }

  lemma OtherKind(rest: string)
    ensures Parse("event:x" + rest).KindField? && Parse("event:x" + rest).kind != "operation"
  {
    var line := "event:x" + rest;
    assert line[..6] == "event:" && line[0] == 'e' && line[6..] == "x" + rest;
    TrimStart("x" + rest);
    hide Trim, FromDecimal, DropSpaces;
  }

  /** A completed snapshot whose result text holds a break followed by `event:x`: its frame is passed in silence, and with
      the next event the cursor moves past it for good. */
  lemma SnapshotPassed(w: Names, id: nat, a: string, sep: char, b: string, next: string, cursor: nat, accepts: (nat, string) -> bool)
    requires Plain(w) && OneLine(a) && OneLine(b) && IsBreak(sep) && cursor < id
    requires Fits(Operation(id, SnapshotText(w, a + [sep] + ("event:x" + b))))
    requires next != "" && next[0] != ' ' && OneLine(next) && Fits(Operation(id + 1, next)) && accepts(id + 1, next)
    ensures var data := SnapshotText(w, a + [sep] + ("event:x" + b));
      var r := Read(Render(Operation(id, data)) + Render(Operation(id + 1, next)), cursor, accepts);
      !r.failed && r.cursor == id + 1 && r.ingested == [(id + 1, next)]
  {
    PassedText(w, id, a, sep, b, cursor);
    hide Opening, Closing, Fits, Render, Read, OneLine, IsBreak, SilentlyPassed, SnapshotText;
    PassedForGood(id, SnapshotText(w, a + [sep] + ("event:x" + b)), next, cursor, accepts);
  }

  lemma PassedText(w: Names, id: nat, a: string, sep: char, b: string, cursor: nat)
    requires Plain(w) && OneLine(a) && OneLine(b) && IsBreak(sep)
    requires Fits(Operation(id, SnapshotText(w, a + [sep] + ("event:x" + b))))
    ensures var data := SnapshotText(w, a + [sep] + ("event:x" + b));
      SilentlyPassed(id, data, cursor) && data != "" && data[0] == '{'
  {
    hide Opening, Closing, ToDecimal, OneLine, IsBreak, Parse, SilentlyPassed;
    Printable("event:x");
    LinesTogether("event:x", b);
    SnapshotParts(w, a, sep, "event:x" + b);
    var before, after := Opening(w) + a, "event:x" + b + Closing(w);
    assert after == "event:x" + (b + Closing(w));
    OtherKind(b + Closing(w));
    OneBreakFate(id, before, sep, after, cursor);
    assert (before + [sep] + after)[0] == before[0];
  }
}
