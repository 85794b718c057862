/** The event stream on the wire: frames as the broker writes them, lines as the client reads them. */
module SseFrames {
  import opened Common
  import opened Decimal

  /** `data` is the one-line JSON text of a snapshot or of an error. */
  datatype Frame = Operation(id: nat, data: string) | Failure(data: string) | Keepalive

  const NL := "\n"
  const EVENT_LINE := "event: " + "operation"
  const ERROR_LINE := "event: " + "error"
  const KEEPALIVE_LINE := ": keepalive"
  const BOUND := 2097152

  /** The lines of a frame before the blank line that ends it. */
  function FrameLines(f: Frame): seq<string> {
    match f
    case Operation(id, data) => ["id: " + ToDecimal(id), EVENT_LINE, "data: " + data]
    case Failure(data) => [ERROR_LINE, "data: " + data]
    case Keepalive => [KEEPALIVE_LINE]
  }

  function Unlines(lines: seq<string>): string {
    if lines == [] then "" else lines[0] + NL + Unlines(lines[1..])
  }

  /** What the broker yields for a frame. */
  function Render(f: Frame): string {
    Unlines(FrameLines(f) + [""])
  }

  function RenderAll(frames: seq<Frame>): string {
    if frames == [] then "" else Render(frames[0]) + RenderAll(frames[1..])
  }

  // ---------------------------------------------------------------- line splitting

  /** Every character at which the client's line iterator breaks a line. */
  predicate IsBreak(c: char) {
    || c == '\n' || c == '\r' || c == '\U{0B}' || c == '\U{0C}' || c == '\U{1C}' || c == '\U{1D}' || c == '\U{1E}'
    || c == '\U{85}' || c == '\U{2028}' || c == '\U{2029}'
  }

  predicate OneLine(s: string) {
    forall c :: c in s ==> !IsBreak(c)
  }

  /** The lines of `line + text`, where `line` is the part of the current line already seen.  A carriage return
      and the newline after it are one break; an unfinished last line is a line. */
  function Split(text: string, line: string): seq<string>
    decreases |text|
  {
    if text == "" then if line == "" then [] else [line]
    else if !IsBreak(text[0]) then Split(text[1..], line + [text[0]])
    else if text[0] == '\r' && |text| > 1 && text[1] == '\n' then [line] + Split(text[2..], "")
    else [line] + Split(text[1..], "")
  }

  lemma {:induction false} SplitLine(a: string, rest: string, line: string)
    requires OneLine(a)
    ensures Split(a + NL + rest, line) == [line + a] + Split(rest, "")
    decreases |a|
  {
    var text := a + NL + rest;
    if a == "" {
      assert text[0] == '\n' && text[1..] == rest;
      assert line + a == line;
    } else {
      assert text[0] == a[0] && !IsBreak(a[0]);
      assert text[1..] == a[1..] + NL + rest;
      SplitLine(a[1..], rest, line + [a[0]]);
      assert line + [a[0]] + a[1..] == line + a;
    }
  }

  lemma UnlinesFirst(lines: seq<string>, rest: string)
    requires lines != []
    ensures Unlines(lines) + rest == lines[0] + NL + (Unlines(lines[1..]) + rest)
  {
  }

  lemma Glue(lines: seq<string>, more: seq<string>)
    requires lines != []
    ensures [lines[0]] + (lines[1..] + more) == lines + more
  {
  }

  lemma {:induction false} SplitUnlines(lines: seq<string>, rest: string)
    requires forall l :: l in lines ==> OneLine(l)
    ensures Split(Unlines(lines) + rest, "") == lines + Split(rest, "")
    decreases |lines|
  {
    hide Split, OneLine;
    if lines == [] {
      assert Unlines(lines) + rest == rest;
    } else {
      hide Unlines;
      UnlinesFirst(lines, rest);
      assert "" + lines[0] == lines[0];
      SplitLine(lines[0], Unlines(lines[1..]) + rest, "");
      SplitUnlines(lines[1..], rest);
      Glue(lines, Split(rest, ""));
    }
  }

  predicate Clean(f: Frame) {
    f.Keepalive? || OneLine(f.data)
  }

  /** Printable ASCII never breaks a line. */
  lemma Printable(s: string)
    requires forall c :: c in s ==> ' ' <= c <= '~'
    ensures OneLine(s)
  {
  }

  lemma CleanLines(f: Frame)
    requires Clean(f)
    ensures forall l :: l in FrameLines(f) + [""] ==> OneLine(l)
  {
    hide IsBreak, ToDecimal;
    Printable("");
    match f
    case Operation(id, data) =>
      Printable("id: " + ToDecimal(id));
      Printable(EVENT_LINE);
      Printable("data: ");
    case Failure(data) =>
      Printable(ERROR_LINE);
      Printable("data: ");
    case Keepalive => Printable(KEEPALIVE_LINE);
  }

  lemma {:induction false} UnlinesAppend(a: seq<string>, b: seq<string>)
    ensures Unlines(a + b) == Unlines(a) + Unlines(b)
    decreases |a|
  {
    if a == [] {
      assert a + b == b;
    } else {
      assert (a + b)[0] == a[0] && (a + b)[1..] == a[1..] + b;
      UnlinesAppend(a[1..], b);
    }
  }

  lemma UnlinesTwo(line: string)
    ensures Unlines([line, ""]) == line + NL + NL
  {
    assert [line, ""][1..] == [""] && [""][1..] == [];
    assert Unlines([""]) == NL;
  }

  lemma RenderTail(id: nat, data: string)
    ensures Render(Operation(id, data)) == Unlines(["id: " + ToDecimal(id), EVENT_LINE]) + ("data: " + data + NL + NL)
  {
    hide ToDecimal, Unlines;
    var head, last := ["id: " + ToDecimal(id), EVENT_LINE], "data: " + data;
    assert FrameLines(Operation(id, data)) + [""] == head + [last, ""];
    UnlinesAppend(head, [last, ""]);
    UnlinesTwo(last);
  }

  // ---------------------------------------------------------------- the client's reader

  predicate IsSpace(c: char) {
    c == ' ' || c == '\t' || IsBreak(c)
  }

  function TrimLeft(s: string): string {
    if s != "" && IsSpace(s[0]) then TrimLeft(s[1..]) else s
  }

  function TrimRight(s: string): string {
    if s != "" && IsSpace(s[|s| - 1]) then TrimRight(s[..|s| - 1]) else s
  }

  function Trim(s: string): string {
    TrimRight(TrimLeft(s))
  }

  function DropSpaces(s: string): (r: string)
    ensures |r| <= |s|
  {
    if s != "" && s[0] == ' ' then DropSpaces(s[1..]) else s
  }

  predicate StartsWith(s: string, p: string) {
    |p| <= |s| && s[..|p|] == p
  }

  function Join(data: seq<string>): string {
    if data == [] then "" else if |data| == 1 then data[0]
    else Join(data[..|data| - 1]) + NL + data[|data| - 1]
  }

  /** The variables of the reading loop, the durable cursor, and what has been ingested so far. */
  datatype Reader = Reader(
    id: Option<nat>, kind: string, data: seq<string>, size: nat,
    cursor: nat, ingested: seq<(nat, string)>, failed: bool)

  function Fresh(cursor: nat): Reader {
    Reader(None, "message", [], 0, cursor, [], false)
  }

  function Reset(r: Reader): Reader {
    r.(id := None, kind := "message", data := [], size := 0)
  }

  /** The blank line: an operation event above the cursor is ingested, or the loop stops. */
  function Dispatch(r: Reader, accepts: (nat, string) -> bool): Reader {
    if r.data == [] || r.kind != "operation" then Reset(r)
    else if r.id.None? then r.(failed := true)
    else if r.id.value <= r.cursor then Reset(r)
    else if !accepts(r.id.value, Join(r.data)) then r.(failed := true)
    else Reset(r.(cursor := r.id.value, ingested := r.ingested + [(r.id.value, Join(r.data))]))
  }

  datatype Field = Blank | IdField(id: Option<nat>) | KindField(kind: string) | DataField(data: string) | Other

  function Parse(line: string): Field {
    if line == "" then Blank
    else if StartsWith(line, "id:") then IdField(FromDecimal(Trim(line[3..])))
    else if StartsWith(line, "event:") then KindField(Trim(line[6..]))
    else if StartsWith(line, "data:") then DataField(DropSpaces(line[5..]))
    else Other
  }

  /** The loop body, for a line of `n` characters. */
  function ReadField(r: Reader, accepts: (nat, string) -> bool, n: nat, field: Field): Reader {
    var r1 := r.(size := r.size + n);
    if r1.size > BOUND then r1.(failed := true)
    else
      match field
      case Blank => Dispatch(r1, accepts)
      case IdField(id) => if id.None? then r1.(failed := true) else r1.(id := id)
      case KindField(kind) => r1.(kind := kind)
      case DataField(data) => r1.(data := r1.data + [data])
      case Other => r1
  }

  function ReadLine(r: Reader, accepts: (nat, string) -> bool, line: string): Reader {
    ReadField(r, accepts, |line|, Parse(line))
  }

  function ReadLines(r: Reader, accepts: (nat, string) -> bool, lines: seq<string>): Reader
    decreases |lines|
  {
    if lines == [] || r.failed then r else ReadLines(ReadLine(r, accepts, lines[0]), accepts, lines[1..])
  }

  /** Read a whole response body. */
  function Read(text: string, cursor: nat, accepts: (nat, string) -> bool): Reader {
    ReadLines(Fresh(cursor), accepts, Split(text, ""))
  }

  lemma {:induction false} ReadAppend(r: Reader, accepts: (nat, string) -> bool, a: seq<string>, b: seq<string>)
    ensures ReadLines(r, accepts, a + b) == ReadLines(ReadLines(r, accepts, a), accepts, b)
    decreases |a|
  {
    if a == [] {
      assert a + b == b;
    } else if !r.failed {
      assert (a + b)[1..] == a[1..] + b;
      ReadAppend(ReadLine(r, accepts, a[0]), accepts, a[1..], b);
    }
  }

  // ---------------------------------------------------------------- what the frames mean

  /** The size of a frame stays within the client's bound. */
  predicate Fits(f: Frame) {
    match f
    case Operation(id, data) => 4 + |ToDecimal(id)| + 16 + 6 + |data| <= BOUND
    case Failure(data) => 12 + 6 + |data| <= BOUND
    case Keepalive => true
  }

  /** JSON objects never begin with a space, which the reader would strip. */
  predicate WellFormed(f: Frame) {
    Clean(f) && (!f.Keepalive? ==> f.data == "" || f.data[0] != ' ')
  }

  /** Text that neither starts nor ends with white space survives trimming. */
  lemma TrimWord(s: string)
    requires s != "" && !IsSpace(s[0]) && !IsSpace(s[|s| - 1])
    ensures Trim(" " + s) == s
  {
    assert (" " + s)[1..] == s;
    assert TrimLeft(" " + s) == TrimLeft(s) == s;
  }

  lemma DigitNotSpace(c: char)
    requires IsDigit(c)
    ensures !IsSpace(c)
  {
  }

  lemma ParseId(id: nat)
    ensures Parse("id: " + ToDecimal(id)) == IdField(Some(id))
  {
    hide IsBreak, IsSpace;
    var digits := ToDecimal(id);
    DigitNotSpace(digits[0]);
    DigitNotSpace(digits[|digits| - 1]);
    TrimWord(digits);
    var line := "id: " + digits;
    assert line[3..] == " " + digits;
    assert line[..3] == "id:";
    DecimalRoundTrip(id);
  }

  lemma ParseKind(word: string)
    requires word == "operation" || word == "error"
    ensures Parse("event: " + word) == KindField(word)
  {
    var line := "event: " + word;
    TrimWord(word);
    hide Trim, FromDecimal, DropSpaces;
    assert line[0] == 'e' && line[..6] == "event:" && line[6..] == " " + word;
  }

  lemma ParseData(data: string)
    requires data == "" || data[0] != ' '
    ensures Parse("data: " + data) == DataField(data)
  {
    hide Trim, FromDecimal;
    var line := "data: " + data;
    assert line[0] == 'd' && line[..5] == "data:";
    var rest := line[5..];
    assert rest[0] == ' ' && rest[1..] == data;
    assert DropSpaces(rest) == DropSpaces(data) == data;
  }

  lemma ParseComment()
    ensures Parse(KEEPALIVE_LINE) == Other
  {
    hide Trim, FromDecimal, DropSpaces;
    assert KEEPALIVE_LINE[0] == ':';
  }

  // ---------------------------------------------------------------- the reader reads the frames

  lemma ReadFirst(r: Reader, accepts: (nat, string) -> bool, line: string, rest: seq<string>)
    ensures ReadLines(r, accepts, [line] + rest) == if r.failed then r else ReadLines(ReadLine(r, accepts, line), accepts, rest)
  {
    assert ([line] + rest)[1..] == rest;
  }

  lemma ReadFailed(r: Reader, accepts: (nat, string) -> bool, lines: seq<string>)
    requires r.failed
    ensures ReadLines(r, accepts, lines) == r
  {
  }

  lemma LastLine(r: Reader, accepts: (nat, string) -> bool)
    ensures ReadLines(r, accepts, [""]) == if r.failed then r else ReadField(r, accepts, 0, Blank)
  {
    assert [""][1..] == [];
  }

  /** The reader when the lines of an operation frame are read and only the blank line is missing. */
  function Gathered(r: Reader, id: nat, data: string): Reader {
    r.(id := Some(id), kind := "operation", data := [data], size := 26 + |ToDecimal(id)| + |data|)
  }

  lemma OperationRead(r: Reader, accepts: (nat, string) -> bool, id: nat, data: string, rest: seq<string>)
    requires r == Reset(r) && !r.failed && (data == "" || data[0] != ' ')
    ensures var r' := ReadLines(r, accepts, FrameLines(Operation(id, data)) + rest);
      if Fits(Operation(id, data)) then r' == ReadLines(Gathered(r, id, data), accepts, rest)
      else r'.failed && r'.cursor == r.cursor && r'.ingested == r.ingested
  {
    hide ReadLines, ToDecimal, Parse;
    var l1, l3 := "id: " + ToDecimal(id), "data: " + data;
    assert FrameLines(Operation(id, data)) + rest == [l1] + ([EVENT_LINE] + ([l3] + rest));
    ParseId(id);
    ParseKind("operation");
    ParseData(data);
    ReadFirst(r, accepts, l1, [EVENT_LINE] + ([l3] + rest));
    var r1 := ReadLine(r, accepts, l1);
    ReadFirst(r1, accepts, EVENT_LINE, [l3] + rest);
    var r2 := ReadLine(r1, accepts, EVENT_LINE);
    ReadFirst(r2, accepts, l3, rest);
    var r3 := ReadLine(r2, accepts, l3);
    assert |l1| == 4 + |ToDecimal(id)| && |EVENT_LINE| == 16 && |l3| == 6 + |data|;
    if r3.failed {
      ReadFailed(r3, accepts, rest);
    } else {
      assert r.data + [data] == [data];
      assert r3 == Gathered(r, id, data);
    }
  }

  lemma FailureRead(r: Reader, accepts: (nat, string) -> bool, data: string)
    requires r == Reset(r) && !r.failed && (data == "" || data[0] != ' ')
    ensures var r' := ReadLines(r, accepts, FrameLines(Failure(data)) + [""]);
      if Fits(Failure(data)) then r' == r else r'.failed && r'.cursor == r.cursor && r'.ingested == r.ingested
  {
    hide ReadLines, Parse;
    var l2 := "data: " + data;
    assert FrameLines(Failure(data)) + [""] == [ERROR_LINE] + ([l2] + [""]);
    ParseKind("error");
    ParseData(data);
    ReadFirst(r, accepts, ERROR_LINE, [l2] + [""]);
    var r1 := ReadLine(r, accepts, ERROR_LINE);
    ReadFirst(r1, accepts, l2, [""]);
    LastLine(ReadLine(r1, accepts, l2), accepts);
    assert |ERROR_LINE| == 12;
  }

  /** One whole frame, from between frames: either the reader stops, or it is between frames again. */
  lemma FrameRead(r: Reader, accepts: (nat, string) -> bool, f: Frame)
    requires WellFormed(f) && r == Reset(r) && !r.failed
    ensures var r' := ReadLines(r, accepts, FrameLines(f) + [""]);
      if !Fits(f) then r'.failed && r'.cursor == r.cursor && r'.ingested == r.ingested
      else if !f.Operation? || f.id <= r.cursor then r' == r
      else if !accepts(f.id, f.data) then r'.failed && r'.cursor == r.cursor && r'.ingested == r.ingested
      else r' == r.(cursor := f.id, ingested := r.ingested + [(f.id, f.data)])
  {
    hide ReadLines, ToDecimal, Parse, OneLine;
    match f
    case Keepalive =>
      ParseComment();
      ReadFirst(r, accepts, KEEPALIVE_LINE, [""]);
      LastLine(ReadLine(r, accepts, KEEPALIVE_LINE), accepts);
      assert |KEEPALIVE_LINE| == 11;
    case Failure(data) => FailureRead(r, accepts, data);
    case Operation(id, data) =>
      OperationRead(r, accepts, id, data, [""]);
      if Fits(f) { LastLine(Gathered(r, id, data), accepts); }
  }

  /** The loop of `_events`, over the lines of one response. */
  method ReadEvents(lines: seq<string>, cursor: nat, accepts: (nat, string) -> bool)
    returns (newCursor: nat, ingested: seq<(nat, string)>, failed: bool)
    ensures var r := ReadLines(Fresh(cursor), accepts, lines);
      newCursor == r.cursor && ingested == r.ingested && failed == r.failed
  {
    newCursor, ingested, failed := cursor, [], false;
    var eventId: Option<nat> := None;
    var eventType := "message";
    var data: seq<string> := [];
    var size: nat := 0;
    var i := 0;
    while i < |lines| && !failed
      invariant i <= |lines|
      invariant ReadLines(Fresh(cursor), accepts, lines)
             == ReadLines(Reader(eventId, eventType, data, size, newCursor, ingested, failed), accepts, lines[i..])
    {
      var line := lines[i];
      assert lines[i..][0] == line && lines[i..][1..] == lines[i + 1..];
      i := i + 1;
      size := size + |line|;
      if size > BOUND {
        failed := true;
      } else if line == "" {
        if data != [] && eventType == "operation" {
          if eventId.None? {
            failed := true;
            break;
          }
          if eventId.value > newCursor {
            var payload := Join(data);
            if !accepts(eventId.value, payload) {
              failed := true;
              break;
            }
            newCursor, ingested := eventId.value, ingested + [(eventId.value, payload)];
          }
        }
        eventId, eventType, data, size := None, "message", [], 0;
      } else if StartsWith(line, "id:") {
        var id := FromDecimal(Trim(line[3..]));
        if id.None? { failed := true; } else { eventId := id; }
      } else if StartsWith(line, "event:") {
        eventType := Trim(line[6..]);
      } else if StartsWith(line, "data:") {
        data := data + [DropSpaces(line[5..])];
      }
    }
  }
}
