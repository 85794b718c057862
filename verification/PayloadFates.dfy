/** What becomes of a frame whose payload holds a line break: the reader stops at it, or passes it in silence.

    The payload is JSON with its characters unescaped, so a break can only stand inside a string.  Whatever follows the
    break is read as lines of its own. */
module PayloadFates {
  import opened Common
  import opened Decimal
  import opened SseFrames

  // ---------------------------------------------------------------- the lines of a payload

  /** The lines from the payload on, the first without its field name. */
  function PayloadLines(data: string): seq<string> {
    Split(data + NL + NL, "")
  }

  predicate EndsLine(text: string) {
    text != "" && text[|text| - 1] == '\n'
  }

  lemma {:induction false} SplitTwo(text: string, more: string, line: string)
    requires EndsLine(text)
    ensures Split(text + more, line) == Split(text, line) + Split(more, "")
    decreases |text|
  {
    var all := text + more;
    if !IsBreak(text[0]) {
      assert all[1..] == text[1..] + more;
      SplitTwo(text[1..], more, line + [text[0]]);
    } else {
      var n := if text[0] == '\r' && text[1] == '\n' then 2 else 1;
      assert all[n..] == text[n..] + more;
      if text[n..] == "" {
        assert all[n..] == more;
      } else {
        SplitTwo(text[n..], more, "");
      }
    }
  }

  /** What was seen of the current line only lengthens the first line. */
  lemma {:induction false} SplitLead(text: string, a: string, line: string)
    requires EndsLine(text)
    ensures var lines := Split(text, line); lines != [] && Split(text, a + line) == [a + lines[0]] + lines[1..]
    decreases |text|
  {
    if !IsBreak(text[0]) {
      assert a + line + [text[0]] == a + (line + [text[0]]);
      SplitLead(text[1..], a, line + [text[0]]);
    }
  }

  lemma {:induction false} SplitAfter(a: string, text: string, line: string)
    requires OneLine(a)
    ensures Split(a + text, line) == Split(text, line + a)
    decreases |a|
  {
    if a == "" {
      assert a + text == text && line + a == line;
    } else {
      assert (a + text)[0] == a[0] && !IsBreak(a[0]) && (a + text)[1..] == a[1..] + text;
      SplitAfter(a[1..], text, line + [a[0]]);
      assert line + [a[0]] + a[1..] == line + a;
    }
  }

  /** The last line of a payload is the blank one that ends the frame. */
  lemma PayloadEnds(data: string)
    ensures var lines := PayloadLines(data); |lines| >= 2 && lines[|lines| - 1] == ""
  {
    SplitTwo(data + NL, NL, "");
    SplitLead(data + NL, "", "");
    SplitLine("", "", "");
    assert "" + NL + "" == NL && "" + "" == "";
  }

  /** The lines of a frame whatever its payload: a complete frame with the payload's first line, then the rest. */
  lemma FrameSplit(id: nat, data: string, more: string)
    ensures var lines := PayloadLines(data);
      lines != [] && Split(Render(Operation(id, data)) + more, "") == FrameLines(Operation(id, lines[0])) + (lines[1..] + Split(more, ""))
  {
    hide Split, IsBreak, ToDecimal;
    var head, body, tail := ["id: " + ToDecimal(id), EVENT_LINE], data + NL + NL, "data: " + data + NL + NL;
    CleanLines(Operation(id, ""));
    assert forall l :: l in head ==> l in FrameLines(Operation(id, "")) + [""];
    RenderTail(id, data);
    assert Render(Operation(id, data)) + more == Unlines(head) + (tail + more);
    SplitUnlines(head, tail + more);
    SplitTwo(tail, more, "");
    Printable("data: ");
    assert tail == "data: " + body;
    SplitAfter("data: ", body, "");
    assert "" + "data: " == "data: " + "";
    SplitLead(body, "data: ", "");
  }

  // ---------------------------------------------------------------- one event

  function LastId(lines: seq<string>, id: Option<nat>): Option<nat> {
    if lines == [] then id
    else
      var field := Parse(lines[|lines| - 1]);
      if field.IdField? then field.id else LastId(lines[..|lines| - 1], id)
  }

  function LastKind(lines: seq<string>, kind: string): string {
    if lines == [] then kind
    else
      var field := Parse(lines[|lines| - 1]);
      if field.KindField? then field.kind else LastKind(lines[..|lines| - 1], kind)
  }

  function DataIn(lines: seq<string>): seq<string> {
    if lines == [] then []
    else
      var field := Parse(lines[|lines| - 1]);
      DataIn(lines[..|lines| - 1]) + if field.DataField? then [field.data] else []
  }

  function Total(lines: seq<string>): nat {
    if lines == [] then 0 else Total(lines[..|lines| - 1]) + |lines[|lines| - 1]|
  }

  predicate NumbersParse(lines: seq<string>) {
    forall l :: l in lines && Parse(l).IdField? ==> Parse(l).id.Some?
  }

  /** The reader when all lines of an event but the blank one are read. */
  function Collected(r: Reader, lines: seq<string>): Reader {
    r.(id := LastId(lines, r.id), kind := LastKind(lines, r.kind), data := r.data + DataIn(lines), size := r.size + Total(lines))
  }

  predicate Stopped(r: Reader, r': Reader) {
    r'.failed && r'.cursor == r.cursor && r'.ingested == r.ingested
  }

  lemma {:induction false} LinesCollected(r: Reader, accepts: (nat, string) -> bool, lines: seq<string>)
    requires !r.failed && r.size <= BOUND && "" !in lines
    ensures var r' := ReadLines(r, accepts, lines);
      if r.size + Total(lines) <= BOUND && NumbersParse(lines) then r' == Collected(r, lines) else Stopped(r, r')
    decreases |lines|
  {
    if lines == [] {
      assert r.data + [] == r.data;
    } else {
      var before, line := lines[..|lines| - 1], lines[|lines| - 1];
      assert lines == before + [line];
      LinesCollected(r, accepts, before);
      ReadAppend(r, accepts, before, [line]);
      var r1 := ReadLines(r, accepts, before);
      OneLineMore(r1, accepts, line);
      NumbersSplit(before, line);
      hide ReadLines, ReadLine, Parse, NumbersParse;
      if !r1.failed { CollectedMore(r, accepts, before, line); }
    }
  }

  lemma NumbersSplit(before: seq<string>, line: string)
    ensures NumbersParse(before + [line]) <==> NumbersParse(before) && (Parse(line).IdField? ==> Parse(line).id.Some?)
  {
    hide Parse;
    assert forall l :: l in before + [line] <==> l in before || l == line;
  }

  lemma OneLineMore(r: Reader, accepts: (nat, string) -> bool, line: string)
    ensures ReadLines(r, accepts, [line]) == if r.failed then r else ReadLine(r, accepts, line)
  {
    ReadFirst(r, accepts, line, []);
    assert [line] + [] == [line];
  }

  lemma CollectedMore(r: Reader, accepts: (nat, string) -> bool, before: seq<string>, line: string)
    requires r.size + Total(before) <= BOUND && line != ""
    ensures var r' := ReadLine(Collected(r, before), accepts, line);
      if r.size + Total(before + [line]) <= BOUND && (Parse(line).IdField? ==> Parse(line).id.Some?)
      then r' == Collected(r, before + [line]) else Stopped(r, r')
  {
    hide Parse, LastId, LastKind, DataIn, Total;
    NotBlank(line);
    Snoc(before, line);
    var data := r.data + DataIn(before);
    assert Parse(line).DataField? ==> r.data + (DataIn(before) + [Parse(line).data]) == data + [Parse(line).data];
  }

  lemma Snoc(before: seq<string>, line: string)
    ensures var lines := before + [line]; var field := Parse(line);
      && Total(lines) == Total(before) + |line|
      && (forall id :: LastId(lines, id) == if field.IdField? then field.id else LastId(before, id))
      && (forall kind :: LastKind(lines, kind) == if field.KindField? then field.kind else LastKind(before, kind))
      && DataIn(lines) == if field.DataField? then DataIn(before) + [field.data] else DataIn(before)
  {
    hide Parse;
    var lines := before + [line];
    assert lines[..|lines| - 1] == before && lines[|lines| - 1] == line;
  }

  lemma NotBlank(line: string)
    ensures Parse(line).Blank? <==> line == ""
  {
    hide Trim, FromDecimal, DropSpaces;
  }

  // ---------------------------------------------------------------- the rest of the frame

  function FirstBlank(lines: seq<string>): (n: nat)
    ensures n <= |lines| && "" !in lines[..n] && (n < |lines| ==> lines[n] == "")
  {
    if lines == [] || lines[0] == "" then 0
    else
      var n := FirstBlank(lines[1..]);
      assert lines[..n + 1] == [lines[0]] + lines[1..][..n];
      n + 1
  }

  /** An event with these lines, begun as `id`, `kind` and `gathered` say, comes to nothing at its blank line: it stays
      within the bound, its numbers parse, and it has no data, is no operation, or is not above the cursor. */
  predicate EventPasses(lines: seq<string>, id: Option<nat>, kind: string, gathered: bool, size: nat, cursor: nat) {
    && size + Total(lines) <= BOUND && NumbersParse(lines)
    && ((!gathered && DataIn(lines) == []) || LastKind(lines, kind) != "operation"
        || (LastId(lines, id).Some? && LastId(lines, id).value <= cursor))
  }

  /** So do all events of these lines. */
  predicate AllPass(lines: seq<string>, cursor: nat)
    decreases |lines|
  {
    var n := FirstBlank(lines);
    lines == [] || (EventPasses(lines[..n], None, "message", false, 0, cursor) && (n < |lines| ==> AllPass(lines[n + 1..], cursor)))
  }

  /** The payload text is broken so that its frame is passed: the event it begins comes to nothing, and so does every
      event the remaining lines form. */
  predicate SilentlyPassed(id: nat, data: string, cursor: nat) {
    var lines := PayloadLines(data);
    && !OneLine(data) && |lines| >= 2
    && var rest := lines[1..]; var n := FirstBlank(rest);
       && EventPasses(rest[..n], Some(id), "operation", true, 26 + |ToDecimal(id)| + |lines[0]|, cursor)
       && (n < |rest| ==> AllPass(rest[n + 1..], cursor))
  }

  /** No text put together from the data of these lines is accepted. */
  ghost predicate AllRefused(lines: seq<string>, accepts: (nat, string) -> bool)
    decreases |lines|
  {
    var n := FirstBlank(lines);
    lines == [] || ((forall m: nat :: !accepts(m, Join(DataIn(lines[..n])))) && (n < |lines| ==> AllRefused(lines[n + 1..], accepts)))
  }

  ghost predicate PiecesRefused(data: string, accepts: (nat, string) -> bool) {
    var lines := PayloadLines(data);
    lines != [] ==>
      var rest := lines[1..]; var n := FirstBlank(rest);
      && (forall m: nat :: !accepts(m, Join([lines[0]] + DataIn(rest[..n]))))
      && (n < |rest| ==> AllRefused(rest[n + 1..], accepts))
  }

  lemma EventFate(r: Reader, accepts: (nat, string) -> bool, lines: seq<string>)
    requires !r.failed && r.size <= BOUND && "" !in lines
    requires forall m: nat :: !accepts(m, Join(r.data + DataIn(lines)))
    ensures var r' := ReadLines(r, accepts, lines + [""]);
      if EventPasses(lines, r.id, r.kind, r.data != [], r.size, r.cursor) then r' == Reset(r) else Stopped(r, r')
  {
    hide ReadLines, NumbersParse, Parse, LastId, LastKind, Join, Total, DataIn;
    LinesCollected(r, accepts, lines);
    ReadAppend(r, accepts, lines, [""]);
    LastLine(ReadLines(r, accepts, lines), accepts);
  }

  lemma {:induction false} RestFate(r: Reader, accepts: (nat, string) -> bool, lines: seq<string>)
    requires r == Reset(r) && !r.failed && AllRefused(lines, accepts)
    requires lines != [] ==> lines[|lines| - 1] == ""
    ensures var r' := ReadLines(r, accepts, lines); if AllPass(lines, r.cursor) then r' == r else Stopped(r, r')
    decreases |lines|, 1
  {
    hide ReadLine, EventPasses, Join, DataIn, AllRefused, AllPass;
    if lines != [] {
      hide ReadLines;
      var n := FirstBlank(lines);
      RefusedFirst(lines, accepts);
      assert r.data + DataIn(lines[..n]) == DataIn(lines[..n]);
      TailFate(r, accepts, lines);
    }
    PassFirst(lines, r.cursor);
  }

  lemma RefusedFirst(lines: seq<string>, accepts: (nat, string) -> bool)
    requires AllRefused(lines, accepts) && lines != []
    ensures var n := FirstBlank(lines);
      (forall m: nat :: !accepts(m, Join(DataIn(lines[..n])))) && (n < |lines| ==> AllRefused(lines[n + 1..], accepts))
  {
    hide Join, DataIn;
  }

  lemma PassFirst(lines: seq<string>, cursor: nat)
    ensures var n := FirstBlank(lines);
      AllPass(lines, cursor) <==>
        (lines == [] || (EventPasses(lines[..n], None, "message", false, 0, cursor) && (n < |lines| ==> AllPass(lines[n + 1..], cursor))))
  {
    hide EventPasses;
  }

  lemma BlankFound(lines: seq<string>)
    requires lines != [] && lines[|lines| - 1] == ""
    ensures FirstBlank(lines) < |lines|
  {
    assert lines[..|lines|] == lines;
  }

  /** From anywhere inside an event: its remaining lines, its blank line, and the events after it. */
  lemma {:induction false} TailFate(r: Reader, accepts: (nat, string) -> bool, lines: seq<string>)
    requires !r.failed && r.size <= BOUND && lines != [] && lines[|lines| - 1] == ""
    requires var n := FirstBlank(lines);
      (forall m: nat :: !accepts(m, Join(r.data + DataIn(lines[..n])))) && (n < |lines| ==> AllRefused(lines[n + 1..], accepts))
    ensures var n := FirstBlank(lines); var r' := ReadLines(r, accepts, lines);
      if EventPasses(lines[..n], r.id, r.kind, r.data != [], r.size, r.cursor) && (n < |lines| ==> AllPass(lines[n + 1..], r.cursor))
      then r' == Reset(r) else Stopped(r, r')
    decreases |lines|, 0
  {
    hide ReadLine, ReadLines, EventPasses, Join, DataIn, AllRefused, AllPass;
    var n := FirstBlank(lines);
    BlankFound(lines);
    var first, rest := lines[..n], lines[n + 1..];
    assert lines == first + [""] + rest;
    EventFate(r, accepts, first);
    ReadAppend(r, accepts, first + [""], rest);
    var r1 := ReadLines(r, accepts, first + [""]);
    if r1.failed { ReadFailed(r1, accepts, rest); } else { RestFate(r1, accepts, rest); }
  }

  lemma NothingSplit()
    ensures Split("", "") == []
  {
  }

  lemma FirstChar(data: string)
    requires data != ""
    ensures var lines := PayloadLines(data); lines != [] && (lines[0] == "" || lines[0][0] == data[0])
  {
    var text := data + NL + NL;
    if !IsBreak(data[0]) {
      SplitLead(text[1..], [data[0]], "");
      assert "" + [text[0]] == [data[0]] + "";
    }
  }

  lemma TooLong(id: nat, data: string, cursor: nat)
    requires PayloadLines(data) != [] && !Fits(Operation(id, PayloadLines(data)[0]))
    ensures !SilentlyPassed(id, data, cursor)
  {
    hide PayloadLines, ToDecimal, AllPass, LastId, LastKind, DataIn, NumbersParse, OneLine;
  }

  /** The fate of a frame with a broken payload, read between frames, when none of its pieces is accepted: it is passed and
      leaves no trace exactly when `SilentlyPassed` says so; otherwise the reader stops with the cursor unmoved. */
  lemma BrokenFate(r: Reader, accepts: (nat, string) -> bool, id: nat, data: string)
    requires r == Reset(r) && !r.failed && !OneLine(data) && data[0] != ' ' && PiecesRefused(data, accepts)
    ensures var r' := ReadLines(r, accepts, Split(Render(Operation(id, data)), ""));
      if SilentlyPassed(id, data, r.cursor) then r' == r else Stopped(r, r')
  {
    assert data != "";
    hide ReadLines, Split, EventPasses, AllPass, AllRefused, Render, FrameLines, Join, ToDecimal, OneLine, DataIn;
    PayloadEnds(data);
    FrameSplit(id, data, "");
    FirstChar(data);
    var lines := PayloadLines(data);
    assert Render(Operation(id, data)) + "" == Render(Operation(id, data));
    assert Split("", "") == [] by { NothingSplit(); }
    var rest := lines[1..];
    assert rest + [] == rest;
    OperationRead(r, accepts, id, lines[0], rest);
    if Fits(Operation(id, lines[0])) {
      TailFate(Gathered(r, id, lines[0]), accepts, rest);
    } else {
      TooLong(id, data, r.cursor);
    }
  }

  /** What is passed at one cursor is passed at every later one. */
  lemma PassedLater(id: nat, data: string, low: nat, high: nat)
    requires SilentlyPassed(id, data, low) && low <= high
    ensures SilentlyPassed(id, data, high)
  {
    hide PayloadLines, ToDecimal, EventPasses, OneLine, AllPass;
    var lines := PayloadLines(data);
    var rest := lines[1..];
    var n := FirstBlank(rest);
    EventLater(rest[..n], Some(id), "operation", true, 26 + |ToDecimal(id)| + |lines[0]|, low, high);
    if n < |rest| { AllLater(rest[n + 1..], low, high); }
  }

  lemma EventLater(lines: seq<string>, id: Option<nat>, kind: string, gathered: bool, size: nat, low: nat, high: nat)
    requires low <= high && EventPasses(lines, id, kind, gathered, size, low)
    ensures EventPasses(lines, id, kind, gathered, size, high)
  {
    hide NumbersParse;
  }

  lemma {:induction false} AllLater(lines: seq<string>, low: nat, high: nat)
    requires low <= high && AllPass(lines, low)
    ensures AllPass(lines, high)
    decreases |lines|
  {
    hide EventPasses;
    if lines != [] {
      var n := FirstBlank(lines);
      EventLater(lines[..n], None, "message", false, 0, low, high);
      if n < |lines| { AllLater(lines[n + 1..], low, high); }
    }
  }

  // ---------------------------------------------------------------- why no piece is accepted

  /** Where a JSON text stands: between strings, in a string, after a backslash in one, or no longer JSON. */
  datatype Place = Outside | Inside | Escaped | Wrong

  function Passing(p: Place, c: char): Place {
    match p
    case Outside => if c == '"' then Inside else if c == '\\' then Wrong else Outside
    case Inside => if c == '"' then Outside else if c == '\\' then Escaped else if c < ' ' then Wrong else Inside
    case Escaped => if c in "\"\\/bfnrtu" then Inside else Wrong
    case Wrong => Wrong
  }

  function PlaceAfter(p: Place, text: string): Place
    decreases |text|
  {
    if text == "" then p else PlaceAfter(Passing(p, text[0]), text[1..])
  }

  /** What the JSON writer guarantees: the text never goes wrong, and outside its strings there is neither a line
      break nor an underscore, only punctuation, numbers, `true`, `false` and `null`. */
  predicate Written(p: Place, text: string)
    decreases |text|
  {
    !p.Wrong? && (text == "" || (!(p.Outside? && (IsBreak(text[0]) || text[0] == '_')) && Written(Passing(p, text[0]), text[1..])))
  }

  /** Some string holds an underscore, or an escape that could stand for one. */
  predicate Underscored(p: Place, text: string)
    decreases |text|
  {
    text != "" && ((p.Inside? && (text[0] == '_' || text[0] == '\\')) || Underscored(Passing(p, text[0]), text[1..]))
  }

  /** What the client's JSON reader and `accept_snapshot` demand at least: strings are closed and hold no control
      characters, and there is a member named `operation_id`. */
  ghost predicate Strict(accepts: (nat, string) -> bool) {
    forall n: nat, text :: accepts(n, text) ==> PlaceAfter(Outside, text).Outside? && Underscored(Outside, text)
  }

  lemma {:induction false} PlaceAppend(p: Place, a: string, b: string)
    ensures PlaceAfter(p, a + b) == PlaceAfter(PlaceAfter(p, a), b)
    decreases |a|
  {
    if a == "" {
      assert a + b == b;
    } else {
      assert (a + b)[0] == a[0] && (a + b)[1..] == a[1..] + b;
      PlaceAppend(Passing(p, a[0]), a[1..], b);
    }
  }

  lemma {:induction false} WrongStays(text: string)
    ensures PlaceAfter(Wrong, text).Wrong? && !Underscored(Wrong, text)
    decreases |text|
  {
    if text != "" { WrongStays(text[1..]); }
  }

  lemma {:induction false} WrittenMore(p: Place, a: string, c: char)
    requires Written(p, a) && !(PlaceAfter(p, a).Outside? && (IsBreak(c) || c == '_')) && !Passing(PlaceAfter(p, a), c).Wrong?
    ensures Written(p, a + [c]) && PlaceAfter(p, a + [c]) == Passing(PlaceAfter(p, a), c)
    decreases |a|
  {
    hide IsBreak;
    if a == "" {
      assert a + [c] == [c] && [c][1..] == "";
    } else {
      assert (a + [c])[0] == a[0] && (a + [c])[1..] == a[1..] + [c];
      WrittenMore(Passing(p, a[0]), a[1..], c);
    }
  }

  /** Breaks stand inside strings, so every line that starts after one starts inside a string. */
  lemma {:induction false} LinesInside(data: string, line: string)
    requires Written(Inside, line) && Written(PlaceAfter(Inside, line), data)
    ensures forall l :: l in Split(data + NL + NL, line) ==> Written(Inside, l)
    decreases |data|
  {
    var text := data + NL + NL;
    if data == "" {
      assert text == NL + NL && text[1..] == NL && NL[1..] == "";
      assert Split(text, line) == [line, ""];
    } else {
      assert text[0] == data[0] && text[1..] == data[1..] + NL + NL;
      if !IsBreak(data[0]) {
        WrittenMore(Inside, line, data[0]);
        LinesInside(data[1..], line + [data[0]]);
      } else {
        assert Written(Passing(PlaceAfter(Inside, line), data[0]), data[1..]);
        assert PlaceAfter(Inside, line).Inside? && data[0] >= ' ';
        LinesInside(data[1..], "");
      }
    }
  }

  /** The first line ends inside a string. */
  lemma {:induction false} FirstInside(data: string, line: string)
    requires Written(PlaceAfter(Outside, line), data) && !OneLine(data)
    ensures var lines := Split(data + NL + NL, line);
      lines != [] && PlaceAfter(Outside, lines[0]).Inside? && forall l :: l in lines[1..] ==> Written(Inside, l)
    decreases |data|
  {
    var text := data + NL + NL;
    assert text[0] == data[0] && text[1..] == data[1..] + NL + NL;
    if !IsBreak(data[0]) {
      PlaceAppend(Outside, line, [data[0]]);
      assert [data[0]][1..] == "";
      FirstInside(data[1..], line + [data[0]]);
    } else {
      assert Written(Passing(PlaceAfter(Outside, line), data[0]), data[1..]);
      assert PlaceAfter(Outside, line).Inside? && data[0] >= ' ';
      LinesInside(data[1..], "");
    }
  }

  /** Read from outside, text that belongs inside a string swaps strings and the rest: what the writer put between its
      strings is what the reader takes for strings, and that holds no underscore. */
  lemma {:induction false} Swapped(p: Place, q: Place, text: string)
    requires Written(p, text) && ((p.Inside? && q.Outside?) || (p.Outside? && q.Inside?) || q.Wrong?)
    ensures !Underscored(q, text) && !PlaceAfter(q, text).Escaped?
    decreases |text|
  {
    if q.Wrong? {
      WrongStays(text);
    } else if text != "" {
      Swapped(Passing(p, text[0]), Passing(q, text[0]), text[1..]);
    }
  }

  lemma {:induction false} UnderscoredAppend(p: Place, a: string, b: string)
    ensures Underscored(p, a + b) <==> Underscored(p, a) || Underscored(PlaceAfter(p, a), b)
    decreases |a|
  {
    if a == "" {
      assert a + b == b;
    } else {
      assert (a + b)[0] == a[0] && (a + b)[1..] == a[1..] + b;
      UnderscoredAppend(Passing(p, a[0]), a[1..], b);
    }
  }

  /** A newline outside strings changes nothing, and inside one it is not JSON. */
  lemma AfterNewline(p: Place)
    ensures PlaceAfter(p, NL) == (if p.Outside? then Outside else Wrong) && !Underscored(p, NL)
  {
    assert NL[1..] == "";
  }

  lemma JoinMore(data: seq<string>, item: string)
    ensures Join(data + [item]) == if data == [] then item else Join(data) + (NL + item)
  {
    assert (data + [item])[..|data|] == data;
  }

  lemma {:induction false} JoinedPieces(data: seq<string>)
    requires forall x :: x in data ==> Written(Inside, x)
    ensures !Underscored(Outside, Join(data)) && !PlaceAfter(Outside, Join(data)).Escaped?
    decreases |data|
  {
    if data != [] {
      hide Join, Written, Underscored, PlaceAfter;
      var before, item := data[..|data| - 1], data[|data| - 1];
      assert data == before + [item] && item in data;
      JoinMore(before, item);
      if before == [] {
        Swapped(Inside, Outside, item);
      } else {
        assert forall x :: x in before ==> x in data;
        JoinedPieces(before);
        var p := PlaceAfter(Outside, Join(before));
        AfterNewline(p);
        Swapped(Inside, PlaceAfter(p, NL), item);
        UnderscoredAppend(p, NL, item);
        PlaceAppend(p, NL, item);
        UnderscoredAppend(Outside, Join(before), NL + item);
        PlaceAppend(Outside, Join(before), NL + item);
      }
    } else {
      assert Join(data) == "";
    }
  }

  /** A text that begins with an unfinished string and goes on after a newline is never finished. */
  lemma {:induction false} NeverFinished(first: string, data: seq<string>)
    requires PlaceAfter(Outside, first).Inside?
    ensures var p := PlaceAfter(Outside, Join([first] + data)); p.Inside? || p.Wrong?
    decreases |data|
  {
    hide Join, PlaceAfter;
    if data == [] {
      JoinMore([], first);
      assert [] + [first] == [first] + data;
    } else {
      var before, item := data[..|data| - 1], data[|data| - 1];
      assert [first] + data == [first] + before + [item];
      NeverFinished(first, before);
      JoinMore([first] + before, item);
      var text := Join([first] + before);
      AfterNewline(PlaceAfter(Outside, text));
      PlaceAppend(Outside, text, NL + item);
      PlaceAppend(PlaceAfter(Outside, text), NL, item);
      WrongStays(item);
    }
  }

  lemma {:induction false} SpacesDropped(text: string)
    requires Written(Inside, text)
    ensures Written(Inside, DropSpaces(text))
    decreases |text|
  {
    if text != "" && text[0] == ' ' { SpacesDropped(text[1..]); }
  }

  lemma PieceInside(line: string)
    requires Written(Inside, line) && Parse(line).DataField?
    ensures Written(Inside, Parse(line).data)
  {
    hide Trim, FromDecimal, IsBreak;
    var a := line[1..];
    var b := a[1..];
    var c := b[1..];
    var d := c[1..];
    assert line[..5] == "data:" && line[0] == 'd' && line[1] == 'a' && line[2] == 't' && line[3] == 'a' && line[4] == ':';
    assert a[0] == 'a' && b[0] == 't' && c[0] == 'a' && d[0] == ':';
    assert Written(Inside, a) && Written(Inside, b);
    assert Written(Inside, c) && Written(Inside, d);
    assert d[1..] == line[5..];
    SpacesDropped(line[5..]);
  }

  lemma {:induction false} PiecesInside(lines: seq<string>)
    requires forall l :: l in lines ==> Written(Inside, l)
    ensures forall x :: x in DataIn(lines) ==> Written(Inside, x)
    decreases |lines|
  {
    hide Written, Parse;
    if lines != [] {
      var before, line := lines[..|lines| - 1], lines[|lines| - 1];
      assert line in lines && forall l :: l in before ==> l in lines;
      PiecesInside(before);
      if Parse(line).DataField? { PieceInside(line); }
    }
  }

  lemma {:induction false} RestRefused(lines: seq<string>, accepts: (nat, string) -> bool)
    requires Strict(accepts) && forall l :: l in lines ==> Written(Inside, l)
    ensures AllRefused(lines, accepts)
    decreases |lines|
  {
    hide Written, Underscored, PlaceAfter, Join, DataIn;
    if lines != [] {
      var n := FirstBlank(lines);
      assert forall l :: l in lines[..n] ==> l in lines;
      PiecesInside(lines[..n]);
      JoinedPieces(DataIn(lines[..n]));
      if n < |lines| {
        assert forall l :: l in lines[n + 1..] ==> l in lines;
        RestRefused(lines[n + 1..], accepts);
      }
    }
  }

  /** Nothing a broken JSON payload falls into is taken for a snapshot. */
  lemma JsonPiecesRefused(data: string, accepts: (nat, string) -> bool)
    requires Written(Outside, data) && !OneLine(data) && Strict(accepts)
    ensures PiecesRefused(data, accepts)
  {
    assert PlaceAfter(Outside, "") == Outside;
    FirstInside(data, "");
    hide Split, Written, Underscored, PlaceAfter, Join, DataIn, AllRefused, OneLine;
    var lines := PayloadLines(data);
    var rest := lines[1..];
    var n := FirstBlank(rest);
    NeverFinished(lines[0], DataIn(rest[..n]));
    if n < |rest| {
      assert forall l :: l in rest[n + 1..] ==> l in rest;
      RestRefused(rest[n + 1..], accepts);
    }
  }
}
