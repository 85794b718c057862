/** What a response tells the client, frame by frame, and that reading its text comes to the same. */
module Deliveries {
  import opened Common
  import opened Decimal
  import opened SseFrames
  import opened PayloadFates

  // ---------------------------------------------------------------- what the frames mean

  /** What a frame does to a reader that stands between frames. */
  datatype Fate = Ingested | Passed | Stops

  /** A frame whose payload is one line is ingested once, above the cursor, if it fits and is accepted; one whose payload
      is broken is never ingested, and its text decides whether the reading goes on. */
  function FateOf(f: Frame, cursor: nat, accepts: (nat, string) -> bool): Fate {
    if f.Operation? && !OneLine(f.data) then if SilentlyPassed(f.id, f.data, cursor) then Passed else Stops
    else if !Fits(f) then Stops
    else if !f.Operation? || f.id <= cursor then Passed
    else if accepts(f.id, f.data) then Ingested else Stops
  }

  datatype Delivery = Delivery(cursor: nat, ingested: seq<(nat, string)>, failed: bool)

  /** The frames themselves, taken one by one. */
  function Deliver(frames: seq<Frame>, cursor: nat, accepts: (nat, string) -> bool): Delivery
  {
    if frames == [] then Delivery(cursor, [], false)
    else
      var f := frames[0];
      match FateOf(f, cursor, accepts)
      case Stops => Delivery(cursor, [], true)
      case Passed => Deliver(frames[1..], cursor, accepts)
      case Ingested =>
        var rest := Deliver(frames[1..], f.id, accepts);
        rest.(ingested := [(f.id, f.data)] + rest.ingested)
  }

  /** The payload is one line that does not begin with a space, or an operation's JSON text of which no piece is accepted. */
  ghost predicate Legible(f: Frame, accepts: (nat, string) -> bool) {
    WellFormed(f) || (f.Operation? && f.data != "" && f.data[0] != ' ' && PiecesRefused(f.data, accepts))
  }

  lemma JsonLegible(id: nat, data: string, accepts: (nat, string) -> bool)
    requires data != "" && data[0] != ' ' && Written(Outside, data) && Strict(accepts)
    ensures Legible(Operation(id, data), accepts)
  {
    if !OneLine(data) { JsonPiecesRefused(data, accepts); }
    hide PiecesRefused, Written, Strict, OneLine;
  }

  // ---------------------------------------------------------------- reading the text of the frames

  lemma {:induction false} UnlinesEnd(lines: seq<string>)
    requires lines != []
    ensures EndsLine(Unlines(lines))
    decreases |lines|
  {
    if |lines| > 1 { UnlinesEnd(lines[1..]); } else { assert Unlines(lines[1..]) == ""; }
  }

  lemma CleanSplit(f: Frame)
    requires Clean(f)
    ensures Split(Render(f), "") == FrameLines(f) + [""]
  {
    CleanLines(f);
    NothingSplit();
    hide Split, OneLine, FrameLines;
    SplitUnlines(FrameLines(f) + [""], "");
    assert Render(f) + "" == Render(f);
  }

  /** Every frame, whatever its payload, does to the reader what `FateOf` says, and leaves it between frames or stopped
      with the cursor unmoved. */
  lemma FrameFate(r: Reader, accepts: (nat, string) -> bool, f: Frame)
    requires Legible(f, accepts) && r == Reset(r) && !r.failed
    ensures var r' := ReadLines(r, accepts, Split(Render(f), ""));
      match FateOf(f, r.cursor, accepts)
      case Ingested => f.Operation? && r' == r.(cursor := f.id, ingested := r.ingested + [(f.id, f.data)])
      case Passed => r' == r
      case Stops => Stopped(r, r')
  {
    hide ReadLines, Split, Render, FrameLines, Fits, OneLine, SilentlyPassed, PiecesRefused;
    if f.Operation? && !OneLine(f.data) {
      BrokenFate(r, accepts, f.id, f.data);
    } else {
      CleanSplit(f);
      FrameRead(r, accepts, f);
    }
  }

  predicate Refines(r: Reader, before: seq<(nat, string)>, d: Delivery) {
    r.cursor == d.cursor && r.ingested == before + d.ingested && r.failed == d.failed
  }

  lemma RefinesBase(r: Reader, cursor: nat, failed: bool)
    requires r.cursor == cursor && r.failed == failed
    ensures Refines(r, r.ingested, Delivery(cursor, [], failed))
  {
  }

  lemma RefinesMore(r: Reader, before: seq<(nat, string)>, x: (nat, string), d: Delivery)
    requires Refines(r, before + [x], d)
    ensures Refines(r, before, d.(ingested := [x] + d.ingested))
  {
  }

  lemma {:induction false} FramesRead(r: Reader, accepts: (nat, string) -> bool, frames: seq<Frame>)
    requires r == Reset(r) && !r.failed && forall f :: f in frames ==> Legible(f, accepts)
    ensures Refines(ReadLines(r, accepts, Split(RenderAll(frames), "")), r.ingested, Deliver(frames, r.cursor, accepts))
    decreases |frames|
  {
    hide ReadLine, ReadLines, FrameLines, Split, Legible, Refines, FateOf;
    if frames == [] {
      NothingSplit();
      NothingRead(r, accepts);
      RefinesBase(r, r.cursor, false);
    } else {
      var f, rest := frames[0], Split(RenderAll(frames[1..]), "");
      UnlinesEnd(FrameLines(f) + [""]);
      SplitTwo(Render(f), RenderAll(frames[1..]), "");
      ReadAppend(r, accepts, Split(Render(f), ""), rest);
      FrameFate(r, accepts, f);
      var r1 := ReadLines(r, accepts, Split(Render(f), ""));
      match FateOf(f, r.cursor, accepts) {
        case Stops =>
          ReadFailed(r1, accepts, rest);
          RefinesBase(r1, r.cursor, true);
        case Passed => FramesRead(r1, accepts, frames[1..]);
        case Ingested =>
          FramesRead(r1, accepts, frames[1..]);
          RefinesMore(ReadLines(r1, accepts, rest), r.ingested, (f.id, f.data), Deliver(frames[1..], f.id, accepts));
      }
    }
  }

  lemma NothingRead(r: Reader, accepts: (nat, string) -> bool)
    ensures ReadLines(r, accepts, []) == r
  {
  }

  /** The round trip: from the text of any frames the client recovers exactly what the frames say, up to the first one
      that stops it. */
  lemma StreamRoundTrip(frames: seq<Frame>, cursor: nat, accepts: (nat, string) -> bool)
    requires forall f :: f in frames ==> Legible(f, accepts)
    ensures Refines(Read(RenderAll(frames), cursor, accepts), [], Deliver(frames, cursor, accepts))
  {
    FramesRead(Fresh(cursor), accepts, frames);
  }

  /** What is ingested is above the cursor, strictly increasing and taken from the frames; the cursor moves only
      with an ingest, so a refusal leaves it where the last one put it. */
  predicate Once(d: Delivery, frames: seq<Frame>, cursor: nat, accepts: (nat, string) -> bool) {
    && (forall x :: x in d.ingested ==> cursor < x.0 && Operation(x.0, x.1) in frames && accepts(x.0, x.1))
    && (forall i, j :: 0 <= i < j < |d.ingested| ==> d.ingested[i].0 < d.ingested[j].0)
    && d.cursor == if d.ingested == [] then cursor else d.ingested[|d.ingested| - 1].0
  }

  lemma OnceMore(d: Delivery, frames: seq<Frame>, cursor: nat, accepts: (nat, string) -> bool)
    requires frames != [] && frames[0].Operation? && frames[0].id > cursor && accepts(frames[0].id, frames[0].data)
    requires Once(d, frames[1..], frames[0].id, accepts)
    ensures Once(d.(ingested := [(frames[0].id, frames[0].data)] + d.ingested), frames, cursor, accepts)
  {
    var all := [(frames[0].id, frames[0].data)] + d.ingested;
    forall x | x in all ensures cursor < x.0 && Operation(x.0, x.1) in frames && accepts(x.0, x.1) {
      if x != all[0] { assert x in d.ingested; }
    }
  }

  lemma OnceSkip(d: Delivery, frames: seq<Frame>, cursor: nat, accepts: (nat, string) -> bool)
    requires frames != [] && Once(d, frames[1..], cursor, accepts)
    ensures Once(d, frames, cursor, accepts)
  {
  }

  lemma {:induction false} DeliverOnce(frames: seq<Frame>, cursor: nat, accepts: (nat, string) -> bool)
    ensures Once(Deliver(frames, cursor, accepts), frames, cursor, accepts)
    decreases |frames|
  {
    if frames != [] {
      var f := frames[0];
      assert Once(Delivery(cursor, [], true), frames, cursor, accepts);
      hide Fits, Once, SilentlyPassed, OneLine;
      match FateOf(f, cursor, accepts) {
        case Stops =>
        case Passed =>
          DeliverOnce(frames[1..], cursor, accepts);
          OnceSkip(Deliver(frames[1..], cursor, accepts), frames, cursor, accepts);
        case Ingested =>
          DeliverOnce(frames[1..], f.id, accepts);
          OnceMore(Deliver(frames[1..], f.id, accepts), frames, cursor, accepts);
      }
    }
  }

  /** The (id, payload) pairs of the operation frames above a cursor, in order. */
  function Above(frames: seq<Frame>, cursor: nat): seq<(nat, string)> {
    if frames == [] then []
    else (if frames[0].Operation? && frames[0].id > cursor then [(frames[0].id, frames[0].data)] else []) + Above(frames[1..], cursor)
  }

  /** Operation frames carry increasing numbers. */
  predicate Ascending(frames: seq<Frame>) {
    forall i, j :: 0 <= i < j < |frames| && frames[i].Operation? && frames[j].Operation? ==> frames[i].id < frames[j].id
  }

  /** Those of them whose payload is one line. */
  function Unbroken(frames: seq<Frame>, cursor: nat): seq<(nat, string)> {
    if frames == [] then []
    else
      var f := frames[0];
      (if f.Operation? && f.id > cursor && OneLine(f.data) then [(f.id, f.data)] else []) + Unbroken(frames[1..], cursor)
  }

  lemma {:induction false} UnbrokenLater(frames: seq<Frame>, low: nat, high: nat)
    requires low <= high && forall f :: f in frames && f.Operation? ==> f.id > high
    ensures Unbroken(frames, low) == Unbroken(frames, high)
  {
    hide OneLine;
    if frames != [] { UnbrokenLater(frames[1..], low, high); }
  }

  lemma {:induction false} AllUnbroken(frames: seq<Frame>, cursor: nat)
    requires forall f :: f in frames ==> Clean(f)
    ensures Unbroken(frames, cursor) == Above(frames, cursor)
  {
    hide OneLine;
    if frames != [] {
      assert frames[0] in frames;
      AllUnbroken(frames[1..], cursor);
    }
  }

  /** What the frame does not stop: a payload of one line fits and is accepted, a broken one is passed in silence. */
  predicate GoesOn(f: Frame, cursor: nat, accepts: (nat, string) -> bool) {
    if Clean(f) then Fits(f) && (f.Operation? && f.id > cursor ==> accepts(f.id, f.data))
    else f.Operation? && SilentlyPassed(f.id, f.data, cursor)
  }

  lemma GoesOnLater(f: Frame, low: nat, high: nat, accepts: (nat, string) -> bool)
    requires low <= high && GoesOn(f, low, accepts)
    ensures GoesOn(f, high, accepts)
  {
    if !Clean(f) { PassedLater(f.id, f.data, low, high); }
    hide OneLine, SilentlyPassed, Fits;
  }

  lemma FateGoesOn(f: Frame, cursor: nat, accepts: (nat, string) -> bool)
    requires GoesOn(f, cursor, accepts)
    ensures FateOf(f, cursor, accepts) == if f.Operation? && f.id > cursor && OneLine(f.data) then Ingested else Passed
  {
    hide OneLine, SilentlyPassed, Fits;
  }

  /** When no frame stops the reader, what it ingests is every event above the cursor whose payload is one line, in order:
      nothing of these is lost or repeated, and the broken ones are what is missing. */
  lemma {:induction false} DeliverAll(frames: seq<Frame>, cursor: nat, accepts: (nat, string) -> bool)
    requires Ascending(frames) && forall f :: f in frames ==> GoesOn(f, cursor, accepts)
    ensures Deliver(frames, cursor, accepts).ingested == Unbroken(frames, cursor) && !Deliver(frames, cursor, accepts).failed
    decreases |frames|
  {
    hide FateOf, GoesOn, OneLine;
    if frames != [] {
      var f, rest := frames[0], frames[1..];
      FateGoesOn(f, cursor, accepts);
      if FateOf(f, cursor, accepts).Ingested? {
        forall g | g in rest ensures GoesOn(g, f.id, accepts) { GoesOnLater(g, cursor, f.id, accepts); }
        DeliverAll(rest, f.id, accepts);
        UnbrokenLater(rest, cursor, f.id);
      } else {
        DeliverAll(rest, cursor, accepts);
      }
    }
  }
}
