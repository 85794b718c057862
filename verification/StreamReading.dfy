/** Reading the event stream on the wire is a history of the composed system: one step per event, ingested or passed, and
    the end of the stream where the reading stops. */
module StreamReading {
  import opened Common
  import opened L = Ledger
  import B = Broker
  import opened ClientLedger
  import opened Client
  import opened System
  import opened SystemInvariant
  import opened SystemSteps
  import opened SystemTheorems
  import E = EventStream
  import S = SseFrames
  import F = PayloadFates
  import D = Deliveries

  /** The operation frames are the events of the log after `at`, one after the other, each with its text. */
  predicate Follows(cfg: Config, frames: seq<S.Frame>, at: nat, log: seq<Snapshot>)
    decreases |frames|
  {
    frames == [] ||
      var f := frames[0];
      if f.Operation? then f.id == at + 1 <= |log| && f.data == cfg.text(log[at]) && Follows(cfg, frames[1..], at + 1, log)
      else Follows(cfg, frames[1..], at, log)
  }

  /** What the reader does with these frames, as steps of the composed system: an event that is ingested, one that is
      passed, and the end of the stream at a frame that stops it. */
  function StepsFor(cfg: Config, frames: seq<S.Frame>, at: nat, log: seq<Snapshot>, cursor: nat, accepts: (nat, string) -> bool, now: int)
    : seq<SysStep>
    requires Follows(cfg, frames, at, log)
    decreases |frames|
  {
    if frames == [] then []
    else
      var f, rest := frames[0], frames[1..];
      match D.FateOf(f, cursor, accepts)
      case Stops => [OnClient(CloseStream)]
      case Ingested =>
        if f.Operation?
        then [OnClient(StreamEvent(f.id, log[at], now))] + StepsFor(cfg, rest, at + 1, log, f.id, accepts, now)
        else StepsFor(cfg, rest, at, log, cursor, accepts, now)
      case Passed =>
        if f.Operation?
        then [OnClient(PassEvent(f.id))] + StepsFor(cfg, rest, at + 1, log, cursor, accepts, now)
        else StepsFor(cfg, rest, at, log, cursor, accepts, now)
  }

  /** The number and text of every event the steps ingest. */
  function Taken(cfg: Config, steps: seq<SysStep>): seq<(nat, string)> {
    if steps == [] then []
    else
      var s := steps[0];
      (if s.OnClient? && s.c.StreamEvent? then [(s.c.n, cfg.text(s.c.s))] else []) + Taken(cfg, steps[1..])
  }

  /** The client's test of a payload: every event in one piece is accepted, as `NeverRefused` shows. */
  ghost predicate Honest(cfg: Config, log: seq<Snapshot>, accepts: (nat, string) -> bool) {
    forall i :: 0 <= i < |log| && Whole(cfg, log[i]) ==> accepts(i + 1, cfg.text(log[i]))
  }

  // ---------------------------------------------------------------- one frame

  lemma EventNext(c: Client, cfg: ClientSettings, n: nat, t: Snapshot, now: int)
    requires c.stream == Some(n) && c.db.cursor <= n && AcceptSnapshot(c.db, cfg, t, Some(n + 1), now).1.Ok?
    ensures CEnabled(c, StreamEvent(n + 1, t, now))
    ensures var c' := CNext(c, cfg, StreamEvent(n + 1, t, now)); c'.stream == Some(n + 1) && c'.db.cursor == n + 1
  {
    CursorMoves(c.db, cfg, t, n + 1, now);
    hide AcceptSnapshot;
  }

  lemma CursorMoves(db: ClientDb, cfg: ClientSettings, t: Snapshot, n: nat, now: int)
    requires AcceptSnapshot(db, cfg, t, Some(n), now).1.Ok? && db.cursor < n
    ensures AcceptSnapshot(db, cfg, t, Some(n), now).0.cursor == n
  {
  }

  /** The reader stands at event `n` of the log with the cursor at `m`. */
  ghost predicate Stands(y: System, cfg: Config, n: nat, m: nat) {
    SysInv(y, cfg) && y.client.stream == Some(n) && y.client.db.cursor == m
  }

  lemma EventAllowed(cfg: Config, y: System, n: nat, now: int)
    requires y.client.stream == Some(n) && n < |LogOf(y, cfg)| && Whole(cfg, LogOf(y, cfg)[n])
    ensures Allowed(y, cfg, OnClient(StreamEvent(n + 1, LogOf(y, cfg)[n], now)))
  {
    hide Whole;
  }

  /** The next event is allowed, taken, and moves reader and cursor to it. */
  lemma TakesNext(cfg: Config, y: System, n: nat, m: nat, now: int)
    requires Stands(y, cfg, n, m) && n < |LogOf(y, cfg)| && Whole(cfg, LogOf(y, cfg)[n])
    ensures var s := OnClient(StreamEvent(n + 1, LogOf(y, cfg)[n], now));
      Allowed(y, cfg, s) && Stands(After(y, cfg, s), cfg, n + 1, n + 1) && After(y, cfg, s).broker == y.broker
  {
    hide SysInv, AcceptSnapshot, CNext, CEnabled, Allowed, Whole;
    var t := LogOf(y, cfg)[n];
    var step := StreamEvent(n + 1, t, now);
    ReaderAt(cfg, y);
    EventAllowed(cfg, y, n, now);
    IncomingHonest(y, cfg, step);
    Welcome(y, cfg, t, Some(n + 1), now);
    EventNext(y.client, cfg.client, n, t, now);
    EverySystemStep(cfg, y, OnClient(step));
  }

  /** An event the reader passes moves the reader and leaves the cursor. */
  lemma PassesNext(cfg: Config, y: System, n: nat, m: nat)
    requires Stands(y, cfg, n, m) && n < |LogOf(y, cfg)| && Passes(cfg, n + 1, LogOf(y, cfg)[n], m)
    ensures var s := OnClient(PassEvent(n + 1));
      Allowed(y, cfg, s) && Stands(After(y, cfg, s), cfg, n + 1, m) && After(y, cfg, s).broker == y.broker
  {
    hide SysInv, Passes;
    EverySystemStep(cfg, y, OnClient(PassEvent(n + 1)));
  }

  lemma Closes(cfg: Config, y: System)
    ensures ValidHistory(y, cfg, [OnClient(CloseStream)])
    ensures Reached(y, cfg, [OnClient(CloseStream)]) == y.(client := y.client.(stream := None))
  {
    assert [OnClient(CloseStream)][1..] == [];
    assert Reached(After(y, cfg, OnClient(CloseStream)), cfg, []) == After(y, cfg, OnClient(CloseStream));
  }

  lemma OneStep(y: System, cfg: Config, s: SysStep, rest: seq<SysStep>)
    requires Allowed(y, cfg, s) && ValidHistory(After(y, cfg, s), cfg, rest)
    ensures ValidHistory(y, cfg, [s] + rest) && Reached(y, cfg, [s] + rest) == Reached(After(y, cfg, s), cfg, rest)
    ensures Taken(cfg, [s] + rest) == (if s.OnClient? && s.c.StreamEvent? then [(s.c.n, cfg.text(s.c.s))] else []) + Taken(cfg, rest)
  {
    hide Allowed, After;
    assert ([s] + rest)[1..] == rest && ([s] + rest)[0] == s;
    AllowedEnabled(cfg, y, s);
  }

  // ---------------------------------------------------------------- all frames

  /** The history after the frames agrees with what the frames deliver. */
  ghost predicate Agrees(cfg: Config, y: System, steps: seq<SysStep>, d: D.Delivery) {
    && ValidHistory(y, cfg, steps)
    && Reached(y, cfg, steps).client.db.cursor == d.cursor && Reached(y, cfg, steps).client.stream.None? == d.failed
    && Taken(cfg, steps) == d.ingested
  }

  lemma FrameIs(cfg: Config, frames: seq<S.Frame>, at: nat, log: seq<Snapshot>, cursor: nat, accepts: (nat, string) -> bool)
    requires Follows(cfg, frames, at, log) && frames != [] && cursor <= at && Honest(cfg, log, accepts)
    ensures var f := frames[0]; var fate := D.FateOf(f, cursor, accepts);
      && (f.Operation? && fate.Ingested? ==> Whole(cfg, log[at]))
      && (f.Operation? && fate.Passed? ==> Passes(cfg, at + 1, log[at], cursor))
      && (!f.Operation? ==> !fate.Ingested?)
  {
    hide S.OneLine, F.SilentlyPassed, S.Fits;
  }

  lemma {:induction false} FramesAreSteps(cfg: Config, y: System, frames: seq<S.Frame>, at: nat, cursor: nat,
                                          accepts: (nat, string) -> bool, now: int)
    requires Stands(y, cfg, at, cursor) && cursor <= at && Follows(cfg, frames, at, LogOf(y, cfg)) && Honest(cfg, LogOf(y, cfg), accepts)
    ensures Agrees(cfg, y, StepsFor(cfg, frames, at, LogOf(y, cfg), cursor, accepts, now), D.Deliver(frames, cursor, accepts))
    decreases |frames|
  {
    hide SysInv, ValidHistory, Reached, Allowed, After, Whole, Passes, D.FateOf, Taken, Honest;
    if frames == [] {
      NoFrames(cfg, y);
    } else {
      var f, log, rest := frames[0], LogOf(y, cfg), frames[1..];
      FrameIs(cfg, frames, at, log, cursor, accepts);
      match D.FateOf(f, cursor, accepts) {
        case Stops =>
          Closes(cfg, y);
          NoneTaken(cfg);
        case Ingested =>
          TakesNext(cfg, y, at, cursor, now);
          var s := OnClient(StreamEvent(f.id, log[at], now));
          FramesAreSteps(cfg, After(y, cfg, s), rest, at + 1, f.id, accepts, now);
          OneStep(y, cfg, s, StepsFor(cfg, rest, at + 1, log, f.id, accepts, now));
        case Passed =>
          if f.Operation? {
            PassesNext(cfg, y, at, cursor);
            var s := OnClient(PassEvent(f.id));
            FramesAreSteps(cfg, After(y, cfg, s), rest, at + 1, cursor, accepts, now);
            OneStep(y, cfg, s, StepsFor(cfg, rest, at + 1, log, cursor, accepts, now));
          } else {
            FramesAreSteps(cfg, y, rest, at, cursor, accepts, now);
          }
      }
    }
  }

  lemma NoFrames(cfg: Config, y: System)
    ensures ValidHistory(y, cfg, []) && Reached(y, cfg, []) == y && Taken(cfg, []) == []
  {
  }

  lemma NoneTaken(cfg: Config)
    ensures Taken(cfg, [OnClient(CloseStream)]) == []
  {
    assert [OnClient(CloseStream)][1..] == [];
  }

  // ---------------------------------------------------------------- the frames of a stream

  lemma {:induction false} AboveLater(frames: seq<S.Frame>, low: nat, high: nat)
    requires low <= high && forall f :: f in frames && f.Operation? ==> f.id > high
    ensures D.Above(frames, low) == D.Above(frames, high)
    decreases |frames|
  {
    if frames != [] { AboveLater(frames[1..], low, high); }
  }

  lemma {:induction false} SentFollows(cfg: Config, frames: seq<S.Frame>, at: nat, log: seq<Snapshot>)
    requires D.Ascending(frames) && (forall f :: f in frames && f.Operation? ==> f.id > at)
    requires var above := D.Above(frames, at);
      at + |above| <= |log| && forall i :: 0 <= i < |above| ==> above[i] == (at + 1 + i, cfg.text(log[at + i]))
    ensures Follows(cfg, frames, at, log)
    decreases |frames|
  {
    if frames != [] {
      var f, rest, above := frames[0], frames[1..], D.Above(frames, at);
      assert D.Ascending(rest);
      if f.Operation? {
        assert f in frames;
        assert above == [(f.id, f.data)] + D.Above(rest, at) && above[0] == (f.id, f.data);
        forall g | g in rest && g.Operation? ensures g.id > f.id { }
        AboveLater(rest, at, at + 1);
        var next := D.Above(rest, at + 1);
        forall i | 0 <= i < |next| ensures next[i] == (at + 1 + 1 + i, cfg.text(log[at + 1 + i])) { assert next[i] == above[i + 1]; }
        SentFollows(cfg, rest, at + 1, log);
      } else {
        assert above == D.Above(rest, at);
        SentFollows(cfg, rest, at, log);
      }
    }
  }

  lemma StreamFollows(cfg: Config, s: E.Stream, codec: E.Codec, log: seq<Snapshot>)
    requires E.StreamOk(s, codec, log) && codec.canonical == cfg.text
    ensures Follows(cfg, s.sent, s.start, log)
  {
    var above := D.Above(s.sent, s.start);
    forall i | 0 <= i < |above| ensures above[i] == (s.start + 1 + i, cfg.text(log[s.start + i])) {
      assert above[i] == E.Entry(log, codec, s.start + 1 + i);
    }
    hide D.Above, D.Ascending;
    SentFollows(cfg, s.sent, s.start, log);
  }

  /** What is known of the JSON writer: the text of a snapshot is an object, with line breaks only inside its strings. */
  ghost predicate JsonWriter(cfg: Config) {
    forall e :: var text := cfg.text(e); text != "" && text[0] == '{' && F.Written(F.Outside, text)
  }

  lemma {:induction false} SentLegible(cfg: Config, frames: seq<S.Frame>, at: nat, log: seq<Snapshot>, accepts: (nat, string) -> bool)
    requires Follows(cfg, frames, at, log) && JsonWriter(cfg) && F.Strict(accepts)
    requires forall f :: f in frames && f.Failure? ==> S.WellFormed(f)
    ensures forall f :: f in frames ==> D.Legible(f, accepts)
    decreases |frames|
  {
    hide D.Legible, F.Strict, F.Written, S.WellFormed;
    if frames != [] {
      var f := frames[0];
      if f.Operation? {
        assert cfg.text(log[at]) == f.data;
        D.JsonLegible(f.id, f.data, accepts);
        SentLegible(cfg, frames[1..], at + 1, log, accepts);
      } else {
        if f.Keepalive? { KeepaliveLegible(accepts); } else { FailureLegible(f, accepts); }
        SentLegible(cfg, frames[1..], at, log, accepts);
      }
    }
  }

  lemma KeepaliveLegible(accepts: (nat, string) -> bool)
    ensures D.Legible(S.Keepalive, accepts)
  {
  }

  lemma FailureLegible(f: S.Frame, accepts: (nat, string) -> bool)
    requires S.WellFormed(f)
    ensures D.Legible(f, accepts)
  {
  }

  /** The same pairs of number and payload, one per log entry. */
  predicate SamePairs(ingested: seq<(nat, string)>, codec: E.Codec, log: seq<Snapshot>, from: nat, to: nat) {
    && from <= to <= |log| && |ingested| == to - from
    && forall i :: 0 <= i < |ingested| ==> ingested[i] == (from + 1 + i, codec.canonical(log[from + i]))
  }

  /** A client that has just opened its stream where the response starts: reading the response text, whatever its payloads
      hold, is a history of the composed system, which ingests the same pairs, ends at the same cursor, and closes the
      stream exactly when the reading stops.  If every payload is one line and within the bound, that is every entry. */
  lemma ReadingIsHistory(cfg: Config, run: seq<SysStep>, s: E.Stream, codec: E.Codec, accepts: (nat, string) -> bool, now: int)
    requires ValidHistory(START, cfg, run)
    requires var c := Reached(START, cfg, run).client; c.stream == Some(s.start) && c.db.cursor == s.start
    requires E.StreamOk(s, codec, LogOf(Reached(START, cfg, run), cfg)) && codec.canonical == cfg.text && JsonWriter(cfg)
    requires F.Strict(accepts) && Honest(cfg, LogOf(Reached(START, cfg, run), cfg), accepts)
    requires forall f :: f in s.sent && f.Failure? ==> S.WellFormed(f)
    ensures var y := Reached(START, cfg, run); var log := LogOf(y, cfg);
      Follows(cfg, s.sent, s.start, log)
    ensures var y := Reached(START, cfg, run); var steps := StepsFor(cfg, s.sent, s.start, LogOf(y, cfg), s.start, accepts, now);
      var r := S.Read(S.RenderAll(s.sent), s.start, accepts);
      && ValidHistory(y, cfg, steps) && Taken(cfg, steps) == r.ingested
      && Reached(y, cfg, steps).client.db.cursor == r.cursor && (Reached(y, cfg, steps).client.stream.None? <==> r.failed)
    ensures var log := LogOf(Reached(START, cfg, run), cfg); var r := S.Read(S.RenderAll(s.sent), s.start, accepts);
      (forall f :: f in s.sent ==> S.WellFormed(f) && S.Fits(f)) ==>
        !r.failed && r.cursor == s.cursor && SamePairs(r.ingested, codec, log, s.start, s.cursor)
  {
    hide SysInv, ValidHistory, Reached, S.Read, S.RenderAll, S.WellFormed, S.Fits, E.StreamOk, Honest, F.Strict, JsonWriter, D.Legible,
      D.Deliver, Follows, StepsFor, Taken;
    var y := Reached(START, cfg, run);
    var log := LogOf(y, cfg);
    Anywhere(cfg, run);
    StreamFollows(cfg, s, codec, log);
    SentLegible(cfg, s.sent, s.start, log, accepts);
    D.StreamRoundTrip(s.sent, s.start, accepts);
    FramesAreSteps(cfg, y, s.sent, s.start, s.start, accepts, now);
    if forall f :: f in s.sent ==> S.WellFormed(f) && S.Fits(f) {
      SentAccepted(cfg, s.sent, s.start, log, accepts);
      E.ClientSeesLog(s, codec, log, accepts);
      Bounds(s, codec, log);
    }
  }

  lemma {:induction false} SentAccepted(cfg: Config, frames: seq<S.Frame>, at: nat, log: seq<Snapshot>, accepts: (nat, string) -> bool)
    requires Follows(cfg, frames, at, log) && Honest(cfg, log, accepts) && forall f :: f in frames ==> S.WellFormed(f)
    ensures forall f :: f in frames && f.Operation? ==> accepts(f.id, f.data)
    decreases |frames|
  {
    hide S.OneLine;
    if frames != [] {
      var f := frames[0];
      assert S.WellFormed(f);
      SentAccepted(cfg, frames[1..], if f.Operation? then at + 1 else at, log, accepts);
      if f.Operation? { assert Whole(cfg, log[at]); }
    }
  }

  lemma Bounds(s: E.Stream, codec: E.Codec, log: seq<Snapshot>)
    requires E.StreamOk(s, codec, log)
    ensures s.start <= s.cursor <= |log|
  {
  }
}
