/** A history in which the client's event reader passes the final event of an operation in silence. */
module PassedClient {
  import opened Common
  import opened L = Ledger
  import B = Broker
  import opened ClientLedger
  import opened Client
  import opened ClientInvariant
  import opened System
  import opened SystemInvariant
  import opened SystemSteps
  import opened SystemTheorems
  import opened StuckClient
  import W = Witnesses
  import D = Decimal
  import S = SseFrames
  import F = PayloadFates
  import P = BrokenPayloads

  // ---------------------------------------------------------------- how the result is written

  /** A line separator and then what reads as a field of the event stream. */
  const SEP := '\U{2028}'

  const TEXT := "a" + [SEP] + "event:x"

  const RESULT := Content(TEXT, [], 100)

  /** `text` is `t` between two pieces of one line each, and small. */
  predicate Verbatim(text: string, t: string, a: string, b: string) {
    text == a + t + b && S.OneLine(a) && S.OneLine(b) && |a| + |b| <= 100000
  }

  /** The writer puts this result text into the JSON as it is: none of its characters is escaped. */
  ghost predicate WritesText(cfg: Config) {
    forall e: Snapshot ::
      e.result == Some(RESULT) && e.error.None? && e.handle == Some("h") ==> exists a, b :: Verbatim(cfg.text(e), TEXT, a, b)
  }

  lemma Separated(a: string, b: string)
    ensures a + TEXT + b == a + "a" + [SEP] + ("event:x" + b)
  {
  }

  lemma Small(id: nat)
    requires id < 10
    ensures |D.ToDecimal(id)| <= 1
  {
  }

  /** Such a text is passed in silence. */
  lemma PassedResult(cfg: Config, e: Snapshot, cursor: nat)
    requires WritesText(cfg) && e.result == Some(RESULT) && e.error.None? && e.handle == Some("h")
    ensures Passes(cfg, 4, e, cursor) && !Whole(cfg, e)
  {
    hide S.OneLine, S.IsBreak, S.Parse, F.SilentlyPassed, D.ToDecimal;
    var a, b :| Verbatim(cfg.text(e), TEXT, a, b);
    Separated(a, b);
    S.Printable("a");
    S.Printable("event:x");
    P.LinesTogether(a, "a");
    P.LinesTogether("event:x", b);
    SepBreaks();
    P.OtherKind(b);
    Small(4);
    P.OneBreakFate(4, a + "a", SEP, "event:x" + b, cursor);
    P.OneBreak(a + "a", SEP, "event:x" + b);
  }

  lemma SepBreaks()
    ensures S.IsBreak(SEP)
  {
  }

  // ---------------------------------------------------------------- the client's part

  const NEXT_CALL := Submit(Origin("t", "u", "d"), Command("p", []), 0, 0, None, 2, 0)

  function Row1(cfg: Config): CRow {
    NewCRow(cfg.client, 1, 0, Origin("t", "u", "c"), Command("p", []), 0, 0)
  }

  function Row2(cfg: Config): CRow {
    NewCRow(cfg.client, 2, 0, Origin("t", "u", "d"), Command("p", []), 0, 0)
  }

  lemma CalledTwice(cfg: Config, c: Client)
    requires cfg.client.maxPending >= 2 && c == NEW_CLIENT.(db := ClientDb(map["t" := 0], map[1 := Row1(cfg)], 0, map[]))
    ensures CEnabled(c, NEXT_CALL)
    ensures CNext(c, cfg.client, NEXT_CALL) == c.(db := ClientDb(map["t" := 0], map[1 := Row1(cfg), 2 := Row2(cfg)], 0, map[]))
  {
    assert PendingOps(c.db.ops) == {1};
    assert "p"[0] in "p" && !Blank("p");
  }

  lemma PostBoth(cfg: Config, c: Client)
    requires c == NEW_CLIENT.(db := ClientDb(map["t" := 0], map[1 := Row1(cfg), 2 := Row2(cfg)], 0, map[]))
    ensures CEnabled(c, Post(1, 0)) && CEnabled(CNext(c, cfg.client, Post(1, 0)), Post(2, 0))
    ensures CNext(CNext(c, cfg.client, Post(1, 0)), cfg.client, Post(2, 0)) == c.(posts := {W.Asks(1), W.Asks(2)})
  {
    assert {} + {W.Asks(1)} + {W.Asks(2)} == {W.Asks(1), W.Asks(2)};
  }

  lemma OnlyClient(cfg: Config, run: seq<SysStep>, s: CStep)
    requires ValidHistory(START, cfg, run) && CEnabled(Reached(START, cfg, run).client, s) && (s.Submit? || s.Post?)
    ensures ValidHistory(START, cfg, run + [OnClient(s)])
    ensures var y := Reached(START, cfg, run);
      Reached(START, cfg, run + [OnClient(s)]) == y.(client := CNext(y.client, cfg.client, s))
  {
    hide CEnabled, CNext, ValidHistory, Reached;
    Longer(START, cfg, run, OnClient(s));
  }

  /** The client submits and posts two calls of one thread. */
  lemma PostedTwo(cfg: Config) returns (run: seq<SysStep>)
    requires cfg.client.maxPending >= 2
    ensures ValidHistory(START, cfg, run)
    ensures var c := Reached(START, cfg, run).client;
      && c.posts == {W.Asks(1), W.Asks(2)} && c.stream.None? && c.recovery.Idle? && c.db.cursor == 0
      && 1 in c.db.ops && c.db.ops[1].flow == 0 && c.db.ops[1].snapshot.None? && !c.db.ops[1].expired
    ensures Reached(START, cfg, run).broker == B.INITIAL
  {
    Called1(cfg);
    hide CEnabled, CNext;
    var c1 := CNext(NEW_CLIENT, cfg.client, CALL);
    assert Reached(START, cfg, []) == START;
    OnlyClient(cfg, [], CALL);
    CalledTwice(cfg, c1);
    var run1 := [] + [OnClient(CALL)];
    OnlyClient(cfg, run1, NEXT_CALL);
    var c2 := CNext(c1, cfg.client, NEXT_CALL);
    PostBoth(cfg, c2);
    var run2 := run1 + [OnClient(NEXT_CALL)];
    OnlyClient(cfg, run2, Post(1, 0));
    OnlyClient(cfg, run2 + [OnClient(Post(1, 0))], Post(2, 0));
    run := run2 + [OnClient(Post(1, 0))] + [OnClient(Post(2, 0))];
  }

  /** The stream has been read up to `n`, the cursor is at `m`, and this is what the client holds of operation 1. */
  predicate Behind(c: Client, n: nat, m: nat, held: Option<Snapshot>) {
    c.stream == Some(n) && c.db.cursor == m && 1 in c.db.ops && c.db.ops[1].snapshot == held
  }

  lemma PassesOne(cfg: Config, run: seq<SysStep>, n: nat, held: Option<Snapshot>)
    requires ValidHistory(START, cfg, run) && Behind(Reached(START, cfg, run).client, n, n, held)
    requires n < |LogOf(Reached(START, cfg, run), cfg)| && Passes(cfg, n + 1, LogOf(Reached(START, cfg, run), cfg)[n], n)
    ensures var run' := run + [OnClient(PassEvent(n + 1))];
      && ValidHistory(START, cfg, run') && Behind(Reached(START, cfg, run').client, n + 1, n, held)
      && Reached(START, cfg, run').broker == Reached(START, cfg, run).broker
  {
    hide ValidHistory, Reached, Passes;
    Longer(START, cfg, run, OnClient(PassEvent(n + 1)));
  }

  lemma OtherNext(c: Client, cfg: ClientSettings, n: nat, m: nat, held: Option<Snapshot>, t: Snapshot)
    requires Behind(c, n, m, held) && m <= n && t.op != 1 && AcceptSnapshot(c.db, cfg, t, Some(n + 1), 0).1.Ok?
    ensures CEnabled(c, StreamEvent(n + 1, t, 0)) && Behind(CNext(c, cfg, StreamEvent(n + 1, t, 0)), n + 1, n + 1, held)
  {
  }

  /** An event of the other operation is read: the cursor catches up with the stream. */
  lemma ReadsOther(cfg: Config, run: seq<SysStep>, n: nat, m: nat, held: Option<Snapshot>) returns (run': seq<SysStep>)
    requires ValidHistory(START, cfg, run) && Behind(Reached(START, cfg, run).client, n, m, held) && m <= n
    requires n < |LogOf(Reached(START, cfg, run), cfg)|
    requires var t := LogOf(Reached(START, cfg, run), cfg)[n]; t.op != 1 && Whole(cfg, t)
    ensures ValidHistory(START, cfg, run') && Behind(Reached(START, cfg, run').client, n + 1, n + 1, held)
    ensures Reached(START, cfg, run').broker == Reached(START, cfg, run).broker
  {
    hide SysInv, CNext, ValidHistory, Reached, Whole, AcceptSnapshot, Behind;
    var y := Reached(START, cfg, run);
    var t := LogOf(y, cfg)[n];
    Anywhere(cfg, run);
    OtherWelcome(cfg, y, n, m, held);
    OtherNext(y.client, cfg.client, n, m, held, t);
    Longer(START, cfg, run, OnClient(StreamEvent(n + 1, t, 0)));
    run' := run + [OnClient(StreamEvent(n + 1, t, 0))];
  }

  lemma OtherWelcome(cfg: Config, y: System, n: nat, m: nat, held: Option<Snapshot>)
    requires SysInv(y, cfg) && Behind(y.client, n, m, held) && n < |LogOf(y, cfg)| && Whole(cfg, LogOf(y, cfg)[n])
    ensures AcceptSnapshot(y.client.db, cfg.client, LogOf(y, cfg)[n], Some(n + 1), 0).1.Ok?
  {
    hide SysInv, AcceptSnapshot, Whole, CNext;
    IncomingHonest(y, cfg, StreamEvent(n + 1, LogOf(y, cfg)[n], 0));
    Welcome(y, cfg, LogOf(y, cfg)[n], Some(n + 1), 0);
  }

  // ---------------------------------------------------------------- the history

  lemma CompletedEvent(cfg: Settings)
    ensures var e := SnapshotOf(1, W.Completes(1, cfg, RESULT), 0);
      e.op == 1 && e.state.Completed? && e.resultId.Some? && e.result == Some(RESULT) && e.error.None? && e.handle == Some("h")
  {
  }

  lemma EarlierEvents(cfg: Config)
    requires PlainWriter(cfg)
    ensures forall row :: row in [W.Fresh(1), W.Claimed(1), W.Named(1)] ==>
      var e := SnapshotOf(1, row, 0); e.op == 1 && e.flow == 0 && !Terminal(e.state) && Whole(cfg, e)
    ensures forall row :: row in [W.Fresh(2), W.Claimed(2)] ==> SnapshotOf(2, row, 0).op == 2 && Whole(cfg, SnapshotOf(2, row, 0))
  {
    hide PlainWriter, SnapshotOf, Whole;
    Fields(1, W.Fresh(1));
    Fields(1, W.Claimed(1));
    Fields(1, W.Named(1));
    Fields(2, W.Fresh(2));
    Fields(2, W.Claimed(2));
    PlainEvent(cfg, 1, W.Fresh(1));
    PlainEvent(cfg, 1, W.Claimed(1));
    PlainEvent(cfg, 1, W.Named(1));
    PlainEvent(cfg, 2, W.Fresh(2));
    PlainEvent(cfg, 2, W.Claimed(2));
  }

  /** For every configuration that writes the result text as it is: operation 1 completes, the reader passes that event
      in silence and reads on; the cursor is past the final event, the client still shows the operation as running, and it
      is not stuck. */
  lemma ResultPassed(cfg: Config) returns (run: seq<SysStep>)
    requires PlainWriter(cfg) && WritesText(cfg) && cfg.client.maxPending >= 2 && cfg.broker.maxResultBytes >= 100
    ensures ValidHistory(START, cfg, run)
    ensures var y := Reached(START, cfg, run);
      && y.client.db.cursor == |LogOf(y, cfg)| == 6 && LogOf(y, cfg)[3].op == 1 && LogOf(y, cfg)[3].state.Completed?
      && 1 in y.client.db.ops && Shown(1, y.client.db.ops[1]).state.Running?
      && !Stuck(y.client.db.ops[1].snapshot) && !ShowsOutcome(y.client.db.ops[1], LogOf(y, cfg)[3])
  {
    hide PlainWriter, WritesText, Whole, Passes, Allowed, After, SnapshotOf, B.Exec, B.ValidRun, ValidHistory, Reached, W.Completes;
    CompletedEvent(cfg.broker);
    EarlierEvents(cfg);
    PassedResult(cfg, SnapshotOf(1, W.Completes(1, cfg.broker, RESULT), 0), 3);
    run := PostedTwo(cfg);
    var steps := W.CompletedThenNext(cfg.broker, cfg.device, RESULT);
    run := BrokerRuns(START, cfg, run, steps);
    Opens(cfg, run);
    run := run + [OnClient(OpenStream)];
    run := ReadsOne(cfg, run, 0, None);
    run := ReadsOne(cfg, run, 1, Some(SnapshotOf(1, W.Fresh(1), 0)));
    run := ReadsOne(cfg, run, 2, Some(SnapshotOf(1, W.Claimed(1), 0)));
    var held := Some(SnapshotOf(1, W.Named(1), 0));
    PassesOne(cfg, run, 3, held);
    run := run + [OnClient(PassEvent(3 + 1))];
    run := ReadsOther(cfg, run, 4, 3, held);
    run := ReadsOther(cfg, run, 5, 5, held);
    Fields(1, W.Named(1));
  }
}
