/** A history in which the client's cursor passes the final event of an operation and the client never learns it. */
module StuckClient {
  import opened Common
  import opened L = Ledger
  import B = Broker
  import opened ClientLedger
  import opened Client
  import opened ClientInvariant
  import opened System
  import opened SystemTheorems
  import S = SseFrames
  import W = Witnesses

  // ---------------------------------------------------------------- histories put together

  lemma {:induction false} Longer(y: System, cfg: Config, run: seq<SysStep>, s: SysStep)
    requires ValidHistory(y, cfg, run) && Allowed(Reached(y, cfg, run), cfg, s)
    ensures ValidHistory(y, cfg, run + [s]) && Reached(y, cfg, run + [s]) == After(Reached(y, cfg, run), cfg, s)
    decreases |run|
  {
    hide After, B.Enabled, CEnabled;
    if run == [] {
      assert run + [s] == [s] && [s][1..] == [];
    } else {
      assert (run + [s])[1..] == run[1..] + [s];
      Longer(After(y, cfg, run[0]), cfg, run[1..], s);
    }
  }

  /** A broker run, seen from a client that posted what it accepts. */
  lemma {:induction false} BrokerRuns(y: System, cfg: Config, run: seq<SysStep>, steps: seq<B.Step>) returns (run': seq<SysStep>)
    requires ValidHistory(y, cfg, run) && B.ValidRun(Reached(y, cfg, run).broker, cfg.broker, steps)
    requires forall i :: 0 <= i < |steps| && steps[i].AcceptRequest? ==> steps[i].request in Reached(y, cfg, run).client.posts
    ensures ValidHistory(y, cfg, run')
    ensures Reached(y, cfg, run').client == Reached(y, cfg, run).client
    ensures Reached(y, cfg, run').broker == B.Exec(Reached(y, cfg, run).broker, cfg.broker, steps)
    decreases |steps|
  {
    hide B.Enabled, B.Next, Reply;
    if steps == [] {
      run' := run;
    } else {
      Longer(y, cfg, run, OnBroker(steps[0]));
      run' := BrokerRuns(y, cfg, run + [OnBroker(steps[0])], steps[1..]);
    }
  }

  // ---------------------------------------------------------------- the client's part

  const CALL := Submit(Origin("t", "u", "c"), Command("p", []), 0, 0, None, 1, 0)

  /** The client submits and posts one call. */
  lemma Posted(cfg: Config) returns (run: seq<SysStep>)
    ensures ValidHistory(START, cfg, run)
    ensures var c := Reached(START, cfg, run).client;
      && c.posts == {W.Asks(1)} && c.stream.None? && c.recovery.Idle? && c.db.cursor == 0
      && 1 in c.db.ops && c.db.ops[1].flow == 0 && c.db.ops[1].snapshot.None? && !c.db.ops[1].expired
    ensures Reached(START, cfg, run).broker == B.INITIAL
  {
    var c1 := CNext(NEW_CLIENT, cfg.client, CALL);
    Called1(cfg);
    Longer(START, cfg, [], OnClient(CALL));
    var post := Post(1, 0);
    hide CEnabled, CNext;
    PostOne(c1, cfg);
    var run1 := [] + [OnClient(CALL)];
    Longer(START, cfg, run1, OnClient(post));
    run := run1 + [OnClient(post)];
  }

  lemma Called1(cfg: Config)
    ensures CEnabled(NEW_CLIENT, CALL) && Allowed(START, cfg, OnClient(CALL))
    ensures var c := CNext(NEW_CLIENT, cfg.client, CALL);
      c == NEW_CLIENT.(db := ClientDb(map["t" := 0], map[1 := NewCRow(cfg.client, 1, 0, Origin("t", "u", "c"), Command("p", []), 0, 0)], 0, map[]))
  {
    assert PendingOps(NEW_CLIENT.db.ops) == {};
    assert "p"[0] in "p" && !Blank("p");
  }

  lemma PostOne(c: Client, cfg: Config)
    requires c == NEW_CLIENT.(db := ClientDb(map["t" := 0], map[1 := NewCRow(cfg.client, 1, 0, Origin("t", "u", "c"), Command("p", []), 0, 0)], 0, map[]))
    ensures CEnabled(c, Post(1, 0)) && CNext(c, cfg.client, Post(1, 0)) == c.(posts := {W.Asks(1)})
  {
  }

  /** The client has read `n` events and holds this snapshot of operation 1. */
  predicate HoldsAt(c: Client, n: nat, held: Option<Snapshot>) {
    && c.stream == Some(n) && c.db.cursor == n && 1 in c.db.ops && c.db.ops[1].flow == 0 && !c.db.ops[1].expired
    && c.db.ops[1].snapshot == held
  }

  lemma ReadsNext(c: Client, cfg: ClientSettings, n: nat, held: Option<Snapshot>, s: Snapshot)
    requires HoldsAt(c, n, held) && s.op == 1 && s.flow == 0 && (Terminal(s.state) ==> s.resultId.Some?)
    ensures CEnabled(c, StreamEvent(n + 1, s, 0))
    ensures HoldsAt(CNext(c, cfg, StreamEvent(n + 1, s, 0)), n + 1,
                    if held.None? || !Terminal(held.value.state) || ExactResolution(held.value, s) then Some(s) else held)
  {
  }

  /** Reading on through one more event of the log. */
  lemma ReadsOne(cfg: Config, run: seq<SysStep>, n: nat, held: Option<Snapshot>) returns (run': seq<SysStep>)
    requires ValidHistory(START, cfg, run) && HoldsAt(Reached(START, cfg, run).client, n, held)
    requires n < |LogOf(Reached(START, cfg, run), cfg)|
    requires var s := LogOf(Reached(START, cfg, run), cfg)[n];
      s.op == 1 && s.flow == 0 && (Terminal(s.state) ==> s.resultId.Some?) && Whole(cfg, s)
    ensures ValidHistory(START, cfg, run') && Reached(START, cfg, run').broker == Reached(START, cfg, run).broker
    ensures var s := LogOf(Reached(START, cfg, run), cfg)[n];
      HoldsAt(Reached(START, cfg, run').client, n + 1,
              if held.None? || !Terminal(held.value.state) || ExactResolution(held.value, s) then Some(s) else held)
  {
    hide CEnabled, CNext, HoldsAt, ValidHistory, Reached, Whole, ExactResolution, B.Next, Reply;
    var y := Reached(START, cfg, run);
    var s := LogOf(y, cfg)[n];
    ReadsNext(y.client, cfg.client, n, held, s);
    Longer(START, cfg, run, OnClient(StreamEvent(n + 1, s, 0)));
    run' := run + [OnClient(StreamEvent(n + 1, s, 0))];
  }

  lemma Opens(cfg: Config, run: seq<SysStep>)
    requires ValidHistory(START, cfg, run)
    requires var c := Reached(START, cfg, run).client;
      && c.stream.None? && c.recovery.Idle? && c.db.cursor == 0 && 1 in c.db.ops && c.db.ops[1].flow == 0 && c.db.ops[1].snapshot.None?
      && !c.db.ops[1].expired
    ensures ValidHistory(START, cfg, run + [OnClient(OpenStream)])
    ensures HoldsAt(Reached(START, cfg, run + [OnClient(OpenStream)]).client, 0, None)
    ensures Reached(START, cfg, run + [OnClient(OpenStream)]).broker == Reached(START, cfg, run).broker
  {
    hide ValidHistory, Reached;
    Longer(START, cfg, run, OnClient(OpenStream));
  }

  lemma Fields(op: nat, row: Row)
    ensures var s := SnapshotOf(op, row, 0);
      s.op == op && s.flow == row.flow && s.state == row.state && s.resultId == row.resultId && s.handle == row.handle
  {
  }

  /** The events of the late resolution, as far as the client looks at them. */
  lemma Events(cfg: Settings)
    ensures SnapshotOf(1, W.Fresh(1), 0).state.Accepted? && SnapshotOf(1, W.Claimed(1), 0).state.Running?
    ensures var s := SnapshotOf(1, W.Unknown(1, cfg), 0); s.state.OutcomeUnknown? && s.handle.None? && s.resultId.Some?
    ensures var s := SnapshotOf(1, W.Late(1, cfg), 0); s.state.OutcomeUnknown? && s.resultId.Some?
    ensures var s := SnapshotOf(1, W.Resolved(1, cfg), 0); s.state.Completed? && s.resultId.Some?
    ensures forall row :: row in [W.Fresh(1), W.Claimed(1), W.Unknown(1, cfg), W.Late(1, cfg), W.Resolved(1, cfg)] ==>
      SnapshotOf(1, row, 0).op == 1 && SnapshotOf(1, row, 0).flow == 0
  {
    Fields(1, W.Fresh(1));
    Fields(1, W.Claimed(1));
    Fields(1, W.Unknown(1, cfg));
    Fields(1, W.Late(1, cfg));
    Fields(1, W.Resolved(1, cfg));
    hide SnapshotOf;
  }

  lemma PlainEvent(cfg: Config, op: nat, row: Row)
    requires PlainWriter(cfg) && row.result.None? && row.resultExpires.None? && (row.handle.None? || row.handle == Some("h"))
    ensures Whole(cfg, SnapshotOf(op, row, 0))
  {
    hide Whole, S.OneLine;
    S.Printable("h");
  }

  lemma PlainEvents(cfg: Config)
    requires PlainWriter(cfg)
    ensures Whole(cfg, SnapshotOf(1, W.Fresh(1), 0)) && Whole(cfg, SnapshotOf(1, W.Claimed(1), 0))
    ensures Whole(cfg, SnapshotOf(1, W.Unknown(1, cfg.broker), 0)) && Whole(cfg, SnapshotOf(1, W.Late(1, cfg.broker), 0))
    ensures Whole(cfg, SnapshotOf(1, W.Resolved(1, cfg.broker), 0))
  {
    hide PlainWriter, SnapshotOf, Whole;
    PlainEvent(cfg, 1, W.Fresh(1));
    PlainEvent(cfg, 1, W.Claimed(1));
    PlainEvent(cfg, 1, W.Unknown(1, cfg.broker));
    PlainEvent(cfg, 1, W.Late(1, cfg.broker));
    PlainEvent(cfg, 1, W.Resolved(1, cfg.broker));
  }

  /** For every configuration with a plain writer: the peer's handle is written only after the submission was given up, a
      read job then completes the operation; the client reads all five events, and still shows an unknown outcome. */
  lemma ResultMissed(cfg: Config) returns (run: seq<SysStep>)
    requires PlainWriter(cfg)
    ensures ValidHistory(START, cfg, run)
    ensures var y := Reached(START, cfg, run);
      && y.client.db.cursor == |LogOf(y, cfg)| == 5 && LogOf(y, cfg)[4].op == 1 && LogOf(y, cfg)[4].state.Completed?
      && 1 in y.client.db.ops && Stuck(y.client.db.ops[1].snapshot) && !ShowsOutcome(y.client.db.ops[1], LogOf(y, cfg)[4])
  {
    hide PlainWriter, Whole, Allowed, After, SnapshotOf, B.Exec, B.ValidRun, ValidHistory, Reached, W.Fresh, W.Claimed, W.Unknown, W.Late, W.Resolved;
    Events(cfg.broker);
    PlainEvents(cfg);
    run := Posted(cfg);
    var steps := W.ResolvedLate(cfg.broker, cfg.device);
    run := BrokerRuns(START, cfg, run, steps);
    Opens(cfg, run);
    run := run + [OnClient(OpenStream)];
    run := ReadsOne(cfg, run, 0, None);
    run := ReadsOne(cfg, run, 1, Some(SnapshotOf(1, W.Fresh(1), 0)));
    run := ReadsOne(cfg, run, 2, Some(SnapshotOf(1, W.Claimed(1), 0)));
    run := ReadsOne(cfg, run, 3, Some(SnapshotOf(1, W.Unknown(1, cfg.broker), 0)));
    run := ReadsOne(cfg, run, 4, Some(SnapshotOf(1, W.Unknown(1, cfg.broker), 0)));
  }
}
