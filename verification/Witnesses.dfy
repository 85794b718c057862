/** Histories in which a promise that looks natural fails: the pair order of claims, and learning a final result. */
module Witnesses {
  import opened Common
  import opened L = Ledger
  import opened B = Broker
  import BT = BrokerTheorems
  import opened Runs
  import opened Scenes

  function Asks(op: nat): Request {
    Request(op, 0, "p", [])
  }

  /** A new operation as it waits, and as it runs. */
  function Fresh(op: nat): Row {
    NewRow(Asks(op), 0)
  }

  function Claimed(op: nat): Row {
    Fresh(op).(state := Running, updated := 0)
  }

  // ---------------------------------------------------------------- a late arrival

  /** An operation is accepted and claimed while nothing else is active. */
  lemma Taken(cfg: Settings, b0: B.Broker, before: seq<Step>, d: string, s: Scene, op: nat) returns (run: seq<Step>, s': Scene)
    requires Reaches(cfg, b0, before, d, s) && Key(d, op) !in s.ops && s.streams == map[]
    requires forall k :: k in s.ops ==> Final(s.ops[k].state)
    ensures Reaches(cfg, b0, run, d, s') && before <= run
    ensures forall i :: |before| <= i < |run| && run[i].AcceptRequest? ==> run[i].request == Asks(op)
    ensures var k := Key(d, op);
      && s'.ops == s.ops[k := Claimed(op)] && s'.outbox == s.outbox[k := OutboxState.Claimed]
      && s'.streams == map[k := WAITING] && s'.probes == s.probes && s'.claims == s.claims + [k] && s'.completions == s.completions
      && s'.log == s.log + [SnapshotOf(op, Fresh(op), 0), SnapshotOf(op, Claimed(op), 0)]
  {
    hide Enabled, Next, Exec, ValidRun, SnapshotOf, At;
    var k := Key(d, op);
    var step := AcceptRequest(d, Asks(op), 0);
    var s1 := Publishes(s, k, Fresh(op)).(outbox := s.outbox[k := Pending], payloads := s.payloads[k := Payload(Asks(op), cfg.payloadTtl)]);
    Accepts(cfg, Exec(b0, cfg, before), d, s, Asks(op));
    Goes(cfg, b0, before, step, d, s, s1);
    var run1 := before + [step];
    Claims(cfg, Exec(b0, cfg, run1), s1, k, Asks(op));
    s' := Publishes(s1, k, s1.ops[k].(state := Running, updated := 0))
          .(outbox := s1.outbox[k := OutboxState.Claimed], streams := map[k := WAITING], claims := s1.claims + [k]);
    Goes(cfg, b0, run1, TakeClaim(k, 0, 0), d, s1, s');
    run := run1 + [TakeClaim(k, 0, 0)];
  }

  /** Its stream begins and reports completion. */
  lemma Reported(cfg: Settings, b0: B.Broker, before: seq<Step>, d: string, s: Scene, k: Key) returns (run: seq<Step>, s': Scene)
    requires Reaches(cfg, b0, before, d, s) && k.device == d && s.streams == map[k := WAITING]
    requires k in s.ops && s.ops[k].state.Running? && s.ops[k].handle.None?
    ensures Reaches(cfg, b0, run, d, s') && before <= run && forall i :: |before| <= i < |run| ==> !run[i].AcceptRequest?
    ensures s'.log == s.log + [SnapshotOf(k.op, s.ops[k].(handle := Some("h"), updated := 0), 0)]
    ensures s'.streams == map[k := Job(None, true, Some("h"), false)] && s'.completions == s.completions + {k}
    ensures s'.ops == s.ops[k := s.ops[k].(handle := Some("h"), updated := 0)]
    ensures s'.outbox == s.outbox && s'.payloads == s.payloads && s'.probes == s.probes && s'.claims == s.claims
  {
    hide Enabled, Next, Exec, ValidRun, SnapshotOf, At;
    StreamTable(Exec(b0, cfg, before), d, s, k);
    Begins(cfg, Exec(b0, cfg, before), d, s, Streams, k);
    var s1 := s.(streams := s.streams[k := WAITING.(started := true)]);
    Goes(cfg, b0, before, Start(Streams, k), d, s, s1);
    var run1 := before + [Start(Streams, k)];
    Saves(cfg, Exec(b0, cfg, run1), s1, k, "h", true);
    s' := Publishes(s1, k, s1.ops[k].(handle := Some("h"), updated := 0))
          .(streams := s1.streams[k := s1.streams[k].(observed := Some("h"))], completions := s1.completions + {k});
    Goes(cfg, b0, run1, Observe(Streams, k, "h", true, true, 0), d, s1, s');
    run := run1 + [Observe(Streams, k, "h", true, true, 0)];
  }

  /** The operation is completed and the job reaped. */
  lemma Served(cfg: Settings, b0: B.Broker, before: seq<Step>, d: string, s: Scene, k: Key, result: Option<OpResult>)
    returns (run: seq<Step>, s': Scene)
    requires Reaches(cfg, b0, before, d, s) && k.device == d && s.streams == map[k := Job(None, true, Some("h"), false)]
    requires k in s.ops && !Final(s.ops[k].state) && k in s.outbox && k in s.completions
    requires result.Some? ==> result.value.size <= cfg.maxResultBytes
    ensures Reaches(cfg, b0, run, d, s') && before <= run && forall i :: |before| <= i < |run| ==> !run[i].AcceptRequest?
    ensures s'.streams == map[] && s'.claims == s.claims && s'.ops == s.ops[k := FinishedRow(s.ops[k], cfg, Completed, result, None, 0, 0)]
    ensures s'.log == s.log + [SnapshotOf(k.op, FinishedRow(s.ops[k], cfg, Completed, result, None, 0, 0), 0)]
  {
    hide Enabled, Next, Exec, ValidRun, SnapshotOf, At, FinishedRow;
    StreamTable(Exec(b0, cfg, before), d, s, k);
    Scenes.Settles(cfg, Exec(b0, cfg, before), s, Streams, k, result);
    var step := Settle(Streams, k, Completed, result, None, 0, 0);
    var s1 := Publishes(s, k, FinishedRow(s.ops[k], cfg, Completed, result, None, 0, 0))
              .(outbox := s.outbox[k := Done], payloads := s.payloads - {k}, streams := s.streams[k := s.streams[k].(ended := true)]);
    Goes(cfg, b0, before, step, d, s, s1);
    assert s1.streams.Keys == {k};
    Reaps(cfg, Exec(b0, cfg, before + [step]), d, s1, k);
    s' := s1.(streams := map[]);
    Goes(cfg, b0, before + [step], Reap(Streams, k), d, s1, s');
    run := before + [step] + [Reap(Streams, k)];
  }

  lemma StreamTable(b: B.Broker, d: string, s: Scene, k: Key)
    requires At(b, d, s) && k in s.streams
    ensures k in Jobs(b, Streams) && Jobs(b, Streams)[k] == s.streams[k]
  {
  }

  lemma Opening(cfg: Settings, d: string) returns (run: seq<Step>)
    ensures Reaches(cfg, INITIAL, run, d, BARE) && forall i :: 0 <= i < |run| ==> !run[i].AcceptRequest?
  {
    hide SnapshotOf;
    var step := Recover([], 0, k => 0);
    Recovers(cfg, k => 0, d);
    run := [step];
    assert [step][1..] == [];
    hide Enabled, Next, At;
    assert Exec(INITIAL, cfg, run) == Exec(Next(INITIAL, cfg, step), cfg, []);
  }

  /** Operation 2 is claimed and completed; operation 1 of the same flow is accepted at the same time, and claimed after
      it: the claims are not in (created_at, operation_id) order. */
  lemma LateArrival(cfg: Settings, d: string) returns (run: seq<Step>)
    ensures ValidRun(INITIAL, cfg, run) && BT.Monotone(0, run)
    ensures var b := Exec(INITIAL, cfg, run);
      && b.claims == [Key(d, 2), Key(d, 1)] && BT.SameFlow(b.db.ops, b.claims[0], b.claims[1])
      && !Before(b.db.ops[b.claims[0]].created, b.claims[0].op, b.db.ops[b.claims[1]].created, b.claims[1].op)
  {
    hide Enabled, Next, Exec, ValidRun, SnapshotOf;
    var s, s1, s2;
    run := Opening(cfg, d);
    run, s := Taken(cfg, INITIAL, run, d, BARE, 2);
    run, s := Reported(cfg, INITIAL, run, d, s, Key(d, 2));
    run, s1 := Served(cfg, INITIAL, run, d, s, Key(d, 2), None);
    run, s2 := Taken(cfg, INITIAL, run, d, s1, 1);
    ZeroIsMonotone(run);
  }

  // ---------------------------------------------------------------- a handle saved too late

  /** The rows of an operation given up without a handle, given one afterwards, and completed through it. */
  function Unknown(op: nat, cfg: Settings): Row {
    FinishedRow(Claimed(op), cfg, OutcomeUnknown, None, Some(SubmissionUnknown), 0, 0)
  }

  function Late(op: nat, cfg: Settings): Row {
    Unknown(op, cfg).(handle := Some("h"), updated := 0)
  }

  function Resolved(op: nat, cfg: Settings): Row {
    FinishedRow(Late(op, cfg).(polled := Some(0)), cfg, Completed, None, None, 0, 0)
  }

  /** The submission is given up while its first handle is still being written; the write goes through afterwards. */
  lemma LateHandle(cfg: Settings, b0: B.Broker, before: seq<Step>, d: string, s: Scene, op: nat) returns (run: seq<Step>, s': Scene)
    requires Reaches(cfg, b0, before, d, s) && s.streams == map[Key(d, op) := WAITING] && s.probes == map[]
    requires s.ops == map[Key(d, op) := Claimed(op)] && Key(d, op) in s.outbox
    ensures Reaches(cfg, b0, run, d, s') && before <= run && forall i :: |before| <= i < |run| ==> !run[i].AcceptRequest?
    ensures s'.streams == map[] && s'.probes == map[] && s'.ops == map[Key(d, op) := Late(op, cfg)] && Key(d, op) in s'.outbox
    ensures s'.log == s.log + [SnapshotOf(op, Unknown(op, cfg), 0), SnapshotOf(op, Late(op, cfg), 0)]
  {
    hide Enabled, Next, Exec, ValidRun, SnapshotOf, At, FinishedRow;
    var k := Key(d, op);
    FinishedKeeps(Claimed(op), cfg, OutcomeUnknown, Some(SubmissionUnknown));
    StreamTable(Exec(b0, cfg, before), d, s, k);
    Begins(cfg, Exec(b0, cfg, before), d, s, Streams, k);
    var s1 := s.(streams := s.streams[k := WAITING.(started := true)]);
    Goes(cfg, b0, before, Start(Streams, k), d, s, s1);
    var run1 := before + [Start(Streams, k)];
    GivesUp(cfg, Exec(b0, cfg, run1), s1, k);
    var s2 := Publishes(s1, k, Unknown(op, cfg))
              .(outbox := s1.outbox[k := Done], payloads := s1.payloads - {k}, streams := s1.streams[k := s1.streams[k].(ended := true)]);
    Goes(cfg, b0, run1, GiveUp(k, 0, 0), d, s1, s2);
    var run2 := run1 + [GiveUp(k, 0, 0)];
    run, s' := Written(cfg, b0, run2, d, s2, op);
  }

  lemma Written(cfg: Settings, b0: B.Broker, before: seq<Step>, d: string, s: Scene, op: nat) returns (run: seq<Step>, s': Scene)
    requires Reaches(cfg, b0, before, d, s) && s.streams == map[Key(d, op) := Job(None, true, None, true)]
    requires s.ops == map[Key(d, op) := Unknown(op, cfg)]
    ensures Reaches(cfg, b0, run, d, s') && before <= run && forall i :: |before| <= i < |run| ==> !run[i].AcceptRequest?
    ensures s'.streams == map[] && s'.probes == s.probes && s'.ops == map[Key(d, op) := Late(op, cfg)] && s'.outbox == s.outbox
    ensures s'.log == s.log + [SnapshotOf(op, Late(op, cfg), 0)]
  {
    hide Enabled, Next, Exec, ValidRun, SnapshotOf, At, FinishedRow;
    var k := Key(d, op);
    FinishedKeeps(Claimed(op), cfg, OutcomeUnknown, Some(SubmissionUnknown));
    var step := Observe(Streams, k, "h", false, false, 0);
    Saves(cfg, Exec(b0, cfg, before), s, k, "h", false);
    var s1 := Publishes(s, k, Late(op, cfg));
    assert s1 == Publishes(s, k, s.ops[k].(handle := Some("h"), updated := 0)).(streams := s.streams, completions := s.completions);
    Goes(cfg, b0, before, step, d, s, s1);
    assert s1.streams.Keys == {k};
    Reaps(cfg, Exec(b0, cfg, before + [step]), d, s1, k);
    s' := s1.(streams := map[]);
    Goes(cfg, b0, before + [step], Reap(Streams, k), d, s1, s');
    run := before + [step] + [Reap(Streams, k)];
  }

  lemma FinishedKeeps(row: Row, cfg: Settings, state: OpState, code: Option<Code>)
    ensures var r := FinishedRow(row, cfg, state, None, code, 0, 0);
      && r.state == state && r.handle == row.handle && r.flow == row.flow && r.created == row.created
      && r.resultId == (if row.resultId.Some? then row.resultId else Some(0)) && r.result.None? && r.resultExpires.None? && r.error == code
  {
  }

  /** A read job finds the operation by its handle and completes it. */
  lemma Reconciled(cfg: Settings, b0: B.Broker, before: seq<Step>, d: string, s: Scene, op: nat) returns (run: seq<Step>, s': Scene)
    requires Reaches(cfg, b0, before, d, s) && s.streams == map[] && s.probes == map[]
    requires s.ops == map[Key(d, op) := Late(op, cfg)] && Key(d, op) in s.outbox
    ensures Reaches(cfg, b0, run, d, s') && before <= run && forall i :: |before| <= i < |run| ==> !run[i].AcceptRequest?
    ensures s'.log == s.log + [SnapshotOf(op, Resolved(op, cfg), 0)]
  {
    hide Enabled, Next, Exec, ValidRun, SnapshotOf, At, FinishedRow;
    var k := Key(d, op);
    FinishedKeeps(Claimed(op), cfg, OutcomeUnknown, Some(SubmissionUnknown));
    assert s.ops.Keys == {k};
    StartsRead(cfg, Exec(b0, cfg, before), s, k);
    var s1 := s.(ops := map[k := s.ops[k].(polled := Some(0))], probes := map[k := Job(s.ops[k].handle, false, None, false)]);
    Goes(cfg, b0, before, TakeReads([k], 0), d, s, s1);
    var run1 := before + [TakeReads([k], 0)];
    ReadTable(Exec(b0, cfg, run1), d, s1, k);
    Begins(cfg, Exec(b0, cfg, run1), d, s1, Reads, k);
    var s2 := s1.(probes := s1.probes[k := s1.probes[k].(started := true)]);
    Goes(cfg, b0, run1, Start(Reads, k), d, s1, s2);
    run, s' := ReadResult(cfg, b0, run1 + [Start(Reads, k)], d, s2, op);
  }

  lemma ReadResult(cfg: Settings, b0: B.Broker, before: seq<Step>, d: string, s: Scene, op: nat) returns (run: seq<Step>, s': Scene)
    requires Reaches(cfg, b0, before, d, s) && s.probes == map[Key(d, op) := Job(Some("h"), true, None, false)]
    requires s.ops == map[Key(d, op) := Late(op, cfg).(polled := Some(0))] && Key(d, op) in s.outbox
    ensures Reaches(cfg, b0, run, d, s') && before <= run && forall i :: |before| <= i < |run| ==> !run[i].AcceptRequest?
    ensures s'.log == s.log + [SnapshotOf(op, Resolved(op, cfg), 0)]
  {
    hide Enabled, Next, Exec, ValidRun, SnapshotOf, At, FinishedRow;
    var k := Key(d, op);
    FinishedKeeps(Claimed(op), cfg, OutcomeUnknown, Some(SubmissionUnknown));
    var see, settle := Observe(Reads, k, "h", true, true, 0), Settle(Reads, k, Completed, None, None, 0, 0);
    Sees(cfg, Exec(b0, cfg, before), s, k, "h");
    var s1 := s.(probes := s.probes[k := s.probes[k].(observed := Some("h"))], completions := s.completions + {k});
    Goes(cfg, b0, before, see, d, s, s1);
    ReadTable(Exec(b0, cfg, before + [see]), d, s1, k);
    Scenes.Settles(cfg, Exec(b0, cfg, before + [see]), s1, Reads, k, None);
    s' := Publishes(s1, k, FinishedRow(s1.ops[k], cfg, Completed, None, None, 0, 0))
          .(outbox := s1.outbox[k := Done], payloads := s1.payloads - {k}, probes := s1.probes[k := s1.probes[k].(ended := true)]);
    Goes(cfg, b0, before + [see], settle, d, s1, s');
    run := before + [see] + [settle];
  }

  lemma ReadTable(b: B.Broker, d: string, s: Scene, k: Key)
    requires At(b, d, s) && k in s.probes
    ensures k in Jobs(b, Reads) && Jobs(b, Reads)[k] == s.probes[k]
  {
  }

  /** The whole run of the broker, and the five events it leaves. */
  lemma ResolvedLate(cfg: Settings, d: string) returns (run: seq<Step>)
    ensures ValidRun(INITIAL, cfg, run) && forall i :: 0 <= i < |run| && run[i].AcceptRequest? ==> run[i].request == Asks(1)
    ensures Log(Exec(INITIAL, cfg, run).db.log, d)
         == [SnapshotOf(1, Fresh(1), 0), SnapshotOf(1, Claimed(1), 0), SnapshotOf(1, Unknown(1, cfg), 0),
             SnapshotOf(1, Late(1, cfg), 0), SnapshotOf(1, Resolved(1, cfg), 0)]
  {
    hide Enabled, Next, Exec, ValidRun, SnapshotOf, FinishedRow;
    var s;
    var start := Opening(cfg, d);
    var taken, given;
    taken, s := Taken(cfg, INITIAL, start, d, BARE, 1);
    given, s := LateHandle(cfg, INITIAL, taken, d, s, 1);
    run, s := Reconciled(cfg, INITIAL, given, d, s, 1);
  }

  // ---------------------------------------------------------------- a completed operation and a later one

  /** The rows of an operation whose stream reported its handle, and then completion with a result. */
  function Named(op: nat): Row {
    Claimed(op).(handle := Some("h"), updated := 0)
  }

  function Completes(op: nat, cfg: Settings, result: OpResult): Row {
    FinishedRow(Named(op), cfg, Completed, Some(result), None, 0, 0)
  }

  lemma CompletesAs(op: nat, cfg: Settings, result: OpResult)
    ensures Completes(op, cfg, result).state.Completed?
  {
  }

  /** Operation 1 completes with the given result; operation 2 is accepted and claimed afterwards. */
  lemma CompletedThenNext(cfg: Settings, d: string, result: OpResult) returns (run: seq<Step>)
    requires result.size <= cfg.maxResultBytes
    ensures ValidRun(INITIAL, cfg, run)
    ensures forall i :: 0 <= i < |run| && run[i].AcceptRequest? ==> run[i].request == Asks(1) || run[i].request == Asks(2)
    ensures Log(Exec(INITIAL, cfg, run).db.log, d)
         == [SnapshotOf(1, Fresh(1), 0), SnapshotOf(1, Claimed(1), 0), SnapshotOf(1, Named(1), 0),
             SnapshotOf(1, Completes(1, cfg, result), 0), SnapshotOf(2, Fresh(2), 0), SnapshotOf(2, Claimed(2), 0)]
  {
    hide Enabled, Next, Exec, ValidRun, SnapshotOf, FinishedRow;
    var s, s1;
    var start := Opening(cfg, d);
    var taken, told, served;
    taken, s := Taken(cfg, INITIAL, start, d, BARE, 1);
    told, s := Reported(cfg, INITIAL, taken, d, s, Key(d, 1));
    served, s := Served(cfg, INITIAL, told, d, s, Key(d, 1), Some(result));
    CompletesAs(1, cfg, result);
    run, s1 := Taken(cfg, INITIAL, served, d, s, 2);
  }
}
