/** Concrete steps of the broker, for the histories that show where a promise stops. */
module Scenes {
  import opened Common
  import opened Ledger
  import opened B = Broker
  import BT = BrokerTheorems
  import opened Runs

  /** What the next step needs to know of the broker. */
  datatype Scene = Scene(
    ops: map<Key, Row>, outbox: map<Key, OutboxState>, payloads: map<Key, Payload>,
    streams: map<Key, Job>, probes: map<Key, Job>, claims: seq<Key>, completions: set<Key>, log: seq<Snapshot>)

  ghost predicate At(b: B.Broker, d: string, s: Scene) {
    && b.up && b.db.ops == s.ops && b.db.outbox == s.outbox && b.db.payloads == s.payloads && b.db.artifacts == []
    && b.streams == s.streams && b.probes == s.probes && b.cancels == map[]
    && b.claims == s.claims && b.completions == s.completions && Log(b.db.log, d) == s.log
  }

  const BARE := Scene(map[], map[], map[], map[], map[], [], {}, [])

  const WAITING := Job(None, false, None, false)

  function Publishes(s: Scene, k: Key, row: Row): Scene {
    s.(ops := s.ops[k := row], log := s.log + [SnapshotOf(k.op, row, 0)])
  }

  lemma Published(db: Ledger, cfg: Settings, k: Key, row: Row)
    ensures var db' := Publish(db, cfg, k, row, 0);
      && db'.ops == db.ops[k := row] && db'.outbox == db.outbox && db'.payloads == db.payloads && db'.artifacts == db.artifacts
      && Log(db'.log, k.device) == Log(db.log, k.device) + [SnapshotOf(k.op, row, 0)]
  {
    hide SnapshotOf;
  }

  /** Everything happens at time 0. */
  predicate AtZero(run: seq<Step>) {
    forall i :: 0 <= i < |run| && BT.Timed(run[i]) ==> run[i].now == 0
  }

  /** `run` leads from `b0` to the scene. */
  ghost predicate Reaches(cfg: Settings, b0: B.Broker, run: seq<Step>, d: string, s: Scene) {
    ValidRun(b0, cfg, run) && AtZero(run) && At(Exec(b0, cfg, run), d, s)
  }

  lemma {:induction false} ZeroIsMonotone(run: seq<Step>)
    requires AtZero(run)
    ensures BT.Monotone(0, run)
    decreases |run|
  {
    if run != [] { ZeroIsMonotone(run[1..]); }
  }

  lemma Goes(cfg: Settings, b0: B.Broker, run: seq<Step>, step: Step, d: string, s: Scene, s': Scene)
    requires Reaches(cfg, b0, run, d, s)
    requires Enabled(Exec(b0, cfg, run), cfg, step) && At(Next(Exec(b0, cfg, run), cfg, step), d, s')
    requires BT.Timed(step) ==> step.now == 0
    ensures Reaches(cfg, b0, run + [step], d, s')
  {
    hide Enabled, Next, At;
    Snoc(b0, cfg, run, step);
  }

  // ---------------------------------------------------------------- the steps

  lemma Recovers(cfg: Settings, uuids: Key -> nat, d: string)
    ensures Enabled(INITIAL, cfg, Recover([], 0, uuids)) && At(Next(INITIAL, cfg, Recover([], 0, uuids)), d, BARE)
  {
  }

  lemma Accepts(cfg: Settings, b: B.Broker, d: string, s: Scene, req: Request)
    requires At(b, d, s) && Key(d, req.op) !in s.ops && req.artifacts == [] && |req.prompt| <= cfg.maxArtifactBytes
    requires forall k :: k in s.ops ==> !Active(s.ops[k].state)
    ensures var k := Key(d, req.op); var step := AcceptRequest(d, req, 0);
      && Enabled(b, cfg, step)
      && At(Next(b, cfg, step), d,
            Publishes(s, k, NewRow(req, 0)).(outbox := s.outbox[k := Pending], payloads := s.payloads[k := Payload(req, cfg.payloadTtl)]))
  {
    var k := Key(d, req.op);
    var db1 := b.db.(payloads := b.db.payloads[k := Payload(req, 0 + cfg.payloadTtl)], outbox := b.db.outbox[k := Pending]);
    Published(db1, cfg, k, NewRow(req, 0));
    assert ActiveKeys(b.db.ops, d) == {};
    assert InputBytes(b.db.artifacts, d, req.artifacts, 0) == Ok(0);
    hide Publish, SnapshotOf, ActiveKeys, InputBytes;
    assert Distinct(req.artifacts);
  }

  lemma Claims(cfg: Settings, b: B.Broker, s: Scene, k: Key, req: Request)
    requires At(b, k.device, s) && s.streams == map[] && k in s.ops && s.ops[k].state.Accepted?
    requires k in s.outbox && s.outbox[k].Pending? && k in s.payloads && s.payloads[k] == Payload(req, cfg.payloadTtl) && req.artifacts == []
    requires forall j :: j in s.ops && j != k ==> Final(s.ops[j].state)
    ensures var step := TakeClaim(k, 0, 0);
      && Enabled(b, cfg, step)
      && At(Next(b, cfg, step), k.device,
            Publishes(s, k, s.ops[k].(state := Running, updated := 0))
            .(outbox := s.outbox[k := Claimed], streams := map[k := WAITING], claims := s.claims + [k]))
  {
    var db1 := Touch(b.db, k.device);
    Published(db1.(outbox := db1.outbox[k := Claimed]), cfg, k, s.ops[k].(state := Running, updated := 0));
    assert Candidate(b.db, k);
    assert FirstCandidate(b.db, k);
    assert Available(b.db.artifacts, k.device, req.artifacts, 0);
    hide Publish, SnapshotOf, Candidate, FirstCandidate, Available;
  }

  lemma Begins(cfg: Settings, b: B.Broker, d: string, s: Scene, t: Table, k: Key)
    requires At(b, d, s) && !t.Cancels? && k in Jobs(b, t) && !Jobs(b, t)[k].started && !Jobs(b, t)[k].ended
    ensures var step := Start(t, k); var job := Jobs(b, t)[k].(started := true);
      && Enabled(b, cfg, step)
      && At(Next(b, cfg, step), d, if t.Streams? then s.(streams := s.streams[k := job]) else s.(probes := s.probes[k := job]))
  {
  }

  lemma GivesUp(cfg: Settings, b: B.Broker, s: Scene, k: Key)
    requires At(b, k.device, s) && k in s.streams && k in s.ops && !Final(s.ops[k].state) && k in s.outbox
    ensures var step := GiveUp(k, 0, 0);
      && Enabled(b, cfg, step)
      && At(Next(b, cfg, step), k.device,
            Publishes(s, k, FinishedRow(s.ops[k], cfg, OutcomeUnknown, None, Some(SubmissionUnknown), 0, 0))
            .(outbox := s.outbox[k := Done], payloads := s.payloads - {k}, streams := s.streams[k := s.streams[k].(ended := true)]))
  {
    var db1 := Touch(b.db, k.device);
    Published(db1.(payloads := db1.payloads - {k}, outbox := db1.outbox[k := Done]), cfg, k,
              FinishedRow(s.ops[k], cfg, OutcomeUnknown, None, Some(SubmissionUnknown), 0, 0));
    hide Publish, SnapshotOf, FinishedRow;
  }

  /** A handle is saved for the first time. */
  lemma Saves(cfg: Settings, b: B.Broker, s: Scene, k: Key, handle: string, done: bool)
    requires At(b, k.device, s) && k in s.streams && s.streams[k].started && k in s.ops && !Final(s.ops[k].state)
    requires s.ops[k].handle.None? && ValidHandle(handle)
    ensures var step := Observe(Streams, k, handle, done, done, 0);
      && Enabled(b, cfg, step)
      && At(Next(b, cfg, step), k.device,
            Publishes(s, k, s.ops[k].(handle := Some(handle), updated := 0))
            .(streams := if done then s.streams[k := s.streams[k].(observed := Some(handle))] else s.streams,
              completions := if done then s.completions + {k} else s.completions))
  {
    Published(b.db, cfg, k, s.ops[k].(handle := Some(handle), updated := 0));
    hide Publish, SnapshotOf;
  }

  /** A read job sees the saved handle again, with a completed result. */
  lemma Sees(cfg: Settings, b: B.Broker, s: Scene, k: Key, handle: string)
    requires At(b, k.device, s) && k in s.probes && s.probes[k].started && s.probes[k].target == Some(handle)
    requires k in s.ops && s.ops[k].handle == Some(handle) && ValidHandle(handle)
    ensures var step := Observe(Reads, k, handle, true, true, 0);
      && Enabled(b, cfg, step)
      && At(Next(b, cfg, step), k.device,
            s.(probes := s.probes[k := s.probes[k].(observed := Some(handle))], completions := s.completions + {k}))
  {
  }

  lemma Settles(cfg: Settings, b: B.Broker, s: Scene, t: Table, k: Key, result: Option<OpResult>)
    requires At(b, k.device, s) && !t.Cancels? && k in Jobs(b, t) && Jobs(b, t)[k].observed.Some? && k in s.completions
    requires k in s.ops && !Final(s.ops[k].state) && k in s.outbox && (result.Some? ==> result.value.size <= cfg.maxResultBytes)
    ensures var step := Settle(t, k, Completed, result, None, 0, 0); var job := Jobs(b, t)[k].(ended := true);
      && Enabled(b, cfg, step)
      && At(Next(b, cfg, step), k.device,
            Publishes(s, k, FinishedRow(s.ops[k], cfg, Completed, result, None, 0, 0))
            .(outbox := s.outbox[k := Done], payloads := s.payloads - {k},
              streams := if t.Streams? then s.streams[k := job] else s.streams,
              probes := if t.Streams? then s.probes else s.probes[k := job]))
  {
    var db1 := Touch(b.db, k.device);
    Published(db1.(payloads := db1.payloads - {k}, outbox := db1.outbox[k := Done]), cfg, k,
              FinishedRow(s.ops[k], cfg, Completed, result, None, 0, 0));
    hide Publish, SnapshotOf, FinishedRow;
  }

  lemma Reaps(cfg: Settings, b: B.Broker, d: string, s: Scene, k: Key)
    requires At(b, d, s) && s.streams.Keys == {k} && s.streams[k].ended
    ensures Enabled(b, cfg, Reap(Streams, k)) && At(Next(b, cfg, Reap(Streams, k)), d, s.(streams := map[]))
  {
    assert s.streams - {k} == map[];
  }

  lemma StartsRead(cfg: Settings, b: B.Broker, s: Scene, k: Key)
    requires At(b, k.device, s) && s.ops.Keys == {k} && Reconcilable(s.ops[k]) && s.streams == map[] && s.probes == map[]
    ensures var step := TakeReads([k], 0);
      && Enabled(b, cfg, step)
      && At(Next(b, cfg, step), k.device,
            s.(ops := map[k := s.ops[k].(polled := Some(0))], probes := map[k := Job(s.ops[k].handle, false, None, false)]))
  {
    assert [k][..0] == [];
    assert StartReads(b, cfg, [k][..0]) == map[];
    assert Poll(b.db.ops, (set j | j in [k]), 0) == map[k := s.ops[k].(polled := Some(0))];
  }
}
