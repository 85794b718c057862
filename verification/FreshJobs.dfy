/** A claimed operation whose stream job has not begun: still running, without a handle, and never seen completed. */
module FreshJobs {
  import opened Common
  import opened Ledger
  import opened LedgerInvariant
  import opened LedgerSteps
  import opened Broker
  import opened BrokerInvariant
  import opened BrokerSteps
  import opened BrokerTheorems

  predicate FreshRow(row: Row) {
    row.state.Running? && row.handle.None?
  }

  predicate Waits(job: Job) {
    !job.started && !job.ended
  }

  predicate FreshOk(streams: map<Key, Job>, ops: map<Key, Row>) {
    forall k :: k in streams ==>
      (streams[k].observed.Some? ==> streams[k].started) && (Waits(streams[k]) ==> k in ops && FreshRow(ops[k]))
  }

  /** A completion was observed together with a handle, unless the operation was final already. */
  predicate CompletionsKnown(completions: set<Key>, ops: map<Key, Row>) {
    forall k :: k in completions ==> k in ops && (ops[k].handle.Some? || Final(ops[k].state))
  }

  /** The broker invariant together with what it says about jobs that have not begun. */
  ghost predicate Sound(cfg: Settings, b: Broker) {
    BrokerInv(cfg, b) && FreshOk(b.streams, b.db.ops) && CompletionsKnown(b.completions, b.db.ops)
  }

  // ---------------------------------------------------------------- fresh rows through the transactions

  ghost predicate KeepsFresh(ops: map<Key, Row>, ops': map<Key, Row>, except: Option<Key>) {
    forall k :: k in ops && FreshRow(ops[k]) && except != Some(k) ==> k in ops' && FreshRow(ops'[k])
  }

  lemma AcceptFresh(db: Ledger, cfg: Settings, d: string, req: Request, now: int)
    ensures KeepsFresh(db.ops, Accept(db, cfg, d, req, now).db.ops, None)
  {
    hide InputBytes, Distinct, ActiveKeys;
  }

  lemma CloseFresh(db: Ledger, cfg: Settings, k: Key, state: OpState, result: Option<OpResult>, code: Option<Code>, now: int, uuid: nat)
    requires k in db.ops
    ensures KeepsFresh(db.ops, Close(db, cfg, k, state, result, code, now, uuid).ops, Some(k))
  {
    hide SnapshotOf;
  }

  lemma CancelFresh(db: Ledger, cfg: Settings, k: Key, now: int, uuid: nat)
    ensures KeepsFresh(db.ops, CancelIntent(db, cfg, k, now, uuid).db.ops, None)
  {
    if k in db.ops { CloseFresh(Touch(db, k.device), cfg, k, Canceled, None, None, now, uuid); }
    hide SnapshotOf;
  }

  lemma PurgeFresh(db: Ledger, now: int)
    ensures KeepsFresh(db.ops, Purge(db, now).ops, None)
  {
    hide PurgeDevice, DropExpired;
  }

  lemma RequestFresh(cfg: Settings, db: Ledger, s: Step)
    requires IsRequest(s)
    ensures KeepsFresh(db.ops, Requested(db, cfg, s).ops, None)
  {
    hide Accept, CancelIntent, Purge, FreshRow;
    match s
    case AcceptRequest(d, req, now) => AcceptFresh(db, cfg, d, req, now);
    case CancelRequest(k, now, uuid) => CancelFresh(db, cfg, k, now, uuid);
    case PurgeTick(now) => PurgeFresh(db, now);
    case _ => hide DropExpired, StoredBytes, Holds, PurgeDevice, Page;
  }

  lemma ClaimFresh(db: Ledger, cfg: Settings, k: Key, now: int, uuid: nat)
    requires Candidate(db, k)
    ensures KeepsFresh(db.ops, Claim(db, cfg, k, now, uuid).0.ops, None)
    ensures Claim(db, cfg, k, now, uuid).1.Some? ==>
      var row := Claim(db, cfg, k, now, uuid).0.ops[k]; row.state.Running? && row.handle == db.ops[k].handle
  {
    hide Available, SnapshotOf;
  }

  lemma FinishFresh(db: Ledger, cfg: Settings, k: Key, state: OpState, result: Option<OpResult>, code: Option<Code>, now: int, uuid: nat)
    ensures KeepsFresh(db.ops, Finish(db, cfg, k, state, result, code, now, uuid).db.ops, Some(k))
  {
    if k in db.ops && Terminal(state) {
      CloseFresh(Touch(db, k.device), cfg, k, state, result, code, now, uuid);
      CloseFresh(Touch(db, k.device), cfg, k, Failed, None, Some(ResultTooLarge), now, uuid);
    }
    hide Close, SnapshotOf;
  }

  lemma SaveHandleFresh(db: Ledger, cfg: Settings, k: Key, handle: string, now: int)
    ensures var r := SaveHandle(db, cfg, k, handle, now);
      && KeepsFresh(db.ops, r.db.ops, Some(k))
      && (r.reply.Ok? ==> k in r.db.ops && (r.db.ops[k].handle.Some? || Final(r.db.ops[k].state)))
  {
    hide SnapshotOf;
  }

  lemma PollFresh(ops: map<Key, Row>, keys: set<Key>, now: int)
    ensures KeepsFresh(ops, Poll(ops, keys, now), None)
  {
  }

  lemma CancelClaimFresh(db: Ledger, k: Key)
    requires k in db.ops
    ensures KeepsFresh(db.ops, ClaimCancel(db, k).ops, None)
  {
  }

  // ---------------------------------------------------------------- every step

  /** Completions stay known as rows evolve. */
  lemma KnownStable(completions: set<Key>, ops: map<Key, Row>, ops': map<Key, Row>)
    requires CompletionsKnown(completions, ops) && OpsEvolve(ops, ops')
    ensures CompletionsKnown(completions, ops')
  {
    forall k | k in completions ensures k in ops' && (ops'[k].handle.Some? || Final(ops'[k].state)) {
      assert RowEvolves(ops[k], ops'[k]);
    }
  }

  /** A job of another table, or one that has begun, is never about an operation whose stream job still waits. */
  lemma NotWaiting(cfg: Settings, b: Broker, t: Table, k: Key)
    requires Sound(cfg, b) && k in Jobs(b, t) && (t.Streams? ==> b.streams[k].started)
    ensures k in b.streams ==> !Waits(b.streams[k])
  {
    hide LedgerInv, ClaimsOk, SubmissionsOk, PeerCancelsOk, CompletedOk;
    if t.Cancels? { assert JobOk(Cancels, k, b.cancels[k], b.db.ops); }
  }

  /** Whose row a job step may touch. */
  function Touched(s: Step): Option<Key> {
    if s.Observe? || s.Settle? || s.GiveUp? then Some(s.k) else None
  }

  lemma RowsAfterJob(cfg: Settings, b: Broker, s: Step)
    requires Enabled(b, cfg, s) && IsJob(s)
    ensures KeepsFresh(b.db.ops, Next(b, cfg, s).db.ops, Touched(s))
  {
    hide Finish, SaveHandle, StartReads, Poll, ClaimCancel, CloseAll, Claim, WithJob, WithJobs, Accept, CancelIntent, Purge,
      PutArtifact, AddReceipt, Events, FreshRow;
    match s
    case Observe(t, k, handle, terminal, completed, now) => SaveHandleFresh(b.db, cfg, k, handle, now);
    case Settle(t, k, state, result, code, now, uuid) => FinishFresh(b.db, cfg, k, state, result, code, now, uuid);
    case GiveUp(k, now, uuid) => FinishFresh(b.db, cfg, k, OutcomeUnknown, None, Some(SubmissionUnknown), now, uuid);
    case _ =>
  }

  lemma RowsAfterLoop(cfg: Settings, b: Broker, s: Step)
    requires Enabled(b, cfg, s) && !IsJob(s) && !IsRequest(s) && !s.Recover?
    ensures KeepsFresh(b.db.ops, Next(b, cfg, s).db.ops, None)
  {
    hide Claim, Poll, ClaimCancel, StartReads, FreshRow, Candidate;
    match s
    case TakeCancel(k) => CancelClaimFresh(b.db, k);
    case TakeReads(keys, now) => PollFresh(b.db.ops, (set k | k in keys), now);
    case TakeClaim(k, now, uuid) => ClaimFresh(b.db, cfg, k, now, uuid);
  }

  /** What becomes of a stream job in a step: nothing, or it is the step's own and moves forward. */
  predicate Moves(a: Job, b: Job) {
    (a.started ==> b.started) && (a.ended ==> b.ended) && (b.observed == a.observed || a.started)
  }

  predicate StreamsMove(a: map<Key, Job>, b: map<Key, Job>) {
    forall k :: k in b ==> k in a && Moves(a[k], b[k])
  }

  lemma WithJobStreams(b: Broker, t: Table, k: Key, job: Job)
    requires k in Jobs(b, t) && Moves(Jobs(b, t)[k], job)
    ensures StreamsMove(b.streams, WithJob(b, t, k, job).streams)
    ensures t.Streams? ==> k in WithJob(b, t, k, job).streams && WithJob(b, t, k, job).streams[k] == job
  {
  }

  lemma ReapStreams(b: Broker, t: Table, k: Key)
    ensures StreamsMove(b.streams, WithJobs(b, t, Jobs(b, t) - {k}).streams)
  {
  }

  lemma StreamsAfterJob(cfg: Settings, b: Broker, s: Step)
    requires Enabled(b, cfg, s) && IsJob(s) && !s.Observe?
    ensures StreamsMove(b.streams, Next(b, cfg, s).streams)
    ensures (s.GiveUp? || (s.Settle? && s.table.Streams?)) && s.k in Next(b, cfg, s).streams ==> Next(b, cfg, s).streams[s.k].ended
  {
    hide Finish, SaveHandle, StartReads, Poll, ClaimCancel, CloseAll, Claim, Accept, CancelIntent, Purge, PutArtifact, AddReceipt,
      Events, FirstCandidate, ListsRunning, Cancelable, Reconcilable, WithJob, WithJobs, StreamsMove;
    match s
    case Reap(t, k) => ReapStreams(b, t, k);
    case Start(t, k) => WithJobStreams(b, t, k, Jobs(b, t)[k].(started := true));
    case Settle(t, k, _, _, _, _, _) => WithJobStreams(b, t, k, Jobs(b, t)[k].(ended := true));
    case GiveUp(k, _, _) => WithJobStreams(b, Streams, k, b.streams[k].(ended := true));
    case EndJob(t, k) => WithJobStreams(b, t, k, Jobs(b, t)[k].(ended := true));
    case Crash => NoStreams(b.streams);
  }

  lemma NoStreams(streams: map<Key, Job>)
    ensures StreamsMove(streams, map[])
  {
  }

  lemma SameStreams(b: Broker)
    ensures StreamsMove(b.streams, b.streams)
  {
  }

  lemma StreamsAfterObserve(cfg: Settings, b: Broker, s: Step)
    requires Enabled(b, cfg, s) && s.Observe?
    ensures StreamsMove(b.streams, Next(b, cfg, s).streams)
    ensures var r := SaveHandle(b.db, cfg, s.k, s.handle, s.now);
      Next(b, cfg, s).db == r.db && (Next(b, cfg, s).completions == b.completions || (r.reply.Ok? && Next(b, cfg, s).completions == b.completions + {s.k}))
  {
    hide SaveHandle, StreamsMove, WithJob;
    SameStreams(b);
    var r := SaveHandle(b.db, cfg, s.k, s.handle, s.now);
    WithJobStreams(b.(db := r.db), s.table, s.k, Jobs(b, s.table)[s.k].(observed := Some(s.handle)));
  }

  lemma FreshAfter(cfg: Settings, b: Broker, s: Step)
    requires Sound(cfg, b) && Enabled(b, cfg, s) && IsJob(s)
    ensures FreshOk(Next(b, cfg, s).streams, Next(b, cfg, s).db.ops)
  {
    hide BrokerInv, Next, Enabled, FreshRow, SaveHandle;
    var b' := Next(b, cfg, s);
    RowsAfterJob(cfg, b, s);
    if s.Observe? { StreamsAfterObserve(cfg, b, s); } else { StreamsAfterJob(cfg, b, s); }
    if s.Observe? || s.Settle? {
      StartedThen(cfg, b, s);
      NotWaiting(cfg, b, s.table, s.k);
    }
    forall k | k in b'.streams
      ensures (b'.streams[k].observed.Some? ==> b'.streams[k].started) && (Waits(b'.streams[k]) ==> k in b'.db.ops && FreshRow(b'.db.ops[k]))
    {
      assert Moves(b.streams[k], b'.streams[k]);
      if Waits(b'.streams[k]) { assert Touched(s) != Some(k); }
    }
  }

  lemma StartedThen(cfg: Settings, b: Broker, s: Step)
    requires Sound(cfg, b) && Enabled(b, cfg, s) && (s.Observe? || s.Settle?)
    ensures s.k in Jobs(b, s.table) && (s.table.Streams? ==> b.streams[s.k].started)
  {
    hide BrokerInv, FreshRow;
  }

  /** Every step keeps it. */
  lemma SoundStep(cfg: Settings, b: Broker, s: Step)
    requires Sound(cfg, b) && Enabled(b, cfg, s)
    ensures Sound(cfg, Next(b, cfg, s)) && LedgerEvolves(b.db, Next(b, cfg, s).db)
  {
    var b' := Next(b, cfg, s);
    EveryStep(cfg, b, s);
    OpsOf(b.db, b'.db);
    KnownStable(b.completions, b.db.ops, b'.db.ops);
    hide LedgerEvolves, BrokerInv, FreshOk, CompletionsKnown, Enabled, Next;
    if IsRequest(s) {
      RequestNext(cfg, b, s);
      RequestFresh(cfg, b.db, s);
      SameStreams(b);
      FreshStays(b.streams, b.db.ops, b'.streams, b'.db.ops);
    } else if IsJob(s) {
      FreshAfter(cfg, b, s);
      KnownAfterJob(cfg, b, s);
    } else {
      LoopSound(cfg, b, s);
    }
  }

  lemma FreshStays(streams: map<Key, Job>, ops: map<Key, Row>, streams': map<Key, Job>, ops': map<Key, Row>)
    requires FreshOk(streams, ops) && KeepsFresh(ops, ops', None) && streams' == streams
    ensures FreshOk(streams', ops')
  {
  }

  lemma KnownAfterJob(cfg: Settings, b: Broker, s: Step)
    requires Sound(cfg, b) && Enabled(b, cfg, s) && IsJob(s) && CompletionsKnown(b.completions, Next(b, cfg, s).db.ops)
    ensures CompletionsKnown(Next(b, cfg, s).completions, Next(b, cfg, s).db.ops)
  {
    hide Sound, Next, Enabled, SaveHandle;
    if s.Observe? {
      StreamsAfterObserve(cfg, b, s);
      SaveHandleFresh(b.db, cfg, s.k, s.handle, s.now);
    } else {
      CompletionsSame(cfg, b, s);
    }
  }

  lemma CompletionsSame(cfg: Settings, b: Broker, s: Step)
    requires Enabled(b, cfg, s) && !s.Observe? && !IsRequest(s)
    ensures Next(b, cfg, s).completions == b.completions
  {
    hide Finish, SaveHandle, StartReads, Poll, ClaimCancel, CloseAll, Claim, Accept, CancelIntent, Purge, PutArtifact, AddReceipt,
      Events, FirstCandidate, ListsRunning, Cancelable, Reconcilable, WithJob, WithJobs;
  }

  lemma LoopSound(cfg: Settings, b: Broker, s: Step)
    requires Sound(cfg, b) && Enabled(b, cfg, s) && !IsRequest(s) && !IsJob(s) && CompletionsKnown(b.completions, Next(b, cfg, s).db.ops)
    ensures FreshOk(Next(b, cfg, s).streams, Next(b, cfg, s).db.ops)
    ensures CompletionsKnown(Next(b, cfg, s).completions, Next(b, cfg, s).db.ops)
  {
    hide BrokerInv, Next, Enabled, FreshOk, CompletionsKnown;
    CompletionsSame(cfg, b, s);
    if s.TakeClaim? {
      ClaimSound(cfg, b, s);
    } else if s.Recover? {
      RecoverSound(cfg, b, s);
    } else {
      RowsAfterLoop(cfg, b, s);
      LoopStreams(cfg, b, s);
      FreshStays(b.streams, b.db.ops, Next(b, cfg, s).streams, Next(b, cfg, s).db.ops);
    }
  }

  lemma LoopStreams(cfg: Settings, b: Broker, s: Step)
    requires Enabled(b, cfg, s) && (s.TakeCancel? || s.TakeReads?)
    ensures Next(b, cfg, s).streams == b.streams
  {
    hide Claim, Poll, ClaimCancel, StartReads, Cancelable, Reconcilable;
  }

  lemma RecoverSound(cfg: Settings, b: Broker, s: Step)
    requires BrokerInv(cfg, b) && Enabled(b, cfg, s) && s.Recover?
    ensures FreshOk(Next(b, cfg, s).streams, Next(b, cfg, s).db.ops)
  {
    hide LedgerInv, JobsOk, ClaimsOk, SubmissionsOk, PeerCancelsOk, CompletedOk, CloseAll, ListsRunning;
    assert Next(b, cfg, s).streams == map[];
  }

  lemma WaitingRow(cfg: Settings, b: Broker, k: Key)
    requires BrokerInv(cfg, b) && k in b.db.ops && b.db.ops[k].state.Accepted?
    ensures b.db.ops[k].handle.None?
  {
    hide DevicesOk, FoldAgrees, HistoryOk, PendingOk, QuotaOk, FlowsOk, OutboxOk, PayloadsOk, JobsOk, ClaimsOk, SubmissionsOk,
      PeerCancelsOk, CompletedOk, CapacityOk;
    assert RowOk(k, b.db.ops[k]);
  }

  lemma ClaimNext(cfg: Settings, b: Broker, s: Step)
    requires Enabled(b, cfg, s) && s.TakeClaim?
    ensures s.k in b.db.ops && Candidate(b.db, s.k) && b.db.ops[s.k].state.Accepted?
    ensures var r := Claim(b.db, cfg, s.k, s.now, s.uuid);
      && Next(b, cfg, s).db == r.0
      && Next(b, cfg, s).streams == if r.1.None? then b.streams else b.streams[s.k := Job(None, false, None, false)]
  {
    hide Claim;
  }

  lemma ClaimSound(cfg: Settings, b: Broker, s: Step)
    requires Sound(cfg, b) && Enabled(b, cfg, s) && s.TakeClaim?
    ensures FreshOk(Next(b, cfg, s).streams, Next(b, cfg, s).db.ops)
  {
    hide BrokerInv, Claim, Candidate, Next, Enabled;
    ClaimNext(cfg, b, s);
    RowsAfterLoop(cfg, b, s);
    ClaimFresh(b.db, cfg, s.k, s.now, s.uuid);
    WaitingRow(cfg, b, s.k);
  }

  lemma SoundStart(cfg: Settings)
    ensures Sound(cfg, INITIAL)
  {
    InitialOk(cfg);
    hide BrokerInv;
  }

  lemma {:induction false} SoundRun(cfg: Settings, b: Broker, run: seq<Step>)
    requires Sound(cfg, b) && ValidRun(b, cfg, run)
    ensures Sound(cfg, Exec(b, cfg, run))
    decreases |run|
  {
    hide Sound, LedgerEvolves, Enabled, Next;
    if run != [] {
      SoundStep(cfg, b, run[0]);
      SoundRun(cfg, Next(b, cfg, run[0]), run[1..]);
    }
  }

  /** In every reachable state, a claimed operation whose stream job has not begun is running, has no handle, and
      no peer result has ever been seen for it. */
  lemma FreshlyClaimed(cfg: Settings, run: seq<Step>, k: Key)
    requires ValidRun(INITIAL, cfg, run)
    requires k in Exec(INITIAL, cfg, run).streams && Waits(Exec(INITIAL, cfg, run).streams[k])
    ensures var b := Exec(INITIAL, cfg, run);
      k in b.db.ops && b.db.ops[k].state.Running? && b.db.ops[k].handle.None? && k !in b.completions
  {
    hide Enabled, Next, BrokerInv;
    SoundStart(cfg);
    SoundRun(cfg, INITIAL, run);
    hide Exec, ValidRun;
  }
}
