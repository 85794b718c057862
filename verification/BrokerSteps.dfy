/** Every broker step keeps the broker invariant and moves the ledger forward. */
module BrokerSteps {
  import opened Common
  import opened Ledger
  import opened LedgerInvariant
  import opened LedgerSteps
  import opened Broker
  import opened BrokerInvariant

  ghost predicate StepKeeps(cfg: Settings, b: Broker, b': Broker) {
    BrokerInv(cfg, b') && LedgerEvolves(b.db, b'.db)
  }

  // ---------------------------------------------------------------- requests and retention

  lemma AcceptNotCompleted(db: Ledger, cfg: Settings, d: string, req: Request, now: int)
    ensures NoNewCompleted(db.ops, Accept(db, cfg, d, req, now).db.ops)
  {
    hide InputBytes, Distinct, ActiveKeys;
  }

  lemma CloseNotCompleted(db: Ledger, cfg: Settings, k: Key, state: OpState, result: Option<OpResult>, code: Option<Code>,
                          now: int, uuid: nat)
    requires k in db.ops && !state.Completed?
    ensures NoNewCompleted(db.ops, Close(db, cfg, k, state, result, code, now, uuid).ops)
  {
  }

  lemma CancelNotCompleted(db: Ledger, cfg: Settings, k: Key, now: int, uuid: nat)
    ensures NoNewCompleted(db.ops, CancelIntent(db, cfg, k, now, uuid).db.ops)
  {
    if k in db.ops {
      CloseNotCompleted(Touch(db, k.device), cfg, k, Canceled, None, None, now, uuid);
    }
  }

  lemma PurgeNotCompleted(db: Ledger, now: int)
    ensures NoNewCompleted(db.ops, Purge(db, now).ops)
  {
    hide PurgeDevice, DropExpired;
  }

  /** The ledger a request or a retention tick leaves behind. */
  function Requested(db: Ledger, cfg: Settings, s: Step): Ledger {
    match s
    case AcceptRequest(d, req, now) => Accept(db, cfg, d, req, now).db
    case CancelRequest(k, now, uuid) => CancelIntent(db, cfg, k, now, uuid).db
    case EventsRequest(d, after, now) => Events(db, d, after, now).db
    case ReceiptRequest(d, receipt) => AddReceipt(db, d, receipt).db
    case UploadRequest(d, content, digest, typeOk, textPlain, utf8, now, id) =>
      PutArtifact(db, cfg, d, content, digest, typeOk, textPlain, utf8, now, id).db
    case PurgeTick(now) => Purge(db, now)
    case _ => db
  }

  predicate IsRequest(s: Step) {
    || s.AcceptRequest? || s.GetRequest? || s.CancelRequest? || s.EventsRequest? || s.ReceiptRequest? || s.UploadRequest?
    || s.PurgeTick?
  }

  lemma RequestedKeeps(cfg: Settings, db: Ledger, s: Step)
    requires LedgerInv(cfg, db)
    ensures Keeps(cfg, db, Requested(db, cfg, s)) && NoNewCompleted(db.ops, Requested(db, cfg, s).ops)
  {
    hide LedgerInv, LedgerEvolves, Accept, CancelIntent, Purge;
    match s
    case AcceptRequest(d, req, now) =>
      AcceptKeeps(cfg, db, d, req, now);
      AcceptNotCompleted(db, cfg, d, req, now);
    case CancelRequest(k, now, uuid) =>
      CancelIntentKeeps(cfg, db, k, now, uuid);
      CancelNotCompleted(db, cfg, k, now, uuid);
    case EventsRequest(d, after, now) => EventsKeeps(cfg, db, d, after, now);
    case ReceiptRequest(d, receipt) => ReceiptKeeps(cfg, db, d, receipt);
    case UploadRequest(d, content, digest, typeOk, textPlain, utf8, now, id) =>
      PutArtifactKeeps(cfg, db, d, content, digest, typeOk, textPlain, utf8, now, id);
    case PurgeTick(now) =>
      PurgeKeeps(cfg, db, now);
      PurgeNotCompleted(db, now);
    case _ => SameKeeps(cfg, db);
  }

  lemma RequestNext(cfg: Settings, b: Broker, s: Step)
    requires Enabled(b, cfg, s) && IsRequest(s)
    ensures Next(b, cfg, s) == b.(db := Requested(b.db, cfg, s))
  {
    hide Accept, CancelIntent, Purge, PutArtifact, AddReceipt, Events;
  }

  lemma RequestKeeps(cfg: Settings, b: Broker, s: Step)
    requires BrokerInv(cfg, b) && Enabled(b, cfg, s) && IsRequest(s)
    ensures StepKeeps(cfg, b, Next(b, cfg, s))
  {
    hide LedgerInv, LedgerEvolves, Next, Enabled, Requested, IsRequest, CapacityOk, ClaimsOk, SubmissionsOk, PeerCancelsOk, JobsOk;
    RequestNext(cfg, b, s);
    RequestedKeeps(cfg, b.db, s);
    CompletedStable(b.db.ops, Requested(b.db, cfg, s).ops, b.completions);
    LedgerOnly(cfg, b, Requested(b.db, cfg, s), b.completions);
  }

  // ---------------------------------------------------------------- taking cancels

  lemma ClaimCancelRow(db: Ledger, k: Key)
    requires k in db.ops && Cancelable(db.ops[k])
    ensures NoNewCompleted(db.ops, ClaimCancel(db, k).ops)
    ensures JobOk(Cancels, k, Job(db.ops[k].handle, false, None, false), ClaimCancel(db, k).ops)
  {
  }

  lemma TakeCancelKeeps(cfg: Settings, b: Broker, k: Key)
    requires BrokerInv(cfg, b) && |b.cancels| < cfg.maxStreams && b.up && k in b.db.ops && Cancelable(b.db.ops[k])
    ensures k !in b.cancels && k !in b.peerCancels
    ensures StepKeeps(cfg, b, b.(db := ClaimCancel(b.db, k),
                                 cancels := b.cancels[k := Job(b.db.ops[k].handle, false, None, false)]))
  {
    hide LedgerInv, LedgerEvolves, ClaimCancel, SubmissionsOk, ClaimsOk, CompletedOk;
    var db, job := ClaimCancel(b.db, k), Job(b.db.ops[k].handle, false, None, false);
    ClaimCancelKeeps(cfg, b.db, k);
    ClaimCancelRow(b.db, k);
    CompletedStable(b.db.ops, db.ops, b.completions);
    assert k !in b.cancels && k !in b.peerCancels;
    LedgerOnly(cfg, b, db, b.completions);
    JobsPut(Cancels, b.cancels, k, job, db.ops);
    PutSize(b.cancels, k, job);
    hide JobsOk, JobOk;
  }

  // ---------------------------------------------------------------- taking reads

  lemma StartReadsOk(b: Broker, cfg: Settings, keys: seq<Key>)
    requires JobsOk(Reads, b.probes, b.db.ops) && |b.probes| <= cfg.maxStreams && b.streams.Keys !! b.probes.Keys
    requires forall k :: k in keys ==> k in b.db.ops && Reconcilable(b.db.ops[k])
    ensures var probes := StartReads(b, cfg, keys);
      && JobsOk(Reads, probes, b.db.ops) && |probes| <= cfg.maxStreams && b.streams.Keys !! probes.Keys
      && (forall k :: k in b.probes ==> k in probes && probes[k] == b.probes[k])
      && (forall k :: k in probes && k in b.cancels ==> k in b.probes)
  {
    if keys != [] {
      var rest, k := keys[..|keys| - 1], keys[|keys| - 1];
      assert k in keys;
      StartReadsOk(b, cfg, rest);
      PutSize(StartReads(b, cfg, rest), k, Job(b.db.ops[k].handle, false, None, false));
    }
  }

  lemma PollJobs(jobs: map<Key, Job>, ops: map<Key, Row>, polled: set<Key>, now: int)
    requires JobsOk(Reads, jobs, ops)
    ensures JobsOk(Reads, jobs, Poll(ops, polled, now))
  {
    forall k | k in jobs ensures JobOk(Reads, k, jobs[k], Poll(ops, polled, now)) {
      assert JobOk(Reads, k, jobs[k], ops);
    }
  }

  lemma TakeReadsKeeps(cfg: Settings, b: Broker, keys: seq<Key>, now: int)
    requires BrokerInv(cfg, b) && b.up
    requires forall k :: k in keys ==> k in b.db.ops && Reconcilable(b.db.ops[k])
    ensures StepKeeps(cfg, b, b.(db := b.db.(ops := Poll(b.db.ops, (set k | k in keys), now)),
                                 probes := StartReads(b, cfg, keys)))
  {
    hide LedgerInv, LedgerEvolves, ClaimsOk, SubmissionsOk, PeerCancelsOk, JobOk;
    var polled := set k | k in keys;
    var db := b.db.(ops := Poll(b.db.ops, polled, now));
    PollKeeps(cfg, b.db, polled, now);
    LedgerOnly(cfg, b, db, b.completions);
    StartReadsOk(b, cfg, keys);
    PollJobs(StartReads(b, cfg, keys), b.db.ops, polled, now);
    hide JobsOk, CompletedOk;
  }

  // ---------------------------------------------------------------- claiming

  lemma ClaimNotCompleted(db: Ledger, cfg: Settings, k: Key, now: int, uuid: nat)
    requires k in db.ops
    ensures NoNewCompleted(db.ops, Claim(db, cfg, k, now, uuid).0.ops)
  {
    CloseNotCompleted(Touch(db, k.device), cfg, k, Failed, None, Some(PayloadExpired), now, uuid);
    CloseNotCompleted(Touch(db, k.device), cfg, k, Failed, None, Some(ArtifactExpired), now, uuid);
    hide Available, Close, SnapshotOf;
  }

  lemma ClaimsAppend(b: Broker, ops: map<Key, Row>, k: Key, job: Job)
    requires ClaimsOk(b.claims, b.streams, ops) && SubmissionsOk(b.submissions, b.claims, b.streams)
    requires k !in b.claims && k in ops && !ops[k].state.Accepted?
    ensures ClaimsOk(b.claims + [k], b.streams[k := job], ops)
    ensures SubmissionsOk(b.submissions, b.claims + [k], b.streams[k := job])
  {
  }

  lemma NotYetClaimed(cfg: Settings, b: Broker, k: Key)
    requires BrokerInv(cfg, b) && k in b.db.ops && b.db.ops[k].state.Accepted?
    ensures k !in b.claims && k !in b.streams && k !in b.probes
  {
    hide LedgerInv, CapacityOk, SubmissionsOk, PeerCancelsOk;
  }

  lemma TakeClaimKeeps(cfg: Settings, b: Broker, k: Key, now: int, uuid: nat)
    requires BrokerInv(cfg, b) && b.up && |b.streams| < cfg.maxStreams && Candidate(b.db, k)
    ensures var r := Claim(b.db, cfg, k, now, uuid);
      && StepKeeps(cfg, b, b.(db := r.0))
      && (r.1.Some? ==> StepKeeps(cfg, b, b.(db := r.0, claims := b.claims + [k],
                                             streams := b.streams[k := Job(None, false, None, false)])))
  {
    hide LedgerInv, LedgerEvolves, Claim, ClaimsOk, SubmissionsOk, PeerCancelsOk, CompletedOk, JobsOk;
    var r := Claim(b.db, cfg, k, now, uuid);
    NotYetClaimed(cfg, b, k);
    ClaimKeeps(cfg, b.db, k, now, uuid);
    ClaimNotCompleted(b.db, cfg, k, now, uuid);
    CompletedStable(b.db.ops, r.0.ops, b.completions);
    LedgerOnly(cfg, b, r.0, b.completions);
    if r.1.Some? {
      var job := Job(None, false, None, false);
      ClaimsAppend(b, r.0.ops, k, job);
      JobsPut(Streams, b.streams, k, job, r.0.ops);
      PutSize(b.streams, k, job);
    }
  }

  // ---------------------------------------------------------------- jobs

  lemma ReapKeeps(cfg: Settings, b: Broker, t: Table, k: Key)
    requires BrokerInv(cfg, b) && b.up && k in Jobs(b, t)
    ensures StepKeeps(cfg, b, WithJobs(b, t, Jobs(b, t) - {k}))
  {
    hide LedgerInv, LedgerEvolves, JobsOk, CompletedOk, Distinct;
    SameKeeps(cfg, b.db);
    JobsDrop(t, Jobs(b, t), k, b.db.ops);
  }

  lemma StartKeeps(cfg: Settings, b: Broker, t: Table, k: Key)
    requires BrokerInv(cfg, b) && b.up && k in Jobs(b, t) && !Jobs(b, t)[k].started
    ensures var b' := WithJob(b, t, k, Jobs(b, t)[k].(started := true));
      && (t.Streams? ==> k !in b.submissions && StepKeeps(cfg, b, b'.(submissions := b.submissions + [k])))
      && (t.Cancels? ==> k !in b.peerCancels && StepKeeps(cfg, b, b'.(peerCancels := b.peerCancels + [k])))
      && (t.Reads? ==> StepKeeps(cfg, b, b'))
  {
    hide LedgerInv, LedgerEvolves, CompletedOk, CapacityOk;
    var job := Jobs(b, t)[k].(started := true);
    SameKeeps(cfg, b.db);
    assert JobOk(t, k, Jobs(b, t)[k], b.db.ops);
    JobChanged(cfg, b, t, k, job);
    hide JobsOk, JobOk;
  }

  lemma SaveHandleNotCompleted(db: Ledger, cfg: Settings, k: Key, handle: string, now: int)
    ensures NoNewCompleted(db.ops, SaveHandle(db, cfg, k, handle, now).db.ops)
  {
  }

  lemma ObserveKeeps(cfg: Settings, b: Broker, t: Table, k: Key, handle: string, now: int, completions: set<Key>)
    requires BrokerInv(cfg, b) && b.up && k in Jobs(b, t) && Jobs(b, t)[k].started && b.completions <= completions
    ensures var r := SaveHandle(b.db, cfg, k, handle, now);
      && StepKeeps(cfg, b, b.(db := r.db))
      && (r.reply.Ok? ==>
            StepKeeps(cfg, b, WithJob(b.(db := r.db), t, k, Jobs(b, t)[k].(observed := Some(handle))).(completions := completions)))
  {
    hide LedgerInv, LedgerEvolves, SaveHandle, CapacityOk, ClaimsOk, SubmissionsOk, PeerCancelsOk;
    assert JobOk(t, k, Jobs(b, t)[k], b.db.ops);
    var r := SaveHandle(b.db, cfg, k, handle, now);
    SaveHandleKeeps(cfg, b.db, k, handle, now);
    SaveHandleNotCompleted(b.db, cfg, k, handle, now);
    CompletedStable(b.db.ops, r.db.ops, b.completions);
    LedgerOnly(cfg, b, r.db, b.completions);
    LedgerOnly(cfg, b, r.db, completions);
    var b1 := b.(db := r.db, completions := completions);
    assert JobOk(t, k, Jobs(b1, t)[k], b1.db.ops);
    if r.reply.Ok? {
      JobChanged(cfg, b1, t, k, Jobs(b, t)[k].(observed := Some(handle)));
    }
  }

  lemma FinishCompleted(db: Ledger, cfg: Settings, k: Key, state: OpState, result: Option<OpResult>,
                        code: Option<Code>, now: int, uuid: nat, completions: set<Key>)
    requires k in db.ops && CompletedOk(db.ops, completions) && (state.Completed? ==> k in completions)
    ensures CompletedOk(Finish(db, cfg, k, state, result, code, now, uuid).db.ops, completions)
  {
    CloseCompleted(Touch(db, k.device), cfg, k, state, result, code, now, uuid, completions);
    CloseCompleted(Touch(db, k.device), cfg, k, Failed, None, Some(ResultTooLarge), now, uuid, completions);
    hide Close, CompletedOk;
  }

  lemma CloseCompleted(db: Ledger, cfg: Settings, k: Key, state: OpState, result: Option<OpResult>,
                       code: Option<Code>, now: int, uuid: nat, completions: set<Key>)
    requires k in db.ops && CompletedOk(db.ops, completions) && (state.Completed? ==> k in completions)
    ensures CompletedOk(Close(db, cfg, k, state, result, code, now, uuid).ops, completions)
  {
    hide SnapshotOf;
  }

  lemma FinishLedger(cfg: Settings, db: Ledger, k: Key, state: OpState, result: Option<OpResult>,
                     code: Option<Code>, now: int, uuid: nat)
    requires LedgerInv(cfg, db) && k in db.ops && !db.ops[k].state.Accepted? && Terminal(state)
    requires Final(state) || result.Some? ==> db.ops[k].handle.Some? || Final(db.ops[k].state)
    ensures var r := Finish(db, cfg, k, state, result, code, now, uuid);
      Keeps(cfg, db, r.db) && k in r.db.ops && Terminal(r.db.ops[k].state)
  {
    hide LedgerInv, LedgerEvolves;
    if Final(db.ops[k].state) {
      TouchKeeps(db, cfg, k.device);
    } else {
      FinishKeeps(cfg, db, k, state, result, code, now, uuid);
    }
  }

  /** A job's last transaction, then the end of the job. */
  lemma JobFinish(cfg: Settings, b: Broker, t: Table, k: Key, state: OpState, result: Option<OpResult>,
                  code: Option<Code>, now: int, uuid: nat)
    requires BrokerInv(cfg, b) && b.up && k in Jobs(b, t) && Terminal(state)
    requires Final(state) || result.Some? ==> Jobs(b, t)[k].observed.Some?
    requires state.Completed? ==> k in b.completions
    ensures var r := Finish(b.db, cfg, k, state, result, code, now, uuid);
      StepKeeps(cfg, b, WithJob(b, t, k, Jobs(b, t)[k].(ended := true)).(db := r.db))
  {
    hide LedgerInv, LedgerEvolves, Finish, CapacityOk, ClaimsOk, SubmissionsOk, PeerCancelsOk, CompletedOk;
    assert JobOk(t, k, Jobs(b, t)[k], b.db.ops);
    var r := Finish(b.db, cfg, k, state, result, code, now, uuid);
    FinishLedger(cfg, b.db, k, state, result, code, now, uuid);
    FinishCompleted(b.db, cfg, k, state, result, code, now, uuid, b.completions);
    LedgerOnly(cfg, b, r.db, b.completions);
    EndsWell(cfg, b.(db := r.db), t, k);
  }

  lemma EndsWell(cfg: Settings, b: Broker, t: Table, k: Key)
    requires BrokerInv(cfg, b) && b.up && k in Jobs(b, t) && k in b.db.ops && Terminal(b.db.ops[k].state)
    ensures BrokerInv(cfg, WithJob(b, t, k, Jobs(b, t)[k].(ended := true)))
  {
    hide LedgerInv, CapacityOk, ClaimsOk, SubmissionsOk, PeerCancelsOk, CompletedOk;
    assert JobOk(t, k, Jobs(b, t)[k], b.db.ops);
    JobChanged(cfg, b, t, k, Jobs(b, t)[k].(ended := true));
  }

  lemma EndKeeps(cfg: Settings, b: Broker, t: Table, k: Key)
    requires BrokerInv(cfg, b) && b.up && k in Jobs(b, t)
    requires t.Streams? ==> k in b.db.ops && Final(b.db.ops[k].state)
    ensures StepKeeps(cfg, b, WithJob(b, t, k, Jobs(b, t)[k].(ended := true)))
  {
    hide LedgerInv, LedgerEvolves, CapacityOk, ClaimsOk, SubmissionsOk, PeerCancelsOk, CompletedOk;
    SameKeeps(cfg, b.db);
    assert JobOk(t, k, Jobs(b, t)[k], b.db.ops);
    JobChanged(cfg, b, t, k, Jobs(b, t)[k].(ended := true));
  }

  // ---------------------------------------------------------------- process

  lemma CrashKeeps(cfg: Settings, b: Broker)
    requires BrokerInv(cfg, b)
    ensures StepKeeps(cfg, b, b.(up := false, streams := map[], probes := map[], cancels := map[]))
  {
    hide LedgerInv, LedgerEvolves, CompletedOk;
    SameKeeps(cfg, b.db);
  }

  lemma CloseAllNotCompleted(db: Ledger, cfg: Settings, keys: seq<Key>, now: int, uuids: Key -> nat)
    requires forall k :: k in keys ==> k in db.ops
    ensures NoNewCompleted(db.ops, CloseAll(db, cfg, keys, now, uuids).ops)
  {
    if keys != [] {
      CloseAllNotCompleted(db, cfg, keys[..|keys| - 1], now, uuids);
    }
  }

  lemma RecoverKeeps(cfg: Settings, b: Broker, keys: seq<Key>, now: int, uuids: Key -> nat)
    requires BrokerInv(cfg, b) && !b.up && ListsRunning(b.db, keys)
    ensures StepKeeps(cfg, b, b.(up := true, db := CloseAll(b.db, cfg, keys, now, uuids)))
  {
    hide LedgerInv, LedgerEvolves, JobsOk, ClaimsOk, SubmissionsOk, PeerCancelsOk, CompletedOk;
    CloseAllKeeps(cfg, b.db, keys, now, uuids);
    CloseAllNotCompleted(b.db, cfg, keys, now, uuids);
    var db := CloseAll(b.db, cfg, keys, now, uuids);
    hide CloseAll, ListsRunning;
    CompletedStable(b.db.ops, db.ops, b.completions);
    LedgerOnly(cfg, b, db, b.completions);
  }

  // ---------------------------------------------------------------- every step

  lemma EveryStep(cfg: Settings, b: Broker, s: Step)
    requires BrokerInv(cfg, b) && Enabled(b, cfg, s)
    ensures StepKeeps(cfg, b, Next(b, cfg, s))
  {
    hide BrokerInv, LedgerEvolves, StepKeeps, ListsRunning, Cancelable, Reconcilable, Candidate, StartReads;
    match s
    case TakeCancel(k) => TakeCancelKeeps(cfg, b, k);
    case TakeReads(keys, now) => TakeReadsKeeps(cfg, b, keys, now);
    case TakeClaim(k, now, uuid) => TakeClaimKeeps(cfg, b, k, now, uuid);
    case Reap(t, k) => ReapKeeps(cfg, b, t, k);
    case Start(t, k) => StartKeeps(cfg, b, t, k);
    case Observe(t, k, handle, terminal, completed, now) =>
      ObserveKeeps(cfg, b, t, k, handle, now, if completed then b.completions + {k} else b.completions);
    case Settle(t, k, state, result, code, now, uuid) => JobFinish(cfg, b, t, k, state, result, code, now, uuid);
    case GiveUp(k, now, uuid) => JobFinish(cfg, b, Streams, k, OutcomeUnknown, None, Some(SubmissionUnknown), now, uuid);
    case EndJob(t, k) => EndKeeps(cfg, b, t, k);
    case Crash => CrashKeeps(cfg, b);
    case Recover(keys, now, uuids) => RecoverKeeps(cfg, b, keys, now, uuids);
    case _ => RequestKeeps(cfg, b, s);
  }

  lemma InitialOk(cfg: Settings)
    ensures BrokerInv(cfg, INITIAL)
  {
    EmptyOk(cfg);
  }
}
