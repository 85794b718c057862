/** How long what the broker holds lasts, over every run: results, waiting payloads, attachments and cancel intents. */
module Lifetimes {
  import opened Common
  import opened Ledger
  import opened Broker
  import opened LedgerInvariant
  import opened BrokerInvariant
  import opened BrokerSteps
  import BT = BrokerTheorems
  import opened Runs
  import opened Transactions

  /** The step deletes what has expired. */
  predicate Deletes(s: Step) {
    s.PurgeTick? || s.UploadRequest?
  }

  /** Nothing is deleted at `horizon` or later. */
  ghost predicate DeletesBefore(run: seq<Step>, horizon: int) {
    forall s :: s in run && Deletes(s) ==> s.now < horizon
  }

  /** Final rows are left alone, up to expired results; payloads of operations that have not ended stay as they are, up
      to expired ones; artifacts stay, up to expired ones. */
  predicate Stays(db: Ledger, db': Ledger, horizon: int) {
    && (forall k :: k in db.ops && Final(db.ops[k].state) && (db.ops[k].resultExpires.None? || db.ops[k].resultExpires.value >= horizon) ==>
          k in db'.ops && db'.ops[k] == db.ops[k])
    && (forall k :: k in db.ops && k in db.payloads && k in db'.ops && !Terminal(db'.ops[k].state) && db.payloads[k].expires >= horizon ==>
          k in db'.payloads && db'.payloads[k] == db.payloads[k])
    && (forall k :: k in db.ops && k in db'.payloads ==> k in db.payloads && db'.payloads[k] == db.payloads[k])
    && (forall a :: a in db.artifacts && a.expires >= horizon ==> a in db'.artifacts)
  }

  lemma Nothing(db: Ledger, db': Ledger, horizon: int)
    requires db'.ops == db.ops && db'.payloads == db.payloads && db'.artifacts == db.artifacts
    ensures Stays(db, db', horizon)
  {
  }

  /** One row that is not final is written; its payload may go when it ends. */
  lemma Writes(db: Ledger, db': Ledger, k: Key, horizon: int)
    requires k in db.ops && k in db'.ops && !Final(db.ops[k].state) && db'.ops - {k} == db.ops - {k}
    requires db'.payloads == db.payloads || (db'.payloads == db.payloads - {k} && Terminal(db'.ops[k].state))
    requires db'.artifacts == db.artifacts
    ensures Stays(db, db', horizon)
  {
    forall j | j in db.ops && j != k ensures j in db'.ops && db'.ops[j] == db.ops[j] {
      assert j in db.ops - {k};
    }
  }

  lemma CloseStays(db: Ledger, cfg: Settings, k: Key, state: OpState, result: Option<OpResult>, code: Option<Code>, now: int, uuid: nat, horizon: int)
    requires k in db.ops && Terminal(state)
    ensures Stays(db, Close(db, cfg, k, state, result, code, now, uuid), horizon)
  {
    hide SnapshotOf, Stays;
    var db' := Close(db, cfg, k, state, result, code, now, uuid);
    if Final(db.ops[k].state) { Nothing(db, db', horizon); } else { Writes(db, db', k, horizon); }
  }

  lemma TouchStays(db: Ledger, d: string, db': Ledger, horizon: int)
    requires Stays(Touch(db, d), db', horizon)
    ensures Stays(db, db', horizon)
  {
  }

  lemma FinishStays(db: Ledger, cfg: Settings, k: Key, state: OpState, result: Option<OpResult>, code: Option<Code>, now: int, uuid: nat, horizon: int)
    ensures Stays(db, Finish(db, cfg, k, state, result, code, now, uuid).db, horizon)
  {
    hide Close, Stays, SnapshotOf;
    Nothing(db, db, horizon);
    if k in db.ops && Terminal(state) {
      CloseStays(Touch(db, k.device), cfg, k, Failed, None, Some(ResultTooLarge), now, uuid, horizon);
      CloseStays(Touch(db, k.device), cfg, k, state, result, code, now, uuid, horizon);
      TouchStays(db, k.device, Finish(db, cfg, k, state, result, code, now, uuid).db, horizon);
    }
  }

  lemma AcceptStays(db: Ledger, cfg: Settings, d: string, req: Request, now: int, horizon: int)
    ensures Stays(db, Accept(db, cfg, d, req, now).db, horizon)
  {
    hide Accept, Admissible;
    if Key(d, req.op) in db.ops { AcceptAgain(db, cfg, d, req, now); } else { AcceptNew(db, cfg, d, req, now); }
    var db', k := Accept(db, cfg, d, req, now).db, Key(d, req.op);
    if k !in db.ops && db' != db {
      forall j | j in db.ops ensures j in db'.ops && db'.ops[j] == db.ops[j] { assert j in db'.ops - {k}; }
      forall j | j in db'.payloads && j != k ensures j in db.payloads && db'.payloads[j] == db.payloads[j] { assert j in db'.payloads - {k}; }
      forall j | j in db.payloads && j != k ensures j in db'.payloads && db'.payloads[j] == db.payloads[j] { assert j in db.payloads - {k}; }
    }
  }

  lemma CancelStays(db: Ledger, cfg: Settings, k: Key, now: int, uuid: nat, horizon: int)
    ensures Stays(db, CancelIntent(db, cfg, k, now, uuid).db, horizon)
  {
    hide Close, Stays, SnapshotOf;
    Nothing(db, db, horizon);
    if k in db.ops {
      var db1, db' := Touch(db, k.device), CancelIntent(db, cfg, k, now, uuid).db;
      CloseStays(db1, cfg, k, Canceled, None, None, now, uuid, horizon);
      Nothing(db1, db1, horizon);
      if Holding(db.ops[k].state) && !db.ops[k].cancelRequested { Writes(db1, db', k, horizon); }
      TouchStays(db, k.device, db', horizon);
    }
  }

  lemma PurgeStays(db: Ledger, now: int, horizon: int)
    requires now < horizon
    ensures Stays(db, Purge(db, now), horizon)
  {
    hide Purge;
    PurgeExact(db, now);
    var db' := Purge(db, now);
    forall k | k in db.ops && (db.ops[k].resultExpires.None? || db.ops[k].resultExpires.value >= horizon) ensures db'.ops[k] == db.ops[k] {
      assert db'.ops[k].(result := db.ops[k].result) == db.ops[k];
    }
  }

  lemma UploadStays(db: Ledger, cfg: Settings, d: string, content: string, digest: string, typeOk: bool, textPlain: bool,
                    utf8: bool, now: int, id: nat, horizon: int)
    requires now < horizon
    ensures Stays(db, PutArtifact(db, cfg, d, content, digest, typeOk, textPlain, utf8, now, id).db, horizon)
  {
    hide PutArtifact;
    UploadOutcome(db, cfg, d, content, digest, typeOk, textPlain, utf8, now, id);
  }

  lemma RequestStays(cfg: Settings, db: Ledger, s: Step, horizon: int)
    requires IsRequest(s) && (Deletes(s) ==> s.now < horizon)
    ensures Stays(db, Requested(db, cfg, s), horizon)
  {
    hide Stays, Accept, CancelIntent, Purge, PutArtifact, PurgeDevice, Page;
    match s
    case AcceptRequest(d, req, now) => AcceptStays(db, cfg, d, req, now, horizon);
    case CancelRequest(k, now, uuid) => CancelStays(db, cfg, k, now, uuid, horizon);
    case PurgeTick(now) => PurgeStays(db, now, horizon);
    case UploadRequest(d, content, digest, typeOk, textPlain, utf8, now, id) =>
      UploadStays(db, cfg, d, content, digest, typeOk, textPlain, utf8, now, id, horizon);
    case _ => Nothing(db, Requested(db, cfg, s), horizon);
  }

  lemma ClaimStays(db: Ledger, cfg: Settings, k: Key, now: int, uuid: nat, horizon: int)
    requires Candidate(db, k)
    ensures Stays(db, Claim(db, cfg, k, now, uuid).0, horizon)
  {
    hide Close, Stays, SnapshotOf, Available;
    var db1, db' := Touch(db, k.device), Claim(db, cfg, k, now, uuid).0;
    CloseStays(db1, cfg, k, Failed, None, Some(PayloadExpired), now, uuid, horizon);
    CloseStays(db1, cfg, k, Failed, None, Some(ArtifactExpired), now, uuid, horizon);
    if Claim(db, cfg, k, now, uuid).1.Some? { Writes(db1, db', k, horizon); }
    TouchStays(db, k.device, db', horizon);
  }

  lemma SaveHandleStays(db: Ledger, cfg: Settings, k: Key, handle: string, now: int, horizon: int)
    ensures Stays(db, SaveHandle(db, cfg, k, handle, now).db, horizon)
  {
    hide Stays, SnapshotOf;
    var db' := SaveHandle(db, cfg, k, handle, now).db;
    if k in db.ops && !Final(db.ops[k].state) { Writes(db, db', k, horizon); } else { Nothing(db, db', horizon); }
  }

  lemma StaysTrans(a: Ledger, b: Ledger, c: Ledger, horizon: int)
    requires Stays(a, b, horizon) && Stays(b, c, horizon) && OpsEvolve(a.ops, b.ops) && OpsEvolve(b.ops, c.ops)
    ensures Stays(a, c, horizon)
  {
    forall k | k in a.ops && k in a.payloads && k in c.ops && !Terminal(c.ops[k].state) && a.payloads[k].expires >= horizon
      ensures k in c.payloads && c.payloads[k] == a.payloads[k]
    {
      assert RowEvolves(b.ops[k], c.ops[k]);
    }
  }

  lemma CancelClaimStays(db: Ledger, k: Key, horizon: int)
    requires k in db.ops && Cancelable(db.ops[k])
    ensures Stays(db, ClaimCancel(db, k), horizon)
  {
    hide Stays, ClaimCancel;
    CancelClaimed(db, k);
    Writes(db, ClaimCancel(db, k), k, horizon);
  }

  lemma PollStays(db: Ledger, keys: set<Key>, now: int, horizon: int)
    requires forall k :: k in keys ==> k in db.ops && Reconcilable(db.ops[k])
    ensures Stays(db, db.(ops := Poll(db.ops, keys, now)), horizon)
  {
  }

  lemma {:induction false} CloseAllArtifacts(db: Ledger, cfg: Settings, keys: seq<Key>, now: int, uuids: Key -> nat)
    requires forall k :: k in keys ==> k in db.ops
    ensures CloseAll(db, cfg, keys, now, uuids).artifacts == db.artifacts
    decreases |keys|
  {
    hide SnapshotOf;
    if keys != [] { CloseAllArtifacts(db, cfg, keys[..|keys| - 1], now, uuids); }
  }

  lemma RecoverStays(db: Ledger, cfg: Settings, keys: seq<Key>, now: int, uuids: Key -> nat, horizon: int)
    requires ListsRunning(db, keys)
    ensures Stays(db, CloseAll(db, cfg, keys, now, uuids), horizon)
  {
    hide CloseAll, ShownForever;
    RecoverOutcome(db, cfg, keys, now, uuids);
    CloseAllArtifacts(db, cfg, keys, now, uuids);
    var db' := CloseAll(db, cfg, keys, now, uuids);
    forall k | k in db.ops ensures db.ops[k].state.Running? ==> db'.ops[k].state.OutcomeUnknown? { RestartedState(db, db', k); }
  }

  lemma RestartedState(db: Ledger, db': Ledger, k: Key)
    requires Restarted(db, db', k)
    ensures db.ops[k].state.Running? ==> db'.ops[k].state.OutcomeUnknown?
  {
    if db.ops[k].state.Running? { assert Get(db', k, 0).Ok?; }
  }

  lemma JobStays(cfg: Settings, b: Broker, s: Step, horizon: int)
    requires Enabled(b, cfg, s) && !IsRequest(s)
    ensures Stays(b.db, Next(b, cfg, s).db, horizon)
  {
    hide Stays, Claim, Finish, SaveHandle, CloseAll, Poll, StartReads, Cancelable, Reconcilable, ListsRunning, Candidate, ClaimCancel;
    var db' := Next(b, cfg, s).db;
    if db' == b.db { Nothing(b.db, db', horizon); }
    match s
    case TakeCancel(k) => CancelClaimStays(b.db, k, horizon);
    case TakeReads(keys, now) => PollStays(b.db, (set k | k in keys), now, horizon);
    case TakeClaim(k, now, uuid) => ClaimStays(b.db, cfg, k, now, uuid, horizon);
    case Observe(t, k, handle, terminal, completed, now) => SaveHandleStays(b.db, cfg, k, handle, now, horizon);
    case Settle(t, k, state, result, code, now, uuid) => FinishStays(b.db, cfg, k, state, result, code, now, uuid, horizon);
    case GiveUp(k, now, uuid) => FinishStays(b.db, cfg, k, OutcomeUnknown, None, Some(SubmissionUnknown), now, uuid, horizon);
    case Recover(keys, now, uuids) => RecoverStays(b.db, cfg, keys, now, uuids, horizon);
    case _ =>
  }

  lemma StepStays(cfg: Settings, b: Broker, s: Step, horizon: int)
    requires Enabled(b, cfg, s) && (Deletes(s) ==> s.now < horizon)
    ensures Stays(b.db, Next(b, cfg, s).db, horizon)
  {
    hide Stays, Requested, Enabled;
    if IsRequest(s) {
      RequestNext(cfg, b, s);
      RequestStays(cfg, b.db, s, horizon);
    } else {
      JobStays(cfg, b, s, horizon);
    }
  }

  lemma {:induction false} RunStays(cfg: Settings, b: Broker, run: seq<Step>, horizon: int)
    requires BrokerInv(cfg, b) && ValidRun(b, cfg, run) && DeletesBefore(run, horizon)
    ensures Stays(b.db, Exec(b, cfg, run).db, horizon) && OpsEvolve(b.db.ops, Exec(b, cfg, run).db.ops)
    decreases |run|
  {
    hide BrokerInv, Enabled, Next, Stays, OpsEvolve;
    BT.RunKeeps(cfg, b, run);
    Evolved(b.db, Exec(b, cfg, run).db);
    if run == [] {
      Nothing(b.db, b.db, horizon);
    } else {
      var b1 := Next(b, cfg, run[0]);
      assert run[0] in run && forall s :: s in run[1..] ==> s in run;
      StepStays(cfg, b, run[0], horizon);
      EveryStep(cfg, b, run[0]);
      Evolved(b.db, b1.db);
      RunStays(cfg, b1, run[1..], horizon);
      StaysTrans(b.db, b1.db, Exec(b, cfg, run).db, horizon);
    }
  }

  lemma Evolved(a: Ledger, b: Ledger)
    requires LedgerEvolves(a, b)
    ensures OpsEvolve(a.ops, b.ops)
  {
  }

  // ---------------------------------------------------------------- results

  /** A final outcome with a result is shown, with the result, at every time before its expiry, whatever happens in
      between, as long as nothing is deleted at or after that; from then on it is shown as expired in any case. */
  lemma ResultLasts(cfg: Settings, b: Broker, run: seq<Step>, k: Key, until: int, t: int)
    requires BrokerInv(cfg, b) && ValidRun(b, cfg, run)
    requires k in b.db.ops && Final(b.db.ops[k].state) && b.db.ops[k].resultExpires == Some(until)
    ensures DeletesBefore(run, until) || t >= until ==> Get(Exec(b, cfg, run).db, k, t) == Get(b.db, k, t)
  {
    hide BrokerInv, Exec, ValidRun, LedgerEvolves;
    BT.RunKeeps(cfg, b, run);
    Evolved(b.db, Exec(b, cfg, run).db);
    if DeletesBefore(run, until) { RunStays(cfg, b, run, until); }
    assert RowEvolves(b.db.ops[k], Exec(b, cfg, run).db.ops[k]);
  }

  lemma FinishExpires(db: Ledger, cfg: Settings, k: Key, state: OpState, result: OpResult, now: int, uuid: nat)
    requires k in db.ops && !Final(db.ops[k].state) && Final(state) && result.size <= cfg.maxResultBytes
    ensures var row := Finish(db, cfg, k, state, Some(result), None, now, uuid).db.ops[k];
      row.state == state && row.resultExpires == Some(now + cfg.resultTtl)
  {
    hide SnapshotOf;
  }

  /** The result a job settles its operation with is shown for exactly its time to live, over every later run in which the
      clock of no deletion has passed that time; its state is shown for ever. */
  lemma SettledResultShows(cfg: Settings, b: Broker, table: Table, k: Key, state: OpState, result: OpResult, now: int, uuid: nat,
                           later: seq<Step>, t: int)
    requires BrokerInv(cfg, b) && k in b.db.ops && !Final(b.db.ops[k].state) && result.size <= cfg.maxResultBytes
    requires Enabled(b, cfg, Settle(table, k, state, Some(result), None, now, uuid))
    requires ValidRun(Next(b, cfg, Settle(table, k, state, Some(result), None, now, uuid)), cfg, later)
    ensures var g := Get(Exec(Next(b, cfg, Settle(table, k, state, Some(result), None, now, uuid)), cfg, later).db, k, t);
      && g.Ok? && g.value.state == state
      && (t < now + cfg.resultTtl && DeletesBefore(later, now + cfg.resultTtl) ==> g.value.result == Some(result) && g.value.error.None?)
      && (t >= now + cfg.resultTtl ==> g.value.result.None? && g.value.error == Some(SnapError(ResultExpired, None)))
  {
    var s := Settle(table, k, state, Some(result), None, now, uuid);
    hide BrokerInv, Exec, ValidRun, LedgerEvolves, Finish, SnapshotOf, DeletesBefore;
    var b1, until := Next(b, cfg, s), now + cfg.resultTtl;
    SettleDb(cfg, b, table, k, state, result, now, uuid);
    EveryStep(cfg, b, s);
    FinishShows(b.db, cfg, k, state, result, now, uuid);
    FinishExpires(b.db, cfg, k, state, result, now, uuid);
    assert Get(b1.db, k, t).Ok?;
    ResultLasts(cfg, b1, later, k, until, t);
    StateLasts(cfg, b1, later, k, t);
  }

  lemma SettleDb(cfg: Settings, b: Broker, table: Table, k: Key, state: OpState, result: OpResult, now: int, uuid: nat)
    requires Enabled(b, cfg, Settle(table, k, state, Some(result), None, now, uuid))
    ensures Final(state)
    ensures Next(b, cfg, Settle(table, k, state, Some(result), None, now, uuid)).db == Finish(b.db, cfg, k, state, Some(result), None, now, uuid).db
  {
    hide Finish;
  }

  lemma StateLasts(cfg: Settings, b: Broker, run: seq<Step>, k: Key, t: int)
    requires BrokerInv(cfg, b) && ValidRun(b, cfg, run) && k in b.db.ops && Final(b.db.ops[k].state)
    ensures var g := Get(Exec(b, cfg, run).db, k, t); g.Ok? && g.value.state == b.db.ops[k].state
  {
    hide BrokerInv, Exec, ValidRun, LedgerEvolves;
    BT.RunKeeps(cfg, b, run);
    Evolved(b.db, Exec(b, cfg, run).db);
    assert RowEvolves(b.db.ops[k], Exec(b, cfg, run).db.ops[k]);
  }

  // ---------------------------------------------------------------- waiting operations

  /** Every attachment is held by an artifact that lasts to the horizon. */
  predicate Lasting(artifacts: seq<Artifact>, d: string, ids: seq<nat>, horizon: int) {
    forall id :: id in ids ==> exists a :: a in artifacts && a.device == d && a.id == id && a.expires >= horizon
  }

  lemma LastingReadable(artifacts: seq<Artifact>, artifacts': seq<Artifact>, d: string, ids: seq<nat>, horizon: int, now: int)
    requires Lasting(artifacts, d, ids, horizon) && now < horizon
    requires forall a :: a in artifacts && a.expires >= horizon ==> a in artifacts'
    ensures AllReadable(artifacts', d, ids, now)
  {
    forall id | id in ids ensures Readable(artifacts', d, id, now) {
      var a :| a in artifacts && a.device == d && a.id == id && a.expires >= horizon;
      assert a in artifacts';
    }
  }

  /** The claim dispatches the operation: a stream job for it, and the request as it was stored. */
  predicate Dispatches(b: Broker, b': Broker, k: Key) {
    && b'.claims == b.claims + [k] && k in b'.streams && b'.streams[k] == Job(None, false, None, false)
    && k in b'.db.ops && b'.db.ops[k].state.Running?
  }

  ghost predicate Declines(b: Broker, b': Broker, k: Key, code: Code) {
    b'.claims == b.claims && b'.streams == b.streams && FailedWith(b'.db, k, code)
  }

  lemma ClaimStep(cfg: Settings, b: Broker, k: Key, now: int, uuid: nat)
    requires Enabled(b, cfg, TakeClaim(k, now, uuid))
    ensures var b' := Next(b, cfg, TakeClaim(k, now, uuid)); var usable := k in b.db.payloads && now < b.db.payloads[k].expires;
      && (!usable ==> Declines(b, b', k, PayloadExpired))
      && (usable && !AllReadable(b.db.artifacts, k.device, b.db.payloads[k].request.artifacts, now) ==> Declines(b, b', k, ArtifactExpired))
      && (usable && AllReadable(b.db.artifacts, k.device, b.db.payloads[k].request.artifacts, now) ==> Dispatches(b, b', k))
  {
    hide Claim, AllReadable, FailedWith;
    ClaimOutcome(b.db, cfg, k, now, uuid);
    var (db', request) := Claim(b.db, cfg, k, now, uuid);
    var b' := Next(b, cfg, TakeClaim(k, now, uuid));
    assert b'.db == db';
    assert request.Some? ==> b'.claims == b.claims + [k] && b'.streams == b.streams[k := Job(None, false, None, false)];
  }

  /** An operation that waits with its payload is dispatched by the claim that finds it, whatever happened before, if payload
      and attachments last beyond that claim and beyond every deletion.  Once the payload's time has come, the claim can
      only fail it. */
  lemma WaitingIsDispatched(cfg: Settings, b: Broker, run: seq<Step>, k: Key, now: int, uuid: nat, horizon: int)
    requires BrokerInv(cfg, b) && k in b.db.ops && k in b.db.payloads && ValidRun(b, cfg, run)
    requires Enabled(Exec(b, cfg, run), cfg, TakeClaim(k, now, uuid))
    ensures var b1 := Exec(b, cfg, run); var b' := Next(b1, cfg, TakeClaim(k, now, uuid)); var payload := b.db.payloads[k];
      && ((now < horizon <= payload.expires && DeletesBefore(run, horizon)
           && Lasting(b.db.artifacts, k.device, payload.request.artifacts, horizon)) ==> Dispatches(b1, b', k))
      && (now >= payload.expires ==> Declines(b1, b', k, PayloadExpired))
  {
    hide BrokerInv, Exec, ValidRun, Enabled, Next, Lasting, AllReadable, Dispatches, Declines, OpsEvolve, Stays;
    var b1, payload := Exec(b, cfg, run), b.db.payloads[k];
    ClaimStep(cfg, b1, k, now, uuid);
    ClaimedWaits(cfg, b1, k, now, uuid);
    PayloadSame(cfg, b, run, k);
    if now < horizon <= payload.expires && DeletesBefore(run, horizon) && Lasting(b.db.artifacts, k.device, payload.request.artifacts, horizon) {
      RunStays(cfg, b, run, horizon);
      PayloadStays(b.db, b1.db, k, horizon);
      LastingReadable(b.db.artifacts, b1.db.artifacts, k.device, payload.request.artifacts, horizon, now);
    }
  }

  lemma PayloadStays(db: Ledger, db': Ledger, k: Key, horizon: int)
    requires Stays(db, db', horizon) && k in db.ops && k in db.payloads && k in db'.ops && !Terminal(db'.ops[k].state)
    ensures db.payloads[k].expires >= horizon ==> k in db'.payloads && db'.payloads[k] == db.payloads[k]
    ensures forall a :: a in db.artifacts && a.expires >= horizon ==> a in db'.artifacts
  {
  }

  lemma ClaimedWaits(cfg: Settings, b: Broker, k: Key, now: int, uuid: nat)
    requires Enabled(b, cfg, TakeClaim(k, now, uuid))
    ensures k in b.db.ops && !Terminal(b.db.ops[k].state)
  {
  }

  /** Every deletion of a run comes before some time. */
  lemma {:induction false} SomeHorizon(run: seq<Step>) returns (horizon: int)
    ensures DeletesBefore(run, horizon)
  {
    if run == [] { return 0; }
    horizon := SomeHorizon(run[1..]);
    if Deletes(run[0]) && run[0].now >= horizon { horizon := run[0].now + 1; }
    assert forall s :: s in run ==> s == run[0] || s in run[1..];
  }

  lemma PayloadSame(cfg: Settings, b: Broker, run: seq<Step>, k: Key)
    requires BrokerInv(cfg, b) && ValidRun(b, cfg, run) && k in b.db.ops && k in b.db.payloads
    ensures var db := Exec(b, cfg, run).db; k in db.payloads ==> db.payloads[k] == b.db.payloads[k]
  {
    hide BrokerInv, Exec, ValidRun, OpsEvolve, DeletesBefore;
    var horizon := SomeHorizon(run);
    RunStays(cfg, b, run, horizon);
  }

  /** From admission to dispatch: a new request that was accepted at `at`, waits without its time to live running out, and
      is found by a claim, is dispatched. */
  lemma AcceptedIsDispatched(cfg: Settings, b: Broker, d: string, req: Request, at: int, run: seq<Step>, now: int, uuid: nat, horizon: int)
    requires BrokerInv(cfg, b) && Enabled(b, cfg, AcceptRequest(d, req, at)) && Key(d, req.op) !in b.db.ops
    requires Accept(b.db, cfg, d, req, at).reply.Ok? && Lasting(b.db.artifacts, d, req.artifacts, horizon)
    requires var b1 := Next(b, cfg, AcceptRequest(d, req, at));
      ValidRun(b1, cfg, run) && Enabled(Exec(b1, cfg, run), cfg, TakeClaim(Key(d, req.op), now, uuid))
    requires now < horizon <= at + cfg.payloadTtl && DeletesBefore(run, horizon)
    ensures var b1 := Exec(Next(b, cfg, AcceptRequest(d, req, at)), cfg, run);
      Dispatches(b1, Next(b1, cfg, TakeClaim(Key(d, req.op), now, uuid)), Key(d, req.op))
  {
    var s, k := AcceptRequest(d, req, at), Key(d, req.op);
    hide BrokerInv, Exec, ValidRun, LedgerEvolves, Accept, Admissible, Dispatches, Declines, DeletesBefore, Lasting, Candidate;
    EveryStep(cfg, b, s);
    AcceptNew(b.db, cfg, d, req, at);
    WaitingIsDispatched(cfg, Next(b, cfg, s), run, k, now, uuid, horizon);
  }

  // ---------------------------------------------------------------- cancel intents

  lemma IntentKept(a: Row, b: Row)
    requires Intended(a) && RowEvolves(a, b)
    ensures Final(b.state) || Intended(b)
  {
  }

  lemma IntentStep(cfg: Settings, b: Broker, k: Key, now: int, uuid: nat)
    requires Enabled(b, cfg, CancelRequest(k, now, uuid)) && k in b.db.ops && Holding(b.db.ops[k].state)
    ensures var ops := Next(b, cfg, CancelRequest(k, now, uuid)).db.ops; k in ops && Intended(ops[k])
  {
    hide CancelIntent;
    CancelRecorded(b.db, cfg, k, now, uuid);
  }

  /** Once recorded, a cancel intent lasts until the operation is final: in every later state the peer can be told as soon
      as there is a handle, unless it has been claimed. */
  lemma IntentLasts(cfg: Settings, b: Broker, k: Key, now: int, uuid: nat, later: seq<Step>)
    requires BrokerInv(cfg, b) && Enabled(b, cfg, CancelRequest(k, now, uuid)) && k in b.db.ops && Holding(b.db.ops[k].state)
    requires ValidRun(Next(b, cfg, CancelRequest(k, now, uuid)), cfg, later)
    ensures var ops := Exec(Next(b, cfg, CancelRequest(k, now, uuid)), cfg, later).db.ops;
      k in ops && (Final(ops[k].state) || Intended(ops[k]))
  {
    var s := CancelRequest(k, now, uuid);
    hide BrokerInv, Exec, ValidRun, LedgerEvolves, Enabled, Next, Intended, OpsEvolve;
    var b1 := Next(b, cfg, s);
    EveryStep(cfg, b, s);
    IntentStep(cfg, b, k, now, uuid);
    BT.RunKeeps(cfg, b1, later);
    Evolved(b1.db, Exec(b1, cfg, later).db);
    RowKept(b1.db.ops, Exec(b1, cfg, later).db.ops, k);
    IntentKept(b1.db.ops[k], Exec(b1, cfg, later).db.ops[k]);
  }

  lemma RowKept(a: map<Key, Row>, b: map<Key, Row>, k: Key)
    requires OpsEvolve(a, b) && k in a
    ensures k in b && RowEvolves(a[k], b[k])
  {
  }
}
