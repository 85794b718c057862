/** A final event is the last one of its operation: no transaction writes an event for a row that is already final. */
module FinalEvents {
  import opened Common
  import opened Ledger
  import opened Broker
  import opened LedgerInvariant
  import opened BrokerInvariant
  import opened BrokerSteps

  /** What one step adds to a device's log: events of operations that were not final, and at most one event unless all
      of them are of unknown outcomes. */
  predicate FreshEvents(ops: map<Key, Row>, d: string, log: seq<Snapshot>, log': seq<Snapshot>) {
    && log <= log'
    && (forall j :: |log| <= j < |log'| && Key(d, log'[j].op) in ops ==> !Final(ops[Key(d, log'[j].op)].state))
    && (|log'| <= |log| + 1 || forall j :: |log| <= j < |log'| ==> !Final(log'[j].state))
  }

  ghost predicate OnlyFresh(db: Ledger, db': Ledger) {
    forall d :: FreshEvents(db.ops, d, Log(db.log, d), Log(db'.log, d))
  }

  lemma SameLog(db: Ledger, db': Ledger)
    requires db'.log == db.log
    ensures OnlyFresh(db, db')
  {
  }

  /** `db1` is the ledger a transaction publishes from: same rows, same log. */
  lemma PublishFresh(db: Ledger, db1: Ledger, cfg: Settings, k: Key, row: Row, now: int)
    requires db1.log == db.log && (k in db.ops ==> !Final(db.ops[k].state))
    ensures OnlyFresh(db, Publish(db1, cfg, k, row, now))
  {
    hide SnapshotOf;
    var db' := Publish(db1, cfg, k, row, now);
    var t := SnapshotOf(k.op, row, now);
    assert t.op == k.op by { SnapshotNames(k.op, row, now); }
    forall d ensures FreshEvents(db.ops, d, Log(db.log, d), Log(db'.log, d)) {
      if d == k.device { assert Log(db'.log, d) == Log(db.log, d) + [t]; }
    }
  }

  lemma SnapshotNames(op: nat, row: Row, now: int)
    ensures SnapshotOf(op, row, now).op == op && SnapshotOf(op, row, now).state == row.state
  {
  }

  lemma CloseFresh(db: Ledger, db1: Ledger, cfg: Settings, k: Key, state: OpState, result: Option<OpResult>, code: Option<Code>, now: int, uuid: nat)
    requires db1.log == db.log && db1.ops == db.ops && k in db.ops
    ensures OnlyFresh(db, Close(db1, cfg, k, state, result, code, now, uuid))
  {
    hide OnlyFresh, Publish;
    if Final(db.ops[k].state) {
      SameLog(db, db1);
    } else {
      var db2 := db1.(payloads := db1.payloads - {k}, outbox := if k in db1.outbox then db1.outbox[k := Done] else db1.outbox);
      PublishFresh(db, db2, cfg, k, FinishedRow(db1.ops[k], cfg, state, result, code, now, uuid), now);
    }
  }

  lemma AcceptFresh(db: Ledger, cfg: Settings, d: string, req: Request, now: int)
    ensures OnlyFresh(db, Accept(db, cfg, d, req, now).db)
  {
    hide OnlyFresh, Publish, InputBytes, Distinct, ActiveKeys, SnapshotOf;
    var k := Key(d, req.op);
    SameLog(db, db);
    SameLog(db, Touch(db, d));
    if k !in db.ops {
      var db1 := db.(payloads := db.payloads[k := Payload(req, now + cfg.payloadTtl)], outbox := db.outbox[k := Pending]);
      PublishFresh(db, db1, cfg, k, NewRow(req, now), now);
    }
  }

  lemma CancelFresh(db: Ledger, cfg: Settings, k: Key, now: int, uuid: nat)
    ensures OnlyFresh(db, CancelIntent(db, cfg, k, now, uuid).db)
  {
    hide OnlyFresh, Publish, Close, SnapshotOf;
    SameLog(db, db);
    if k in db.ops {
      var row, db1 := db.ops[k], Touch(db, k.device);
      SameLog(db, db1);
      CloseFresh(db, db1, cfg, k, Canceled, None, None, now, uuid);
      if !Final(row.state) {
        PublishFresh(db, db1, cfg, k, row.(cancelRequested := true, error := Some(CancelUnconfirmed), updated := now), now);
      }
    }
  }

  lemma RequestFresh(cfg: Settings, db: Ledger, s: Step)
    requires IsRequest(s)
    ensures OnlyFresh(db, Requested(db, cfg, s))
  {
    hide OnlyFresh, Accept, CancelIntent, DropExpired, StoredBytes, Holds, PurgeDevice, Page;
    match s
    case AcceptRequest(d, req, now) => AcceptFresh(db, cfg, d, req, now);
    case CancelRequest(k, now, uuid) => CancelFresh(db, cfg, k, now, uuid);
    case _ => SameLog(db, Requested(db, cfg, s));
  }

  lemma ClaimFresh(db: Ledger, cfg: Settings, k: Key, now: int, uuid: nat)
    requires Candidate(db, k)
    ensures OnlyFresh(db, Claim(db, cfg, k, now, uuid).0)
  {
    hide OnlyFresh, Publish, Close, Available;
    var db1 := Touch(db, k.device);
    CloseFresh(db, db1, cfg, k, Failed, None, Some(PayloadExpired), now, uuid);
    CloseFresh(db, db1, cfg, k, Failed, None, Some(ArtifactExpired), now, uuid);
    PublishFresh(db, db1.(outbox := db1.outbox[k := Claimed]), cfg, k, db.ops[k].(state := Running, updated := now), now);
  }

  lemma FinishFresh(db: Ledger, cfg: Settings, k: Key, state: OpState, result: Option<OpResult>, code: Option<Code>, now: int, uuid: nat)
    ensures OnlyFresh(db, Finish(db, cfg, k, state, result, code, now, uuid).db)
  {
    hide OnlyFresh, Close, SnapshotOf;
    SameLog(db, db);
    if k in db.ops {
      CloseFresh(db, Touch(db, k.device), cfg, k, Failed, None, Some(ResultTooLarge), now, uuid);
      CloseFresh(db, Touch(db, k.device), cfg, k, state, result, code, now, uuid);
    }
  }

  lemma SaveHandleFresh(db: Ledger, cfg: Settings, k: Key, handle: string, now: int)
    ensures OnlyFresh(db, SaveHandle(db, cfg, k, handle, now).db)
  {
    hide OnlyFresh, Publish;
    SameLog(db, db);
    SameLog(db, Touch(db, k.device));
    if k in db.ops && !Final(db.ops[k].state) {
      PublishFresh(db, db, cfg, k, db.ops[k].(handle := Some(handle), updated := now), now);
    }
  }

  /** Only unknown outcomes were logged, each for a row that was not final; final rows are as they were. */
  predicate OnlyUnknown(db: Ledger, db': Ledger, d: string) {
    var log, log' := Log(db.log, d), Log(db'.log, d);
    && log <= log'
    && (forall j :: |log| <= j < |log'| ==> log'[j].state.OutcomeUnknown?)
    && (forall j :: |log| <= j < |log'| && Key(d, log'[j].op) in db.ops ==> !Final(db.ops[Key(d, log'[j].op)].state))
    && (forall k :: k in db.ops && Final(db.ops[k].state) ==> k in db'.ops && db'.ops[k] == db.ops[k])
  }

  lemma UnknownTrans(a: Ledger, b: Ledger, c: Ledger, d: string)
    requires OnlyUnknown(a, b, d) && OnlyUnknown(b, c, d)
    ensures OnlyUnknown(a, c, d)
  {
    var log, log1, log2 := Log(a.log, d), Log(b.log, d), Log(c.log, d);
    forall j | |log| <= j < |log2|
      ensures log2[j].state.OutcomeUnknown? && (Key(d, log2[j].op) in a.ops ==> !Final(a.ops[Key(d, log2[j].op)].state))
    {
      if j < |log1| { assert log2[j] == log1[j]; }
    }
  }

  lemma CloseUnknown(db: Ledger, cfg: Settings, k: Key, now: int, uuid: nat, d: string)
    requires k in db.ops
    ensures OnlyUnknown(db, Close(db, cfg, k, OutcomeUnknown, None, Some(RestartUnknown), now, uuid), d)
  {
  }

  /** Restart recovery writes only unknown outcomes, each for a row that was running. */
  lemma {:induction false} CloseAllUnknown(db: Ledger, cfg: Settings, keys: seq<Key>, now: int, uuids: Key -> nat, d: string)
    requires forall k :: k in keys ==> k in db.ops
    ensures OnlyUnknown(db, CloseAll(db, cfg, keys, now, uuids), d)
    decreases |keys|
  {
    if keys != [] {
      hide OnlyUnknown, Close;
      var before, k := CloseAll(db, cfg, keys[..|keys| - 1], now, uuids), keys[|keys| - 1];
      CloseAllUnknown(db, cfg, keys[..|keys| - 1], now, uuids, d);
      CloseUnknown(before, cfg, k, now, uuids(k), d);
      UnknownTrans(db, before, CloseAll(db, cfg, keys, now, uuids), d);
    }
  }

  lemma StepFresh(cfg: Settings, b: Broker, s: Step)
    requires Enabled(b, cfg, s)
    ensures OnlyFresh(b.db, Next(b, cfg, s).db)
  {
    hide OnlyFresh, Requested, Accept, CancelIntent, Events, AddReceipt, PutArtifact, Purge, Claim, Finish, SaveHandle, CloseAll, Poll,
      StartReads, Cancelable, Reconcilable, ListsRunning;
    if IsRequest(s) {
      RequestNext(cfg, b, s);
      RequestFresh(cfg, b.db, s);
    } else {
      JobFresh(cfg, b, s);
    }
  }

  lemma JobFresh(cfg: Settings, b: Broker, s: Step)
    requires Enabled(b, cfg, s) && !IsRequest(s)
    ensures OnlyFresh(b.db, Next(b, cfg, s).db)
  {
    hide OnlyFresh, Claim, Finish, SaveHandle, CloseAll, Poll, StartReads, Cancelable, Reconcilable, ListsRunning, Candidate;
    var db' := Next(b, cfg, s).db;
    if db'.log == b.db.log { SameLog(b.db, db'); }
    match s
    case TakeClaim(k, now, uuid) => ClaimFresh(b.db, cfg, k, now, uuid);
    case Observe(t, k, handle, terminal, completed, now) => SaveHandleFresh(b.db, cfg, k, handle, now);
    case Settle(t, k, state, result, code, now, uuid) => FinishFresh(b.db, cfg, k, state, result, code, now, uuid);
    case GiveUp(k, now, uuid) => FinishFresh(b.db, cfg, k, OutcomeUnknown, None, Some(SubmissionUnknown), now, uuid);
    case Recover(keys, now, uuids) => RecoverFresh(b.db, cfg, keys, now, uuids);
    case _ =>
  }

  lemma RecoverFresh(db: Ledger, cfg: Settings, keys: seq<Key>, now: int, uuids: Key -> nat)
    requires ListsRunning(db, keys)
    ensures OnlyFresh(db, CloseAll(db, cfg, keys, now, uuids))
  {
    hide CloseAll;
    forall d ensures FreshEvents(db.ops, d, Log(db.log, d), Log(CloseAll(db, cfg, keys, now, uuids).log, d)) {
      CloseAllUnknown(db, cfg, keys, now, uuids, d);
    }
  }

  // ---------------------------------------------------------------- over whole runs

  /** No event of an operation follows a final one. */
  predicate FinalLast(log: seq<Snapshot>) {
    forall i, j :: 0 <= i < j < |log| && log[i].op == log[j].op ==> !Final(log[i].state)
  }

  lemma LoggedFinal(cfg: Settings, db: Ledger, d: string, i: nat)
    requires LedgerInv(cfg, db) && i < |Log(db.log, d)| && Final(Log(db.log, d)[i].state)
    ensures var k := Key(d, Log(db.log, d)[i].op); k in db.ops && Final(db.ops[k].state)
  {
    hide Tables, DevicesOk, FoldAgrees, PendingOk, QuotaOk;
    assert Compatible(Log(db.log, d)[i], db.ops[Key(d, Log(db.log, d)[i].op)]);
  }

  lemma FinalLastKeeps(cfg: Settings, db: Ledger, db': Ledger, d: string)
    requires LedgerInv(cfg, db) && OnlyFresh(db, db') && FinalLast(Log(db.log, d))
    ensures FinalLast(Log(db'.log, d))
  {
    hide LedgerInv;
    var log, log' := Log(db.log, d), Log(db'.log, d);
    assert FreshEvents(db.ops, d, log, log');
    forall i, j | 0 <= i < j < |log'| && log'[i].op == log'[j].op ensures !Final(log'[i].state) {
      if i < |log| {
        assert log'[i] == log[i];
        if Final(log[i].state) { LoggedFinal(cfg, db, d, i); }
      }
    }
  }

  lemma {:induction false} RunFinalLast(b: Broker, cfg: Settings, run: seq<Step>, d: string)
    requires BrokerInv(cfg, b) && ValidRun(b, cfg, run) && FinalLast(Log(b.db.log, d))
    ensures FinalLast(Log(Exec(b, cfg, run).db.log, d))
    decreases |run|
  {
    hide BrokerInv, Enabled, Next, OnlyFresh, LedgerInv, FinalLast, LedgerEvolves;
    if run != [] {
      EveryStep(cfg, b, run[0]);
      StepFresh(cfg, b, run[0]);
      InnerLedger(cfg, b);
      FinalLastKeeps(cfg, b.db, Next(b, cfg, run[0]).db, d);
      RunFinalLast(Next(b, cfg, run[0]), cfg, run[1..], d);
    }
  }

  lemma InnerLedger(cfg: Settings, b: Broker)
    requires BrokerInv(cfg, b)
    ensures LedgerInv(cfg, b.db)
  {
    hide LedgerInv;
  }

  /** In every run each operation has at most one final event, and no event after it. */
  lemma OneFinalEvent(cfg: Settings, run: seq<Step>, d: string)
    requires ValidRun(INITIAL, cfg, run)
    ensures FinalLast(Log(Exec(INITIAL, cfg, run).db.log, d))
  {
    InitialOk(cfg);
    RunFinalLast(INITIAL, cfg, run, d);
  }
}
