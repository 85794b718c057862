/** Each broker transaction keeps the ledger invariant and only moves rows forward. */
module LedgerSteps {
  import opened Common
  import opened Ledger
  import opened LedgerInvariant

  ghost predicate Keeps(cfg: Settings, a: Ledger, b: Ledger) {
    LedgerInv(cfg, b) && LedgerEvolves(a, b)
  }

  lemma KeepsTrans(cfg: Settings, a: Ledger, b: Ledger, c: Ledger)
    requires LedgerEvolves(a, b) && Keeps(cfg, b, c)
    ensures Keeps(cfg, a, c)
  {
    EvolvesTrans(a, b, c);
  }

  lemma EmptyOk(cfg: Settings)
    ensures LedgerInv(cfg, EMPTY)
  {
    assert forall d :: ActiveKeys(EMPTY.ops, d) == {};
  }

  lemma SameKeeps(cfg: Settings, db: Ledger)
    requires LedgerInv(cfg, db)
    ensures Keeps(cfg, db, db)
  {
    DevicesKeep(db, cfg, db.devices);
  }

  lemma AcceptKeeps(cfg: Settings, db: Ledger, d: string, req: Request, now: int)
    requires LedgerInv(cfg, db)
    ensures Keeps(cfg, db, Accept(db, cfg, d, req, now).db)
  {
    hide LedgerInv, LedgerEvolves;
    var k := Key(d, req.op);
    TouchKeeps(db, cfg, d);
    SameKeeps(cfg, db);
    if Accept(db, cfg, d, req, now).reply.Ok? && k !in db.ops {
      var payloads := db.payloads[k := Payload(req, now + cfg.payloadTtl)];
      PublishKeeps(db, cfg, k, NewRow(req, now), now, payloads, db.outbox[k := Pending]);
    }
  }

  /** What the callers of `_finish` observe: an accepted operation only becomes final, and an unknown
      one is resolved only once its handle is saved. */
  predicate MayClose(row: Row, state: OpState) {
    && Terminal(state)
    && (row.state.Accepted? ==> Final(state))
    && (row.state.OutcomeUnknown? && Final(state) ==> row.handle.Some?)
  }

  lemma CloseRow(k: Key, row: Row, cfg: Settings, state: OpState, result: Option<OpResult>, code: Option<Code>,
                 now: int, uuid: nat)
    requires RowOk(k, row) && !Final(row.state) && MayClose(row, state)
    ensures var row' := FinishedRow(row, cfg, state, result, code, now, uuid);
      && RowOk(k, row') && RowEvolves(row, row') && (Active(row'.state) ==> Active(row.state))
      && (Holding(row'.state) ==> Holding(row.state))
  {
  }

  lemma CloseKeeps(cfg: Settings, db: Ledger, k: Key, state: OpState, result: Option<OpResult>, code: Option<Code>,
                   now: int, uuid: nat)
    requires LedgerInv(cfg, db) && k in db.ops && MayClose(db.ops[k], state)
    ensures Keeps(cfg, db, Close(db, cfg, k, state, result, code, now, uuid))
    ensures k in Close(db, cfg, k, state, result, code, now, uuid).ops
    ensures var row := Close(db, cfg, k, state, result, code, now, uuid).ops[k];
      if Final(db.ops[k].state) then row == db.ops[k] else row.state == state && row.error == code
  {
    hide LedgerInv, LedgerEvolves, RowOk, RowEvolves;
    SameKeeps(cfg, db);
    if !Final(db.ops[k].state) {
      RowFacts(db, cfg, k);
      CloseRow(k, db.ops[k], cfg, state, result, code, now, uuid);
      UpdateKeeps(db, cfg, k, FinishedRow(db.ops[k], cfg, state, result, code, now, uuid), now, false);
    }
  }

  lemma FinishKeeps(cfg: Settings, db: Ledger, k: Key, state: OpState, result: Option<OpResult>, code: Option<Code>,
                    now: int, uuid: nat)
    requires LedgerInv(cfg, db)
    requires k in db.ops && Terminal(state) ==>
      MayClose(db.ops[k], state) && (result.Some? ==> MayClose(db.ops[k], Failed))
    ensures var r := Finish(db, cfg, k, state, result, code, now, uuid);
      && Keeps(cfg, db, r.db) && (r.reply.Ok? ==> k in r.db.ops && Terminal(r.db.ops[k].state))
      && (r.reply.Ok? <==> k in db.ops && Terminal(state))
  {
    hide LedgerInv, LedgerEvolves, RowOk, RowEvolves, Publish;
    SameKeeps(cfg, db);
    if k in db.ops && Terminal(state) {
      TouchKeeps(db, cfg, k.device);
      var db1 := Touch(db, k.device);
      if result.Some? && result.value.size > cfg.maxResultBytes {
        CloseKeeps(cfg, db1, k, Failed, None, Some(ResultTooLarge), now, uuid);
      } else {
        CloseKeeps(cfg, db1, k, state, result, code, now, uuid);
      }
      KeepsTrans(cfg, db, db1, Finish(db, cfg, k, state, result, code, now, uuid).db);
    }
  }

  lemma ClaimKeeps(cfg: Settings, db: Ledger, k: Key, now: int, uuid: nat)
    requires LedgerInv(cfg, db) && Candidate(db, k)
    ensures var r := Claim(db, cfg, k, now, uuid);
      && Keeps(cfg, db, r.0) && k in r.0.ops
      && (r.1.Some? ==> r.0.ops[k].state.Running? && r.1.value == db.ops[k].digest)
      && (r.1.None? ==> r.0.ops[k].state.Failed?)
  {
    hide LedgerInv, LedgerEvolves, Available;
    TouchKeeps(db, cfg, k.device);
    RowFacts(db, cfg, k);
    var db1 := Touch(db, k.device);
    var r := Claim(db, cfg, k, now, uuid);
    if r.1.None? {
      CloseKeeps(cfg, db1, k, Failed, None, Some(PayloadExpired), now, uuid);
      CloseKeeps(cfg, db1, k, Failed, None, Some(ArtifactExpired), now, uuid);
    } else {
      UpdateKeeps(db1, cfg, k, db.ops[k].(state := Running, updated := now), now, true);
    }
    KeepsTrans(cfg, db, db1, r.0);
  }

  lemma SaveHandleKeeps(cfg: Settings, db: Ledger, k: Key, handle: string, now: int)
    requires LedgerInv(cfg, db) && (k in db.ops ==> !db.ops[k].state.Accepted?)
    ensures var r := SaveHandle(db, cfg, k, handle, now);
      && Keeps(cfg, db, r.db)
      && (r.reply.Ok? ==> k in r.db.ops && (r.db.ops[k].handle == Some(handle) || Final(r.db.ops[k].state)))
  {
    hide LedgerInv, LedgerEvolves;
    SameKeeps(cfg, db);
    TouchKeeps(db, cfg, k.device);
    if k in db.ops && ValidHandle(handle) {
      var row := db.ops[k];
      if row.handle.None? && !Final(row.state) {
        RowFacts(db, cfg, k);
        assert db.outbox == db.outbox[k := OutboxFor(row.state)];
        UpdateKeeps(db, cfg, k, row.(handle := Some(handle), updated := now), now, true);
      }
    }
  }

  lemma CloseAllKeeps(cfg: Settings, db: Ledger, keys: seq<Key>, now: int, uuid: Key -> nat)
    requires LedgerInv(cfg, db)
    requires forall k :: k in keys ==> k in db.ops && !db.ops[k].state.Accepted?
    ensures Keeps(cfg, db, CloseAll(db, cfg, keys, now, uuid))
    ensures var ops := CloseAll(db, cfg, keys, now, uuid).ops; forall k :: k in keys ==> Terminal(ops[k].state)
  {
    hide LedgerInv;
    if keys == [] {
      SameKeeps(cfg, db);
    } else {
      var rest, k := keys[..|keys| - 1], keys[|keys| - 1];
      CloseAllKeeps(cfg, db, rest, now, uuid);
      var mid, end := CloseAll(db, cfg, rest, now, uuid), CloseAll(db, cfg, keys, now, uuid);
      CloseKeeps(cfg, mid, k, OutcomeUnknown, None, Some(RestartUnknown), now, uuid(k));
      KeepsTrans(cfg, db, mid, end);
      forall j | j in keys ensures Terminal(end.ops[j].state) {
        assert j in rest || j == k;
      }
    }
  }

  lemma PollKeeps(cfg: Settings, db: Ledger, keys: set<Key>, now: int)
    requires LedgerInv(cfg, db)
    ensures Keeps(cfg, db, db.(ops := Poll(db.ops, keys, now)))
  {
    assert QuietOps(db.ops, Poll(db.ops, keys, now)) by { QuietPoll(cfg, db, keys, now); }
    hide LedgerInv, LedgerEvolves;
    QuietKeeps(db, cfg, Poll(db.ops, keys, now));
  }

  lemma QuietPoll(cfg: Settings, db: Ledger, keys: set<Key>, now: int)
    requires LedgerInv(cfg, db)
    ensures QuietOps(db.ops, Poll(db.ops, keys, now))
  {
    hide LedgerInv;
    forall k | k in db.ops ensures Quiet(db.ops[k], Poll(db.ops, keys, now)[k]) {
      RowFacts(db, cfg, k);
    }
  }

  lemma CancelIntentKeeps(cfg: Settings, db: Ledger, k: Key, now: int, uuid: nat)
    requires LedgerInv(cfg, db)
    ensures Keeps(cfg, db, CancelIntent(db, cfg, k, now, uuid).db)
  {
    hide LedgerInv, LedgerEvolves;
    SameKeeps(cfg, db);
    if k in db.ops {
      var row, db1 := db.ops[k], Touch(db, k.device);
      TouchKeeps(db, cfg, k.device);
      if row.state.Accepted? {
        CloseKeeps(cfg, db1, k, Canceled, None, None, now, uuid);
        KeepsTrans(cfg, db, db1, CancelIntent(db, cfg, k, now, uuid).db);
      } else if !Final(row.state) && !row.cancelRequested {
        RowFacts(db1, cfg, k);
        assert db1.outbox == db1.outbox[k := OutboxFor(row.state)];
        UpdateKeeps(db1, cfg, k, row.(cancelRequested := true, error := Some(CancelUnconfirmed), updated := now), now, true);
        KeepsTrans(cfg, db, db1, CancelIntent(db, cfg, k, now, uuid).db);
      }
    }
  }

  lemma ClaimCancelKeeps(cfg: Settings, db: Ledger, k: Key)
    requires LedgerInv(cfg, db) && k in db.ops && Cancelable(db.ops[k])
    ensures Keeps(cfg, db, ClaimCancel(db, k))
  {
    hide LedgerInv, LedgerEvolves;
    var db1 := Touch(db, k.device);
    var ops := db1.ops[k := db1.ops[k].(cancelClaimed := true)];
    TouchKeeps(db, cfg, k.device);
    forall j | j in ops ensures Quiet(db1.ops[j], ops[j]) {
      RowFacts(db1, cfg, j);
    }
    QuietKeeps(db1, cfg, ops);
    KeepsTrans(cfg, db, db1, ClaimCancel(db, k));
  }

  lemma EventsKeeps(cfg: Settings, db: Ledger, d: string, after: nat, now: int)
    requires LedgerInv(cfg, db)
    ensures Keeps(cfg, db, Events(db, d, after, now).db)
  {
    SameKeeps(cfg, db);
    var dev := PurgeDevice(Dev(db.devices, d), now);
    assert DeviceOk(Dev(db.devices, d), Log(db.log, d));
    PurgeDeviceKeeps(Dev(db.devices, d), Log(db.log, d), now);
    var devices := db.devices[d := dev];
    assert forall e {:trigger Dev(devices, e)} :: Dev(devices, e) == if e == d then dev else Dev(db.devices, e);
    DevicesKeep(db, cfg, devices);
  }

  lemma ReceiptKeeps(cfg: Settings, db: Ledger, d: string, receipt: Receipt)
    requires LedgerInv(cfg, db)
    ensures Keeps(cfg, db, AddReceipt(db, d, receipt).db)
    ensures AddReceipt(db, d, receipt).db.ops == db.ops
  {
    hide Tables, DevicesOk, FoldAgrees, HistoryOk, PendingOk, QuotaOk, OpsEvolve, LogsGrow, FloorsRise;
    SameKeeps(cfg, db);
    TouchKeeps(db, cfg, d);
  }

  lemma PurgeKeeps(cfg: Settings, db: Ledger, now: int)
    requires LedgerInv(cfg, db)
    ensures Keeps(cfg, db, Purge(db, now))
  {
    var db' := Purge(db, now);
    var devices := db'.devices;
    forall d ensures DeviceOk(Dev(devices, d), Log(db.log, d)) && Dev(db.devices, d).floor <= Dev(devices, d).floor {
      assert DeviceOk(Dev(db.devices, d), Log(db.log, d));
      PurgeDeviceKeeps(Dev(db.devices, d), Log(db.log, d), now);
    }
    hide Tables, FoldAgrees, HistoryOk, PendingOk, OpsEvolve, DevicesOk, PurgeDevice, LogsGrow, FloorsRise;
    DevicesKeep(db, cfg, devices);
    var db1 := db.(devices := devices);
    PurgeRows(cfg, db1, db'.ops, db'.payloads, now);
    KeepsTrans(cfg, db, db1, db1.(ops := db'.ops, payloads := db'.payloads));
    QuotaKept(db.artifacts, cfg, None, now);
  }

  lemma PurgeRows(cfg: Settings, db: Ledger, ops: map<Key, Row>, payloads: map<Key, Payload>, now: int)
    requires LedgerInv(cfg, db)
    requires ops == Purge(db, now).ops && payloads == Purge(db, now).payloads
    ensures Keeps(cfg, db, db.(ops := ops, payloads := payloads))
  {
    hide LedgerInv, LedgerEvolves, QuietOps;
    PurgeQuiet(cfg, db, now);
    assert forall k :: k in payloads ==> k in db.payloads && payloads[k] == db.payloads[k];
    hide Purge;
    QuietKeeps(db, cfg, ops);
    SameOps(db, db.(ops := ops), db.(ops := ops, payloads := payloads));
    PayloadsShrink(cfg, db.(ops := ops), payloads);
  }

  lemma SameOps(a: Ledger, b: Ledger, c: Ledger)
    requires LedgerEvolves(a, b) && b.ops == c.ops && b.log == c.log && b.devices == c.devices
    ensures LedgerEvolves(a, c)
  {
  }

  lemma PayloadsShrink(cfg: Settings, db: Ledger, payloads: map<Key, Payload>)
    requires LedgerInv(cfg, db)
    requires forall k :: k in payloads ==> k in db.payloads && payloads[k] == db.payloads[k]
    ensures LedgerInv(cfg, db.(payloads := payloads))
  {
    hide DevicesOk, FoldAgrees, HistoryOk, PendingOk, QuotaOk, RowsOk, OutboxOk, FlowsOk;
  }

  lemma PurgeQuiet(cfg: Settings, db: Ledger, now: int)
    requires LedgerInv(cfg, db)
    ensures QuietOps(db.ops, Purge(db, now).ops)
  {
    hide LedgerInv;
    forall k | k in db.ops ensures Quiet(db.ops[k], Purge(db, now).ops[k]) {
      RowFacts(db, cfg, k);
    }
  }

  lemma PutArtifactKeeps(cfg: Settings, db: Ledger, d: string, content: string, digest: string,
                         typeOk: bool, textPlain: bool, utf8: bool, now: int, id: nat)
    requires LedgerInv(cfg, db)
    ensures var r := PutArtifact(db, cfg, d, content, digest, typeOk, textPlain, utf8, now, id);
      Keeps(cfg, db, r.db) && r.db.ops == db.ops
  {
    hide Tables, DevicesOk, FoldAgrees, HistoryOk, PendingOk, QuotaOk, OpsEvolve, LogsGrow, FloorsRise;
    SameKeeps(cfg, db);
    TouchKeeps(db, cfg, d);
    QuotaKept(db.artifacts, cfg, Some(d), now);
    var live := DropExpired(db.artifacts, Some(d), now);
    if StoredBytes(live, d) + |content| <= cfg.deviceQuota {
      QuotaAppend(live, cfg, Artifact(d, id, content, textPlain, utf8, now + cfg.artifactTtl));
    }
  }

  lemma QuotaAppend(live: seq<Artifact>, cfg: Settings, row: Artifact)
    requires QuotaOk(live, cfg) && StoredBytes(live, row.device) + |row.content| <= cfg.deviceQuota
    ensures QuotaOk(live + [row], cfg)
  {
    assert (live + [row])[..|live + [row]| - 1] == live;
    forall e ensures StoredBytes(live + [row], e) <= cfg.deviceQuota {
      assert StoredBytes(live, e) <= cfg.deviceQuota;
    }
  }
}
