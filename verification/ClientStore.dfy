/** `ClientStore`: the client tables as fields, every public method one transaction proved against `ClientLedger`. */
module ClientStore {
  import opened Common
  import opened Ledger
  import opened CL = ClientLedger

  /** What `view` returns. */
  datatype Report = Report(
    snapshot: Snapshot, submission: Submission, delivery: Delivery, queueId: Option<string>,
    conflict: bool, expired: bool, cancel: Option<CancelState>)

  function ReportOf(op: nat, row: CRow): Report {
    Report(Shown(op, row), row.submission, row.delivery, row.queueId, row.conflict, row.expired, row.cancel)
  }

  // The three UPDATE statements that repair a row when the store is opened, and the two that prune one.

  function StopEnqueue(row: CRow): CRow {
    if row.delivery.Enqueueing? then row.(delivery := EnqueueUnknown) else row
  }

  function StopInline(row: CRow): CRow {
    if row.delivery.InlinePending? then row.(inlineDeadline := 0, delivery := Ready) else row
  }

  function StopCancel(row: CRow): CRow {
    if row.cancel == Some(Sending) then row.(cancel := Some(CancelUnknown)) else row
  }

  lemma RepairSteps(row: CRow)
    ensures RepairRow(row) == StopCancel(StopInline(StopEnqueue(row)))
  {
  }

  lemma Repaired(saved: ClientDb, ops: map<nat, CRow>)
    requires ops.Keys == saved.ops.Keys
    requires forall o :: o in ops ==> ops[o] == StopCancel(StopInline(StopEnqueue(saved.ops[o])))
    ensures ops == Restart(saved).ops
  {
    hide RepairRow, StopCancel, StopInline, StopEnqueue;
    forall o | o in ops ensures ops[o] == RepairRow(saved.ops[o]) { RepairSteps(saved.ops[o]); }
  }

  function ErasePayload(row: CRow, now: int): CRow {
    if row.payloadExpires <= now then row.(payload := None) else row
  }

  function Expire(row: CRow): CRow
    requires row.snapshot.Some?
  {
    row.(snapshot := Some(row.snapshot.value.(result := None, error := None)), expired := true, payload := None)
  }

  predicate Due(row: CRow, now: int) {
    row.expires <= now && !row.expired
  }

  lemma PruneSteps(row: CRow, now: int)
    ensures var kept := ErasePayload(row, now);
      PruneRow(row, now) == if Due(kept, now) && IsFinal(kept) then Expire(kept) else kept
  {
  }

  class ClientStore {
    const settings: ClientSettings
    var flows: map<string, nat>
    var operations: map<nat, CRow>
    var cursor: nat
    var receipts: map<Receipt, bool>

    ghost function Db(): ClientDb
      reads this
    {
      ClientDb(flows, operations, cursor, receipts)
    }

    /** Open the database left by an earlier process and repair what it had in flight. */
    constructor (settings: ClientSettings, saved: ClientDb)
      ensures this.settings == settings && Db() == Restart(saved)
    {
      this.settings := settings;
      flows, operations, cursor, receipts := saved.flows, saved.ops, saved.cursor, saved.receipts;
      new;
      hide StopEnqueue, StopInline, StopCancel, RepairRow;
      operations := map o | o in operations :: StopEnqueue(operations[o]);
      operations := map o | o in operations :: StopInline(operations[o]);
      operations := map o | o in operations :: StopCancel(operations[o]);
      Repaired(saved, operations);
      RestoreReceipts();
    }

    /** A receipt for every delivery whose outcome is unknown. */
    method RestoreReceipts()
      modifies this`receipts
      ensures receipts == RepairReceipts(operations, old(receipts))
    {
      var todo := set o | o in operations && operations[o].delivery == EnqueueUnknown && operations[o].snapshot.Some?
                          && operations[o].snapshot.value.resultId.Some?;
      ghost var all := todo;
      while todo != {}
        invariant todo <= all
        invariant forall r :: r in receipts <==>
          r in old(receipts) || (r.op in all - todo && r == Receipt(r.op, operations[r.op].snapshot.value.resultId.value, DeliveryUnknown))
        invariant forall r :: r in receipts ==> receipts[r] == if r in old(receipts) then old(receipts)[r] else false
      {
        var o :| o in todo;
        InsertReceipt(Receipt(o, operations[o].snapshot.value.resultId.value, DeliveryUnknown));
        todo := todo - {o};
      }
      assert receipts == RepairReceipts(operations, old(receipts));
    }

    /** `_receipt`: insert or ignore. */
    method InsertReceipt(r: Receipt)
      modifies this`receipts
      ensures receipts == CL.AddReceipt(old(receipts), r)
    {
      if r !in receipts { receipts := receipts[r := false]; }
    }

    /** `row`: the operation, if it belongs to this native thread. */
    method Row(op: nat, thread: Option<string>) returns (r: Result<CRow, ClientError>)
      ensures r == if op in operations && (thread.None? || operations[op].origin.thread == thread.value)
                   then Ok(operations[op]) else Err(UnknownOperation)
    {
      if op !in operations || (thread.Some? && operations[op].origin.thread != thread.value) { return Err(UnknownOperation); }
      r := Ok(operations[op]);
    }

    /** `resolve_call`: only the exact native call finds its operation. */
    method ResolveCall(origin: Origin) returns (found: Option<nat>)
      ensures found.Some? ==> Called(operations, origin, found.value)
      ensures found.None? ==> forall o :: o in operations ==> operations[o].origin != origin
    {
      var calls := set o | o in operations && operations[o].origin == origin;
      if calls == {} {
        assert forall o :: o in operations && operations[o].origin == origin ==> o in calls;
        return None;
      }
      var o :| o in calls;
      found := Some(o);
    }

    method Create(origin: Origin, command: Command, wait: nat, now: int, uuid: nat, flowUuid: nat)
      returns (reply: Result<nat, ClientError>, ghost existing: Option<nat>)
      modifies this`flows, this`operations
      ensures existing.Some? ==> Called(old(operations), origin, existing.value)
      ensures existing.None? ==> forall o :: o in old(operations) ==> old(operations)[o].origin != origin
      ensures (Db(), reply) == CL.Create(old(Db()), settings, origin, command, wait, now, existing, uuid, flowUuid)
    {
      var found := ResolveCall(origin);
      existing := found;
      if Blank(command.prompt) || |command.prompt| > 262144 { return Err(InvalidPrompt), existing; }
      if |command.artifacts| > 32 { return Err(TooManyArtifacts), existing; }
      if found.Some? {
        if operations[found.value].digest != command { return Err(CallReused), existing; }
        return Ok(found.value), existing;
      }
      var pending := set o | o in operations && (operations[o].submission == Unsent || operations[o].submission == Acknowledged)
                             && !operations[o].expired && !IsFinal(operations[o]);
      assert pending == PendingOps(operations);
      if |pending| >= settings.maxPending { return Err(PendingLimit), existing; }
      if uuid in operations || (origin.thread !in flows && flowUuid in flows.Values) { return Err(StorageCollision), existing; }
      var flow := flowUuid;
      if origin.thread in flows { flow := flows[origin.thread]; }
      flows := flows[origin.thread := flow];
      operations := operations[uuid := NewCRow(settings, uuid, flow, origin, command, wait, now)];
      reply := Ok(uuid);
    }

    method Payload(op: nat, now: int) returns (payload: Option<Request>)
      ensures payload == ToSend(Db(), op, now)
    {
      if op !in operations || operations[op].payload.None? || operations[op].payloadExpires <= now { return None; }
      payload := operations[op].payload;
    }

    /** `ids`: the operations still followed, or only those never acknowledged. */
    method Ids(pending: bool) returns (ids: set<nat>)
      ensures forall o :: o in ids <==> o in operations && !operations[o].expired && (pending ==> operations[o].submission.Unsent?)
    {
      ids := set o | o in operations && !operations[o].expired && (!pending || operations[o].submission == Unsent);
    }

    method Advance(n: nat)
      modifies this`cursor
      ensures Db() == CL.Advance(old(Db()), n)
    {
      if cursor < n { cursor := n; }
    }

    method AcceptSnapshot(s: Snapshot, seqno: Option<nat>, now: int) returns (reply: Result<(), ClientError>)
      modifies this
      ensures (Db(), reply) == CL.AcceptSnapshot(old(Db()), settings, s, seqno, now)
    {
      if Terminal(s.state) && s.resultId.None? { return Err(MissingResultId); }
      if s.op in operations && !operations[s.op].expired {
        var row := operations[s.op];
        if s.flow != row.flow { return Err(FlowDisagrees); }
        var stale := row.snapshot.Some? && Terminal(row.snapshot.value.state);
        var exact := row.snapshot.Some? && ExactResolution(row.snapshot.value, s);
        if stale && !exact && Terminal(s.state) && Differs(row.snapshot.value, s) {
          operations := operations[s.op := row.(conflict := true)];
        } else if !stale || exact {
          operations := operations[s.op := row.(snapshot := Some(s), submission := Acknowledged, payload := None,
                                                updated := now, expires := now + settings.retention)];
          if s.resultId.Some? { InsertReceipt(Receipt(s.op, s.resultId.value, Stored)); }
        } else {
          assert operations == operations[s.op := row];
        }
      }
      if seqno.Some? { Advance(seqno.value); }
      reply := Ok(());
    }

    /** `view`: what is shown, and with `consume` the inline hand-over of a final result. */
    method View(op: nat, thread: string, consume: bool) returns (reply: Result<Report, ClientError>)
      modifies this`operations, this`receipts
      ensures reply.Err? ==> Db() == old(Db()) && !(op in operations && operations[op].origin.thread == thread)
      ensures reply.Ok? ==>
        && Db() == (if consume then Consume(old(Db()), op) else old(Db()))
        && op in operations && operations[op].origin.thread == thread && reply.value == ReportOf(op, operations[op])
    {
      var found := Row(op, Some(thread));
      if found.Err? { return Err(found.error); }
      var row := found.value;
      if consume && Shown(op, row).resultId.Some? && Final(Shown(op, row).state) && !row.expired {
        if row.delivery == InlinePending || row.delivery == Ready || row.delivery == Unsupported {
          operations := operations[op := row.(delivery := InlineReturned)];
        } else {
          assert operations == operations[op := row.(delivery := row.delivery)];
        }
        InsertReceipt(Receipt(op, row.snapshot.value.resultId.value, Delivered));
      }
      reply := Ok(ReportOf(op, operations[op]));
    }

    method ReleaseInline(op: nat)
      modifies this`operations
      ensures Db() == CL.ReleaseInline(old(Db()), op)
    {
      if op in operations && operations[op].delivery == InlinePending {
        operations := operations[op := operations[op].(inlineDeadline := 0, delivery := Ready)];
      }
    }

    /** `claim_delivery`: a claim is granted exactly for a deliverable operation, and written down before any enqueue. */
    method ClaimDelivery(op: nat, now: int, deliveryId: nat) returns (claimed: Option<CRow>)
      modifies this`operations
      ensures claimed.Some? <==> Deliverable(old(Db()), op, now)
      ensures claimed.Some? ==> Db() == CL.ClaimDelivery(old(Db()), op, deliveryId) && claimed == Some(operations[op])
      ensures claimed.None? ==> Db() == old(Db())
    {
      if op !in operations { return None; }
      var row := operations[op];
      if row.expired || row.delivery != Ready { return None; }
      if row.inlineDeadline > now || row.snapshot.None? { return None; }
      if row.snapshot.value.resultId.None? || !Final(row.snapshot.value.state) { return None; }
      operations := operations[op := row.(delivery := Enqueueing, deliveryId := Some(deliveryId))];
      claimed := Some(operations[op]);
    }

    /** `finish_delivery`; it fails for an unknown outcome of an operation that has no row or no snapshot. */
    method FinishDelivery(op: nat, status: Delivery, queueId: Option<string>) returns (ok: bool)
      modifies this`operations, this`receipts
      ensures Db() == CL.FinishDelivery(old(Db()), op, status, queueId)
      ensures ok <==> (status.EnqueueUnknown? ==> op in old(operations) && old(operations)[op].snapshot.Some?)
    {
      var saved := operations;
      if op in operations { operations := operations[op := operations[op].(delivery := status, queueId := queueId)]; }
      ok := true;
      if status == EnqueueUnknown {
        if op !in operations || operations[op].snapshot.None? {
          operations := saved;
          return false;
        }
        var row := operations[op];
        if row.snapshot.value.resultId.Some? {
          InsertReceipt(Receipt(op, row.snapshot.value.resultId.value, DeliveryUnknown));
        }
      }
    }

    method MarkSubmission(op: nat, state: Submission)
      modifies this`operations
      ensures Db() == CL.MarkSubmission(old(Db()), op, state)
    {
      if op in operations { operations := operations[op := operations[op].(submission := state)]; }
    }

    method SetCancel(op: nat, state: CancelState)
      modifies this`operations
      ensures Db() == CL.SetCancel(old(Db()), op, state)
    {
      if op in operations { operations := operations[op := operations[op].(cancel := Some(state))]; }
    }

    method UnsentReceipts() returns (waiting: set<Receipt>)
      ensures forall r :: r in waiting <==> r in receipts && !receipts[r]
    {
      waiting := set r | r in receipts && !receipts[r];
    }

    method ReceiptSent(r: Receipt)
      modifies this`receipts
      ensures Db() == MarkSent(old(Db()), r)
    {
      if r in receipts { receipts := receipts[r := true]; }
    }

    method Prune(now: int)
      modifies this`operations
      ensures Db() == CL.Prune(old(Db()), now)
    {
      hide ErasePayload, Due, Expire, PruneRow;
      operations := map o | o in operations :: ErasePayload(operations[o], now);
      var todo := set o | o in operations && Due(operations[o], now);
      ghost var all, kept := todo, operations;
      while todo != {}
        invariant todo <= all && operations.Keys == kept.Keys == old(operations).Keys
        invariant forall o :: o in kept && o !in all - todo ==> operations[o] == kept[o]
        invariant forall o :: o in all - todo ==> operations[o] == if IsFinal(kept[o]) then Expire(kept[o]) else kept[o]
      {
        var o :| o in todo;
        todo := todo - {o};
        var row := operations[o];
        if row.snapshot.None? || !Final(row.snapshot.value.state) { continue; }
        operations := operations[o := Expire(row)];
      }
      hide IsFinal;
      forall o | o in operations ensures operations[o] == PruneRow(old(operations)[o], now) { PruneSteps(old(operations)[o], now); }
      assert operations == CL.Prune(old(Db()), now).ops;
    }
  }
}
