/** What the client's transactions mean to those who use its ledger: what is sent and for how long, what is shown, what is
    handed over and acknowledged. */
module ClientTransactions {
  import opened Common
  import opened Ledger
  import opened ClientLedger

  /** Every other operation is as it was. */
  predicate OthersKept(a: ClientDb, b: ClientDb, op: nat) {
    b.ops - {op} == a.ops - {op} && b.flows == a.flows
  }

  /** Receipts only grow, by unsent ones. */
  predicate ReceiptsGrow(a: ClientDb, b: ClientDb, more: set<Receipt>) {
    && b.receipts.Keys == a.receipts.Keys + more
    && (forall r :: r in a.receipts ==> b.receipts[r] == a.receipts[r])
    && (forall r :: r in b.receipts && r !in a.receipts ==> !b.receipts[r])
  }

  // ---------------------------------------------------------------- creation

  predicate Creatable(db: ClientDb, cfg: ClientSettings, origin: Origin, command: Command, uuid: nat, flowUuid: nat) {
    && |PendingOps(db.ops)| < cfg.maxPending && uuid !in db.ops && (origin.thread in db.flows || flowUuid !in db.flows.Values)
  }

  predicate ValidCommand(command: Command) {
    !Blank(command.prompt) && |command.prompt| <= 262144 && |command.artifacts| <= 32
  }

  /** A native call seen before gets its own operation back, or is refused for a different command; nothing changes. */
  lemma CreateAgain(db: ClientDb, cfg: ClientSettings, origin: Origin, command: Command, wait: nat, now: int, known: nat, uuid: nat, flowUuid: nat)
    requires known in db.ops && ValidCommand(command)
    ensures var r := Create(db, cfg, origin, command, wait, now, Some(known), uuid, flowUuid);
      r.0 == db && r.1 == if db.ops[known].digest == command then Ok(known) else Err(CallReused)
  {
  }

  /** A new call is taken exactly if it is valid and there is room.  Then it waits to be sent: its request, in the flow of
      its thread, can be sent exactly until the payload's time to live is over, and nothing is final or delivered yet. */
  lemma CreateNew(db: ClientDb, cfg: ClientSettings, origin: Origin, command: Command, wait: nat, now: int, uuid: nat, flowUuid: nat)
    ensures var r := Create(db, cfg, origin, command, wait, now, None, uuid, flowUuid);
      && (r.1.Ok? <==> ValidCommand(command) && Creatable(db, cfg, origin, command, uuid, flowUuid))
      && (r.1.Err? ==> r.0 == db)
      && (r.1.Ok? ==>
            && r.1 == Ok(uuid) && uuid in r.0.ops && r.0.ops - {uuid} == db.ops && r.0.receipts == db.receipts && r.0.cursor == db.cursor
            && origin.thread in r.0.flows && r.0.flows - {origin.thread} == db.flows - {origin.thread}
            && (origin.thread in db.flows ==> r.0.flows == db.flows)
            && var row := r.0.ops[uuid];
               && row.origin == origin && row.digest == command && row.flow == r.0.flows[origin.thread]
               && row.submission.Unsent? && row.delivery.InlinePending? && row.snapshot.None? && row.cancel.None? && !row.expired && !row.conflict
               && row.inlineDeadline == now + wait)
    ensures var r := Create(db, cfg, origin, command, wait, now, None, uuid, flowUuid);
      r.1.Ok? ==> forall t :: var request := Request(uuid, r.0.flows[origin.thread], command.prompt, command.artifacts);
        ToSend(r.0, uuid, t) == if t < now + cfg.payloadTtl then Some(request) else None
  {
    hide Blank, PendingOps;
  }

  /** A call counts against the limit from its creation until it is final, or known not to have been taken. */
  lemma CountsUntilFinal(db: ClientDb, cfg: ClientSettings, s: Snapshot, seqno: Option<nat>, now: int)
    requires s.op in db.ops && !db.ops[s.op].expired && s.flow == db.ops[s.op].flow && (Terminal(s.state) ==> s.resultId.Some?)
    requires Replaces(db.ops[s.op], s)
    ensures s.op in PendingOps(AcceptSnapshot(db, cfg, s, seqno, now).0.ops) <==> !Final(s.state)
  {
  }

  lemma CountsFromCreation(db: ClientDb, cfg: ClientSettings, origin: Origin, command: Command, wait: nat, now: int, uuid: nat, flowUuid: nat)
    ensures var r := Create(db, cfg, origin, command, wait, now, None, uuid, flowUuid);
      r.1.Ok? ==> PendingOps(r.0.ops) == PendingOps(db.ops) + {uuid} && uuid !in PendingOps(db.ops)
  {
    hide Blank;
  }

  /** A mark is what becomes of a submission that was not acknowledged; it is then no longer waiting to be sent, nor counted. */
  lemma MarkOutcome(db: ClientDb, op: nat, state: Submission)
    requires op in db.ops
    ensures var db' := MarkSubmission(db, op, state);
      && OthersKept(db, db', op) && db'.receipts == db.receipts && db'.cursor == db.cursor
      && db'.ops[op].submission == state && db'.ops[op].(submission := db.ops[op].submission) == db.ops[op]
      && (state.Rejected? || state.Uncertain? || state.KeyUnavailable? ==> op !in PendingOps(db'.ops))
  {
  }

  lemma CancelOutcome(db: ClientDb, op: nat, state: CancelState)
    requires op in db.ops
    ensures var db' := SetCancel(db, op, state);
      && OthersKept(db, db', op) && db'.receipts == db.receipts && db'.cursor == db.cursor
      && db'.ops[op].cancel == Some(state) && db'.ops[op].(cancel := db.ops[op].cancel) == db.ops[op]
  {
  }

  /** A receipt the broker took is not sent again; no other one is affected. */
  lemma SentOutcome(db: ClientDb, r: Receipt)
    requires r in db.receipts
    ensures var db' := MarkSent(db, r);
      && db' == db.(receipts := db'.receipts) && db'.receipts.Keys == db.receipts.Keys && db'.receipts[r]
      && forall q :: q in db.receipts && q != r ==> db'.receipts[q] == db.receipts[q]
  {
  }

  /** The cursor only moves forward, and as far as told. */
  lemma AdvanceOutcome(db: ClientDb, n: nat)
    ensures var db' := Advance(db, n);
      db' == db.(cursor := db'.cursor) && db'.cursor >= n && db'.cursor >= db.cursor && (db'.cursor == n || db'.cursor == db.cursor)
  {
  }

  // ---------------------------------------------------------------- merging

  /** A new snapshot may replace what is stored: nothing yet, nothing terminal, or the unknown outcome it resolves. */
  predicate Replaces(row: CRow, s: Snapshot) {
    row.snapshot.Some? && Terminal(row.snapshot.value.state) ==>
      && row.snapshot.value.state.OutcomeUnknown? && Final(s.state)
      && row.snapshot.value.handle.Some? && row.snapshot.value.handle.value != ""
      && s.handle == row.snapshot.value.handle && s.resultId == row.snapshot.value.resultId
  }

  /** A snapshot about a known operation of the same flow that may replace what is stored is shown from then on; the request
      is never sent again, its result id is acknowledged, and it is kept for the retention time from now. */
  lemma MergeShows(db: ClientDb, cfg: ClientSettings, s: Snapshot, seqno: Option<nat>, now: int)
    requires s.op in db.ops && !db.ops[s.op].expired && s.flow == db.ops[s.op].flow && (Terminal(s.state) ==> s.resultId.Some?)
    requires Replaces(db.ops[s.op], s)
    ensures var r := AcceptSnapshot(db, cfg, s, seqno, now);
      && r.1 == Ok(()) && s.op in r.0.ops && OthersKept(db, r.0, s.op)
      && Shown(s.op, r.0.ops[s.op]) == s && r.0.ops[s.op].submission.Acknowledged?
      && r.0.ops[s.op].delivery == db.ops[s.op].delivery && r.0.ops[s.op].cancel == db.ops[s.op].cancel
      && r.0.ops[s.op].conflict == db.ops[s.op].conflict
      && ReceiptsGrow(db, r.0, if s.resultId.Some? then {Receipt(s.op, s.resultId.value, Stored)} else {})
    ensures forall t :: ToSend(AcceptSnapshot(db, cfg, s, seqno, now).0, s.op, t).None?
    ensures forall t :: var row := AcceptSnapshot(db, cfg, s, seqno, now).0.ops[s.op];
      PruneRow(row, t).expired <==> Final(s.state) && t >= now + cfg.retention
  {
  }

  /** Otherwise what is stored stays; a terminal snapshot that disagrees with it raises the conflict flag. */
  lemma MergeKeeps(db: ClientDb, cfg: ClientSettings, s: Snapshot, seqno: Option<nat>, now: int)
    requires s.op in db.ops && !db.ops[s.op].expired && s.flow == db.ops[s.op].flow && (Terminal(s.state) ==> s.resultId.Some?)
    requires !Replaces(db.ops[s.op], s)
    ensures var r := AcceptSnapshot(db, cfg, s, seqno, now); var a, b := db.ops[s.op], r.0.ops[s.op];
      && r.1 == Ok(()) && OthersKept(db, r.0, s.op) && b.(conflict := a.conflict) == a && r.0.receipts == db.receipts
      && var t := a.snapshot.value;
         var same := s.state == t.state && s.resultId == t.resultId && s.result == t.result && s.error == t.error;
         b.conflict == (a.conflict || (Terminal(s.state) && !same))
  {
  }

  /** A refused snapshot changes nothing, not even the cursor; an accepted one moves the cursor to its number if that is
      ahead.  Operations that are unknown or expired are left alone. */
  lemma MergeCursor(db: ClientDb, cfg: ClientSettings, s: Snapshot, seqno: Option<nat>, now: int)
    ensures var r := AcceptSnapshot(db, cfg, s, seqno, now);
      && (r.1.Err? <==> (Terminal(s.state) && s.resultId.None?)
                        || (s.op in db.ops && !db.ops[s.op].expired && s.flow != db.ops[s.op].flow))
      && (r.1.Err? ==> r.0 == db)
      && (r.1.Ok? ==> r.0.cursor == if seqno.Some? && seqno.value > db.cursor then seqno.value else db.cursor)
      && (s.op !in db.ops || db.ops[s.op].expired ==> r.0.ops == db.ops && r.0.receipts == db.receipts)
  {
    hide Merge, Stores;
  }

  // ---------------------------------------------------------------- handing over

  /** A final result that is read inline counts as returned and acknowledged, and is never enqueued afterwards; one whose
      enqueue was claimed stays with the queue. */
  lemma ConsumeOutcome(db: ClientDb, op: nat)
    requires op in db.ops
    ensures var db' := Consume(db, op); var a := db.ops[op];
      && OthersKept(db, db', op) && db'.cursor == db.cursor && op in db'.ops && db'.ops[op].(delivery := a.delivery) == a
      && (if Consumable(a)
          then
            && ReceiptsGrow(db, db', {Receipt(op, a.snapshot.value.resultId.value, Delivered)})
            && (a.delivery.Enqueueing? || a.delivery.Queued? || a.delivery.EnqueueUnknown? ==> db' == db.(receipts := db'.receipts))
            && (a.delivery.InlinePending? || a.delivery.Ready? || a.delivery.Unsupported? ==> db'.ops[op].delivery.InlineReturned?)
          else db' == db)
    ensures Consumable(db.ops[op]) ==> forall t :: !Deliverable(Consume(db, op), op, t)
  {
  }

  /** Once the inline wait is over, a final result is deliverable at any time, whatever the deadline was. */
  lemma ReleaseOutcome(db: ClientDb, op: nat, t: int)
    requires op in db.ops && db.ops[op].delivery.InlinePending? && t >= 0
    ensures var db' := ReleaseInline(db, op);
      OthersKept(db, db', op) && db'.receipts == db.receipts && (Deliverable(db', op, t) <==> Consumable(db.ops[op]))
  {
  }

  /** A claimed delivery is not deliverable again, and if nothing more is heard of it, a restart counts it as unknown with a
      receipt that says so. */
  lemma ClaimedDelivery(db: ClientDb, op: nat, deliveryId: nat, now: int, t: int)
    requires Deliverable(db, op, now)
    ensures var db' := ClaimDelivery(db, op, deliveryId);
      && OthersKept(db, db', op) && db'.receipts == db.receipts && !Deliverable(db', op, t)
      && db'.ops[op].deliveryId == Some(deliveryId) && db'.ops[op].snapshot == db.ops[op].snapshot
      && Restart(db').ops[op].delivery.EnqueueUnknown?
      && Receipt(op, db.ops[op].snapshot.value.resultId.value, DeliveryUnknown) in Restart(db').receipts
  {
  }

  /** How a delivery ends is what is stored, with the queue's id; an unknown end is reported to the broker. */
  lemma DeliveryEnds(db: ClientDb, op: nat, status: Delivery, queueId: Option<string>)
    requires op in db.ops && db.ops[op].snapshot.Some? && db.ops[op].snapshot.value.resultId.Some?
    ensures var db' := FinishDelivery(db, op, status, queueId);
      && OthersKept(db, db', op) && db'.cursor == db.cursor
      && db'.ops[op].delivery == status && db'.ops[op].queueId == queueId && db'.ops[op].snapshot == db.ops[op].snapshot
      && ReceiptsGrow(db, db', if status.EnqueueUnknown? then {Receipt(op, db.ops[op].snapshot.value.resultId.value, DeliveryUnknown)} else {})
  {
  }

  // ---------------------------------------------------------------- retention and restart

  /** Pruning erases exactly the payloads whose time has come, and the results of final operations past retention; state,
      result id, delivery and cancel state stay, and nothing else changes. */
  lemma PruneOutcome(db: ClientDb, now: int, o: nat)
    requires o in db.ops
    ensures var db' := Prune(db, now); var a, b := db.ops[o], Prune(db, now).ops[o];
      && db'.ops.Keys == db.ops.Keys && db'.receipts == db.receipts && db'.flows == db.flows && db'.cursor == db.cursor
      && (b.expired <==> a.expired || (a.expires <= now && IsFinal(a)))
      && (b.expired == a.expired ==> b.snapshot == a.snapshot && b.payload == if a.payloadExpires <= now then None else a.payload)
      && (b.expired != a.expired ==>
            b.payload.None? && b.snapshot.Some? && b.snapshot == Some(a.snapshot.value.(result := None, error := None)))
      && b.(expired := a.expired, snapshot := a.snapshot, payload := a.payload) == a
      && Shown(o, b).state == Shown(o, a).state && Shown(o, b).resultId == Shown(o, a).resultId && Shown(o, b).handle == Shown(o, a).handle
  {
  }

  /** A restart leaves nothing in flight: an enqueue or a cancel that was being awaited is of unknown outcome, an inline wait
      is over.  Everything else is as it was, and receipts only grow. */
  lemma RestartOutcome(db: ClientDb, o: nat)
    requires o in db.ops
    ensures var db' := Restart(db); var a, b := db.ops[o], Restart(db).ops[o];
      && db'.ops.Keys == db.ops.Keys && db'.flows == db.flows && db'.cursor == db.cursor
      && b.delivery == (if a.delivery.Enqueueing? then EnqueueUnknown else if a.delivery.InlinePending? then Ready else a.delivery)
      && b.inlineDeadline == (if a.delivery.InlinePending? then 0 else a.inlineDeadline)
      && b.cancel == (if a.cancel == Some(Sending) then Some(CancelUnknown) else a.cancel)
      && b.(delivery := a.delivery, inlineDeadline := a.inlineDeadline, cancel := a.cancel) == a
      && (b.delivery.EnqueueUnknown? && a.snapshot.Some? && a.snapshot.value.resultId.Some? ==>
            Receipt(o, a.snapshot.value.resultId.value, DeliveryUnknown) in db'.receipts)
      && (forall r :: r in db.receipts ==> r in db'.receipts && db'.receipts[r] == db.receipts[r])
  {
  }

  /** Nothing is handed to the queue while its call may still wait, or without a final result that can be shown. */
  lemma DeliverableWhen(db: ClientDb, op: nat, t: int)
    requires Deliverable(db, op, t)
    ensures var row := db.ops[op];
      && op in db.ops && row.inlineDeadline <= t && !row.expired && row.delivery.Ready?
      && Final(Shown(op, row).state) && Shown(op, row).resultId.Some?
  {
  }

  /** A result that became final while its call waited is handed over exactly once: returned inline when it is read first,
      deliverable natively when the wait ends first. */
  lemma InlineOrQueue(db: ClientDb, cfg: ClientSettings, s: Snapshot, now: int, t: int)
    requires s.op in db.ops && !db.ops[s.op].expired && s.flow == db.ops[s.op].flow && db.ops[s.op].delivery.InlinePending?
    requires Final(s.state) && s.resultId.Some? && Replaces(db.ops[s.op], s) && t >= 0
    ensures var db1 := AcceptSnapshot(db, cfg, s, None, now).0;
      && Consume(db1, s.op).ops[s.op].delivery.InlineReturned? && !Deliverable(ReleaseInline(Consume(db1, s.op), s.op), s.op, t)
      && !Deliverable(db1, s.op, t) && Deliverable(ReleaseInline(db1, s.op), s.op, t)
  {
    hide AcceptSnapshot, Consume, ReleaseInline;
    var db1 := AcceptSnapshot(db, cfg, s, None, now).0;
    MergeShows(db, cfg, s, None, now);
    SnapshotStored(db, cfg, s, now);
    ConsumeOutcome(db1, s.op);
    ReleaseOutcome(db1, s.op, t);
    NotInline(Consume(db1, s.op), s.op);
  }

  lemma SnapshotStored(db: ClientDb, cfg: ClientSettings, s: Snapshot, now: int)
    requires s.op in db.ops && !db.ops[s.op].expired && s.flow == db.ops[s.op].flow && Replaces(db.ops[s.op], s)
    requires Final(s.state) && s.resultId.Some?
    ensures var row := AcceptSnapshot(db, cfg, s, None, now).0.ops[s.op]; row.snapshot == Some(s) && !row.expired
  {
  }

  lemma NotInline(db: ClientDb, op: nat)
    requires op in db.ops && db.ops[op].delivery.InlineReturned?
    ensures ReleaseInline(db, op) == db
  {
  }
}
