/** The client ledger as a value: the tables of `client_store.py` and one function per transaction.

    Snapshots are those of the broker.  The stored command stands for its own digest. */
module ClientLedger {
  import opened Common
  import opened Ledger

  datatype Origin = Origin(thread: string, turn: string, call: string)

  datatype Command = Command(prompt: string, artifacts: seq<nat>)

  datatype Submission = Unsent | Acknowledged | Rejected | Uncertain | KeyUnavailable

  datatype Delivery = InlinePending | Ready | Enqueueing | Queued | Unsupported | EnqueueUnknown | InlineReturned

  datatype CancelState = Sending | Requested | CancelUnknown

  datatype CRow = CRow(
    flow: nat, origin: Origin, digest: Command, payload: Option<Request>, payloadExpires: int,
    snapshot: Option<Snapshot>, submission: Submission, delivery: Delivery, deliveryId: Option<nat>,
    queueId: Option<string>, inlineDeadline: int, cancel: Option<CancelState>, conflict: bool,
    updated: int, expires: int, expired: bool)

  datatype ClientDb = ClientDb(
    flows: map<string, nat>, ops: map<nat, CRow>, cursor: nat,
    receipts: map<Receipt, bool>)   // true once sent

  datatype ClientSettings = ClientSettings(payloadTtl: pos, retention: pos, maxPending: pos)

  datatype ClientError =
    | InvalidPrompt | TooManyArtifacts | CallReused | PendingLimit | StorageCollision
    | MissingResultId | FlowDisagrees | UnknownOperation

  const EMPTY_CLIENT := ClientDb(map[], map[], 0, map[])

  predicate Blank(s: string) {
    forall c :: c in s ==> c == ' ' || c == '\t' || c == '\n' || c == '\r'
  }

  /** The request every POST for an operation carries. */
  function RequestOf(op: nat, row: CRow): Request {
    Request(op, row.flow, row.digest.prompt, row.digest.artifacts)
  }

  predicate IsFinal(row: CRow) {
    row.snapshot.Some? && Final(row.snapshot.value.state)
  }

  function PendingOps(ops: map<nat, CRow>): set<nat> {
    set o | o in ops && (ops[o].submission.Unsent? || ops[o].submission.Acknowledged?) && !ops[o].expired && !IsFinal(ops[o])
  }

  function NewCRow(cfg: ClientSettings, op: nat, flow: nat, origin: Origin, command: Command, wait: nat, now: int): CRow {
    CRow(flow, origin, command, Some(Request(op, flow, command.prompt, command.artifacts)), now + cfg.payloadTtl,
         None, Unsent, InlinePending, None, None, now + wait, None, false, now, now + cfg.retention, false)
  }

  predicate Called(ops: map<nat, CRow>, origin: Origin, op: nat) {
    op in ops && ops[op].origin == origin
  }

  /** `create`, given the operation already stored for this native call, if any. */
  function Create(db: ClientDb, cfg: ClientSettings, origin: Origin, command: Command, wait: nat, now: int,
                  existing: Option<nat>, uuid: nat, flowUuid: nat): (r: (ClientDb, Result<nat, ClientError>))
    requires existing.Some? ==> existing.value in db.ops
  {
    if Blank(command.prompt) || |command.prompt| > 262144 then (db, Err(InvalidPrompt))
    else if |command.artifacts| > 32 then (db, Err(TooManyArtifacts))
    else if existing.Some? then
      if db.ops[existing.value].digest != command then (db, Err(CallReused)) else (db, Ok(existing.value))
    else if |PendingOps(db.ops)| >= cfg.maxPending then (db, Err(PendingLimit))
    else if uuid in db.ops || (origin.thread !in db.flows && flowUuid in db.flows.Values) then (db, Err(StorageCollision))
    else
      var flow := if origin.thread in db.flows then db.flows[origin.thread] else flowUuid;
      (db.(flows := db.flows[origin.thread := flow],
           ops := db.ops[uuid := NewCRow(cfg, uuid, flow, origin, command, wait, now)]), Ok(uuid))
  }

  /** `payload`: what `dispatch_pending` would send now. */
  function ToSend(db: ClientDb, op: nat, now: int): Option<Request> {
    if op in db.ops && db.ops[op].payload.Some? && db.ops[op].payloadExpires > now then db.ops[op].payload else None
  }

  // ---------------------------------------------------------------- merging snapshots

  /** The snapshot carries a non-empty remote handle. */
  predicate Named(s: Snapshot) {
    s.handle.Some? && s.handle.value != ""
  }

  /** An unknown outcome is replaced only by a final one of the same saved handle and result id. */
  predicate ExactResolution(previous: Snapshot, s: Snapshot) {
    && previous.state.OutcomeUnknown? && Final(s.state)
    && Named(previous) && previous.handle == s.handle && previous.resultId == s.resultId
  }

  predicate Differs(previous: Snapshot, s: Snapshot) {
    previous.state != s.state || previous.resultId != s.resultId || previous.result != s.result || previous.error != s.error
  }

  predicate Stores(row: CRow, s: Snapshot) {
    row.snapshot.None? || !Terminal(row.snapshot.value.state) || ExactResolution(row.snapshot.value, s)
  }

  function Merge(row: CRow, cfg: ClientSettings, s: Snapshot, now: int): CRow {
    if Stores(row, s) then
      row.(snapshot := Some(s), submission := Acknowledged, payload := None, updated := now, expires := now + cfg.retention)
    else if Terminal(s.state) && Differs(row.snapshot.value, s) then row.(conflict := true)
    else row
  }

  function AddReceipt(receipts: map<Receipt, bool>, r: Receipt): map<Receipt, bool> {
    if r in receipts then receipts else receipts[r := false]
  }

  function AcceptSnapshot(db: ClientDb, cfg: ClientSettings, s: Snapshot, seqno: Option<nat>, now: int): (r: (ClientDb, Result<(), ClientError>)) {
    var db1 := if seqno.Some? then db.(cursor := if db.cursor < seqno.value then seqno.value else db.cursor) else db;
    if Terminal(s.state) && s.resultId.None? then (db, Err(MissingResultId))
    else if s.op !in db.ops || db.ops[s.op].expired then (db1, Ok(()))
    else if s.flow != db.ops[s.op].flow then (db, Err(FlowDisagrees))
    else
      var row := db.ops[s.op];
      var receipts := if Stores(row, s) && s.resultId.Some? then AddReceipt(db.receipts, Receipt(s.op, s.resultId.value, Stored))
                      else db.receipts;
      (db1.(ops := db.ops[s.op := Merge(row, cfg, s, now)], receipts := receipts), Ok(()))
  }

  function Advance(db: ClientDb, n: nat): ClientDb {
    db.(cursor := if db.cursor < n then n else db.cursor)
  }

  // ---------------------------------------------------------------- delivery

  /** The snapshot part of what `view` returns. */
  function Shown(op: nat, row: CRow): Snapshot {
    if row.snapshot.Some? then row.snapshot.value
    else Snapshot(op, row.flow, OutcomeUnknown, None, None, None, None, 0, 0)
  }

  predicate Consumable(row: CRow) {
    IsFinal(row) && row.snapshot.value.resultId.Some? && !row.expired
  }

  /** `view(consume=True)`. */
  function Consume(db: ClientDb, op: nat): ClientDb {
    if op !in db.ops || !Consumable(db.ops[op]) then db
    else
      var row := db.ops[op];
      var delivery := if row.delivery.InlinePending? || row.delivery.Ready? || row.delivery.Unsupported? then InlineReturned else row.delivery;
      db.(ops := db.ops[op := row.(delivery := delivery)],
          receipts := AddReceipt(db.receipts, Receipt(op, row.snapshot.value.resultId.value, Delivered)))
  }

  function ReleaseInline(db: ClientDb, op: nat): ClientDb {
    if op in db.ops && db.ops[op].delivery.InlinePending?
    then db.(ops := db.ops[op := db.ops[op].(inlineDeadline := 0, delivery := Ready)])
    else db
  }

  predicate Deliverable(db: ClientDb, op: nat, now: int) {
    && op in db.ops && db.ops[op].delivery.Ready? && db.ops[op].inlineDeadline <= now && Consumable(db.ops[op])
  }

  function ClaimDelivery(db: ClientDb, op: nat, deliveryId: nat): ClientDb
    requires op in db.ops
  {
    db.(ops := db.ops[op := db.ops[op].(delivery := Enqueueing, deliveryId := Some(deliveryId))])
  }

  /** `finish_delivery`: nothing for an operation that is not there; an unknown outcome needs the stored snapshot, and
      without one the transaction is undone. */
  function FinishDelivery(db: ClientDb, op: nat, status: Delivery, queueId: Option<string>): ClientDb {
    if op !in db.ops || (status.EnqueueUnknown? && db.ops[op].snapshot.None?) then db
    else
      var row := db.ops[op].(delivery := status, queueId := queueId);
      db.(ops := db.ops[op := row],
          receipts := if status.EnqueueUnknown? && row.snapshot.value.resultId.Some?
                      then AddReceipt(db.receipts, Receipt(op, row.snapshot.value.resultId.value, DeliveryUnknown))
                      else db.receipts)
  }

  function MarkSubmission(db: ClientDb, op: nat, state: Submission): ClientDb {
    if op in db.ops then db.(ops := db.ops[op := db.ops[op].(submission := state)]) else db
  }

  function SetCancel(db: ClientDb, op: nat, state: CancelState): ClientDb {
    if op in db.ops then db.(ops := db.ops[op := db.ops[op].(cancel := Some(state))]) else db
  }

  function MarkSent(db: ClientDb, r: Receipt): ClientDb {
    if r in db.receipts then db.(receipts := db.receipts[r := true]) else db
  }

  // ---------------------------------------------------------------- retention and restart

  function PruneRow(row: CRow, now: int): CRow {
    var kept := if row.payloadExpires <= now then row.(payload := None) else row;
    if kept.expires <= now && !kept.expired && IsFinal(kept) then
      kept.(snapshot := Some(kept.snapshot.value.(result := None, error := None)), expired := true, payload := None)
    else kept
  }

  function Prune(db: ClientDb, now: int): ClientDb {
    db.(ops := map o | o in db.ops :: PruneRow(db.ops[o], now))
  }

  /** The repairs made when the store is opened: nothing in flight survives a restart. */
  function RepairRow(row: CRow): CRow {
    var row1 := if row.delivery.Enqueueing? then row.(delivery := EnqueueUnknown)
                else if row.delivery.InlinePending? then row.(inlineDeadline := 0, delivery := Ready)
                else row;
    if row1.cancel == Some(Sending) then row1.(cancel := Some(CancelUnknown)) else row1
  }

  function RepairReceipts(ops: map<nat, CRow>, receipts: map<Receipt, bool>): map<Receipt, bool> {
    (map o | o in ops && ops[o].delivery.EnqueueUnknown? && ops[o].snapshot.Some? && ops[o].snapshot.value.resultId.Some?
       :: Receipt(o, ops[o].snapshot.value.resultId.value, DeliveryUnknown) := false)
    + receipts
  }

  function Restart(db: ClientDb): ClientDb {
    var ops := map o | o in db.ops :: RepairRow(db.ops[o]);
    db.(ops := ops, receipts := RepairReceipts(ops, db.receipts))
  }
}
