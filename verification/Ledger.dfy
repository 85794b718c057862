/** The broker ledger as a value: the tables of `broker_store.py` and one function per transaction.

    Every function takes the time of the transaction as `now` and new UUIDs as arguments.  A
    transaction that raises leaves the tables as they were, so an `Err` reply always comes with the
    unchanged ledger.  Encryption is the identity and the request digest is the request itself.

    The `log` component is a history variable: every event ever published for a device, purged or
    not.  No transaction reads it. */
module Ledger {
  import opened Common

  datatype OpState = Accepted | Running | Completed | Failed | Canceled | OutcomeUnknown

  predicate Final(s: OpState) {
    s.Completed? || s.Failed? || s.Canceled?
  }

  predicate Terminal(s: OpState) {
    Final(s) || s.OutcomeUnknown?
  }

  /** States counted against the admission limit. */
  predicate Active(s: OpState) {
    s.Accepted? || s.Running? || s.OutcomeUnknown?
  }

  /** States that hold their flow: no other operation of the flow may be claimed. */
  predicate Holding(s: OpState) {
    s.Running? || s.OutcomeUnknown?
  }

  datatype Code =
    | NotFound | IdConflict | AdmissionFull | InvalidArtifacts | UnsupportedArtifact | ArtifactsTooLarge
    | PayloadExpired | ArtifactExpired | RestartUnknown | SubmissionUnknown | CancelUnconfirmed
    | ResultTooLarge | ResultExpired | PeerRejected | PeerRequiresInput | InvalidPeerHandle
    | PeerHandleConflict | InvalidTerminalState | RetentionGap(resumeAfter: nat) | InvalidCursor
    | InvalidReceipt | ResultConflict | ArtifactTooLarge | DigestMismatch | InvalidContentType
    | ArtifactQuota | UnsupportedPeerArtifact | InvalidPeerArtifact | LedgerUnavailable
    | DispatcherRequired

  datatype Key = Key(device: string, op: nat)

  datatype Request = Request(op: nat, flow: nat, prompt: string, artifacts: seq<nat>)

  /** `size` is the length of the canonical serialization. */
  datatype OpResult =
    | Content(text: string, artifacts: seq<nat>, size: nat)
    | Diagnostics(details: string, size: nat)

  datatype SnapError = SnapError(code: Code, details: Option<string>)

  datatype Snapshot = Snapshot(
    op: nat, flow: nat, state: OpState, resultId: Option<nat>, result: Option<OpResult>,
    error: Option<SnapError>, handle: Option<string>, created: int, updated: int)

  datatype Row = Row(
    flow: nat, digest: Request, state: OpState, resultId: Option<nat>, result: Option<OpResult>,
    resultExpires: Option<int>, error: Option<Code>, handle: Option<string>, polled: Option<int>,
    created: int, updated: int, cancelClaimed: bool, cancelRequested: bool)

  datatype Payload = Payload(request: Request, expires: int)

  datatype OutboxState = Pending | Claimed | Done

  datatype Event = Event(snapshot: Snapshot, expires: int)

  /** A row of the devices table together with the device's rows of the events table. */
  datatype Device = Device(sequence: nat, floor: nat, events: map<nat, Event>)

  /** `textPlain` and `utf8` stand for the two content checks made on operation inputs. */
  datatype Artifact = Artifact(device: string, id: nat, content: string, textPlain: bool, utf8: bool, expires: int)

  datatype ReceiptStatus = Stored | Delivered | DeliveryUnknown

  datatype Receipt = Receipt(op: nat, resultId: nat, status: ReceiptStatus)

  datatype Settings = Settings(
    payloadTtl: pos, artifactTtl: pos, eventTtl: pos, resultTtl: pos, maxArtifactBytes: pos,
    deviceQuota: pos, maxPending: pos, maxResultBytes: pos, maxStreams: pos)

  datatype Ledger = Ledger(
    devices: map<string, Device>, ops: map<Key, Row>, payloads: map<Key, Payload>,
    outbox: map<Key, OutboxState>, artifacts: seq<Artifact>, receipts: set<(string, Receipt)>,
    log: map<string, seq<Snapshot>>)

  datatype Outcome<+T> = Outcome(db: Ledger, reply: Result<T, Code>)

  const EMPTY := Ledger(map[], map[], map[], map[], [], {}, map[])

  const NO_DEVICE := Device(0, 0, map[])

  function Dev(devices: map<string, Device>, d: string): Device {
    if d in devices then devices[d] else NO_DEVICE
  }

  function Log(log: map<string, seq<Snapshot>>, d: string): seq<Snapshot> {
    if d in log then log[d] else []
  }

  // ---------------------------------------------------------------- snapshots and events

  predicate Expired(row: Row, now: int) {
    row.resultExpires.Some? && row.resultExpires.value <= now
  }

  function ErrorOf(row: Row): Option<SnapError> {
    if row.error.Some? then Some(SnapError(row.error.value, None)) else None
  }

  /** The public snapshot of a row, given whether its result has expired. */
  function View(op: nat, row: Row, expired: bool): Snapshot {
    var shown :=
      if row.result.Some? && !expired then
        if row.error.Some? && row.result.value.Diagnostics?
        then (None, Some(SnapError(row.error.value, Some(row.result.value.details))))
        else (row.result, ErrorOf(row))
      else if expired then (None, Some(SnapError(ResultExpired, None)))
      else (None, ErrorOf(row));
    Snapshot(op, row.flow, row.state, row.resultId, shown.0, shown.1, row.handle, row.created, row.updated)
  }

  function SnapshotOf(op: nat, row: Row, now: int): Snapshot {
    View(op, row, Expired(row, now))
  }

  function Touch(db: Ledger, d: string): Ledger {
    db.(devices := db.devices[d := Dev(db.devices, d)])
  }

  function AppendEvent(dev: Device, snapshot: Snapshot, expires: int): Device {
    dev.(sequence := dev.sequence + 1, events := dev.events[dev.sequence + 1 := Event(snapshot, expires)])
  }

  /** Write the row of `k` and log its snapshot: the shape shared by every transaction that changes an operation. */
  function Publish(db: Ledger, cfg: Settings, k: Key, row: Row, now: int): Ledger {
    var snapshot := SnapshotOf(k.op, row, now);
    var dev := AppendEvent(Dev(db.devices, k.device), snapshot, now + Min(cfg.eventTtl, cfg.resultTtl));
    db.(ops := db.ops[k := row],
        devices := db.devices[k.device := dev],
        log := db.log[k.device := Log(db.log, k.device) + [snapshot]])
  }

  // ---------------------------------------------------------------- artifacts

  function StoredBytes(artifacts: seq<Artifact>, d: string): nat {
    if artifacts == [] then 0
    else StoredBytes(artifacts[..|artifacts| - 1], d)
         + (if artifacts[|artifacts| - 1].device == d then |artifacts[|artifacts| - 1].content| else 0)
  }

  /** `DELETE FROM artifacts WHERE expires_at <= now`, for one device or for all of them. */
  function DropExpired(artifacts: seq<Artifact>, d: Option<string>, now: int): seq<Artifact> {
    if artifacts == [] then []
    else
      var last := artifacts[|artifacts| - 1];
      DropExpired(artifacts[..|artifacts| - 1], d, now)
      + (if last.expires <= now && (d.None? || d.value == last.device) then [] else [last])
  }

  predicate Holds(artifacts: seq<Artifact>, d: string, id: nat) {
    exists i :: 0 <= i < |artifacts| && artifacts[i].device == d && artifacts[i].id == id
  }

  function Find(artifacts: seq<Artifact>, d: string, id: nat, now: int): Option<Artifact> {
    if artifacts == [] then None
    else
      var last := artifacts[|artifacts| - 1];
      if last.device == d && last.id == id && last.expires > now then Some(last)
      else Find(artifacts[..|artifacts| - 1], d, id, now)
  }

  function PutArtifact(db: Ledger, cfg: Settings, d: string, content: string, digest: string,
                       typeOk: bool, textPlain: bool, utf8: bool, now: int, id: nat): Outcome<nat>
  {
    var live := DropExpired(db.artifacts, Some(d), now);
    if |content| > cfg.maxArtifactBytes then Outcome(db, Err(ArtifactTooLarge))
    else if digest != content then Outcome(db, Err(DigestMismatch))
    else if !typeOk then Outcome(db, Err(InvalidContentType))
    else if StoredBytes(live, d) + |content| > cfg.deviceQuota then Outcome(db, Err(ArtifactQuota))
    else if Holds(live, d, id) then Outcome(db, Err(LedgerUnavailable))
    else
      var row := Artifact(d, id, content, textPlain, utf8, now + cfg.artifactTtl);
      Outcome(Touch(db, d).(artifacts := live + [row]), Ok(id))
  }

  /** The attachment loop of `accept`: total input size, or the first refusal. */
  function InputBytes(artifacts: seq<Artifact>, d: string, ids: seq<nat>, now: int): Result<nat, Code> {
    if ids == [] then Ok(0)
    else
      var before := InputBytes(artifacts, d, ids[..|ids| - 1], now);
      if before.Err? then before
      else
        var found := Find(artifacts, d, ids[|ids| - 1], now);
        if found.None? then Err(NotFound)
        else if !found.value.textPlain || !found.value.utf8 then Err(UnsupportedArtifact)
        else Ok(before.value + |found.value.content|)
  }

  predicate Available(artifacts: seq<Artifact>, d: string, ids: seq<nat>, now: int) {
    forall i :: 0 <= i < |ids| ==> Find(artifacts, d, ids[i], now).Some?
  }

  predicate Distinct<T(==)>(s: seq<T>) {
    forall i, j :: 0 <= i < j < |s| ==> s[i] != s[j]
  }

  // ---------------------------------------------------------------- admission

  function ActiveKeys(ops: map<Key, Row>, d: string): set<Key> {
    set k | k in ops && k.device == d && Active(ops[k].state)
  }

  function NewRow(req: Request, now: int): Row {
    Row(req.flow, req, Accepted, None, None, None, None, None, None, now, now, false, false)
  }

  function Accept(db: Ledger, cfg: Settings, d: string, req: Request, now: int): Outcome<(Snapshot, bool)> {
    var k := Key(d, req.op);
    var inputs := InputBytes(db.artifacts, d, req.artifacts, now);
    if k in db.ops then
      if db.ops[k].digest != req then Outcome(db, Err(IdConflict))
      else Outcome(Touch(db, d), Ok((SnapshotOf(k.op, db.ops[k], now), false)))
    else if |ActiveKeys(db.ops, d)| >= cfg.maxPending then Outcome(db, Err(AdmissionFull))
    else if !Distinct(req.artifacts) then Outcome(db, Err(InvalidArtifacts))
    else if inputs.Err? then Outcome(db, Err(inputs.error))
    else if |req.prompt| + inputs.value > cfg.maxArtifactBytes then Outcome(db, Err(ArtifactsTooLarge))
    else
      var db1 := db.(payloads := db.payloads[k := Payload(req, now + cfg.payloadTtl)],
                     outbox := db.outbox[k := Pending]);
      Outcome(Publish(db1, cfg, k, NewRow(req, now), now), Ok((SnapshotOf(k.op, NewRow(req, now), now), true)))
  }

  function Get(db: Ledger, k: Key, now: int): Result<Snapshot, Code> {
    if k in db.ops then Ok(SnapshotOf(k.op, db.ops[k], now)) else Err(NotFound)
  }

  // ---------------------------------------------------------------- lifecycle

  function FinishedRow(row: Row, cfg: Settings, state: OpState, result: Option<OpResult>, code: Option<Code>,
                       now: int, uuid: nat): Row
  {
    row.(state := state,
         resultId := if row.resultId.Some? then row.resultId else Some(uuid),
         result := result,
         resultExpires := if result.Some? then Some(now + cfg.resultTtl) else None,
         error := code,
         updated := now)
  }

  /** `_finish`: final rows are left alone; otherwise the outbox row is closed and the payload erased. */
  function Close(db: Ledger, cfg: Settings, k: Key, state: OpState, result: Option<OpResult>, code: Option<Code>,
                 now: int, uuid: nat): (r: Ledger)
    requires k in db.ops
    ensures r.ops.Keys == db.ops.Keys
  {
    if Final(db.ops[k].state) then db
    else
      var db1 := db.(payloads := db.payloads - {k}, outbox := if k in db.outbox then db.outbox[k := Done] else db.outbox);
      Publish(db1, cfg, k, FinishedRow(db.ops[k], cfg, state, result, code, now, uuid), now)
  }

  function Finish(db: Ledger, cfg: Settings, k: Key, state: OpState, result: Option<OpResult>, code: Option<Code>,
                  now: int, uuid: nat): (r: Outcome<Snapshot>)
    ensures r.db.ops.Keys == db.ops.Keys
  {
    if !Terminal(state) then Outcome(db, Err(InvalidTerminalState))
    else if k !in db.ops then Outcome(db, Err(NotFound))
    else
      var tooLarge := result.Some? && result.value.size > cfg.maxResultBytes;
      var db1 := Touch(db, k.device);
      var db2 := if tooLarge then Close(db1, cfg, k, Failed, None, Some(ResultTooLarge), now, uuid)
                 else Close(db1, cfg, k, state, result, code, now, uuid);
      Outcome(db2, Ok(SnapshotOf(k.op, db2.ops[k], now)))
  }

  predicate Candidate(db: Ledger, k: Key) {
    && k in db.ops && k in db.outbox && db.outbox[k].Pending? && db.ops[k].state.Accepted?
    && forall a :: a in db.ops && a.device == k.device && db.ops[a].flow == db.ops[k].flow ==> !Holding(db.ops[a].state)
  }

  /** `ORDER BY created_at, operation_id`. */
  predicate Before(created1: int, op1: nat, created2: int, op2: nat) {
    created1 < created2 || (created1 == created2 && op1 <= op2)
  }

  predicate FirstCandidate(db: Ledger, k: Key) {
    && Candidate(db, k)
    && forall c :: c in db.ops && Candidate(db, c) ==> Before(db.ops[k].created, k.op, db.ops[c].created, c.op)
  }

  /** `claim` once its candidate is known.  An unusable payload or attachment fails the operation instead. */
  function Claim(db: Ledger, cfg: Settings, k: Key, now: int, uuid: nat): (r: (Ledger, Option<Request>))
    requires k in db.ops
    ensures r.0.ops.Keys == db.ops.Keys
  {
    var db1 := Touch(db, k.device);
    if k !in db.payloads || db.payloads[k].expires <= now then
      (Close(db1, cfg, k, Failed, None, Some(PayloadExpired), now, uuid), None)
    else if !Available(db.artifacts, k.device, db.payloads[k].request.artifacts, now) then
      (Close(db1, cfg, k, Failed, None, Some(ArtifactExpired), now, uuid), None)
    else
      var db2 := db1.(outbox := db1.outbox[k := Claimed]);
      (Publish(db2, cfg, k, db.ops[k].(state := Running, updated := now), now), Some(db.payloads[k].request))
  }

  predicate ValidHandle(handle: string) {
    1 <= |handle| <= 512
  }

  function SaveHandle(db: Ledger, cfg: Settings, k: Key, handle: string, now: int): (r: Outcome<()>)
    ensures r.db.ops.Keys == db.ops.Keys
  {
    if !ValidHandle(handle) then Outcome(db, Err(InvalidPeerHandle))
    else if k !in db.ops then Outcome(db, Err(NotFound))
    else
      var row := db.ops[k];
      if row.handle.Some? && row.handle.value != handle then Outcome(db, Err(PeerHandleConflict))
      else if row.handle == Some(handle) || Final(row.state) then Outcome(Touch(db, k.device), Ok(()))
      else Outcome(Publish(db, cfg, k, row.(handle := Some(handle), updated := now), now), Ok(()))
  }

  /** `recover`: every row found running becomes unknown, in the order the rows were returned. */
  function CloseAll(db: Ledger, cfg: Settings, keys: seq<Key>, now: int, uuid: Key -> nat): (r: Ledger)
    requires forall k :: k in keys ==> k in db.ops
    ensures r.ops.Keys == db.ops.Keys
  {
    if keys == [] then db
    else
      var k := keys[|keys| - 1];
      Close(CloseAll(db, cfg, keys[..|keys| - 1], now, uuid), cfg, k, OutcomeUnknown, None, Some(RestartUnknown), now, uuid(k))
  }

  predicate ListsRunning(db: Ledger, keys: seq<Key>) {
    && Distinct(keys)
    && (forall k :: k in keys ==> k in db.ops)
    && (forall k :: k in db.ops ==> (k in keys <==> db.ops[k].state.Running?))
  }

  predicate Reconcilable(row: Row) {
    Holding(row.state) && row.handle.Some?
  }

  /** `reconcilable` stamps the rows it selected. */
  function Poll(ops: map<Key, Row>, keys: set<Key>, now: int): (r: map<Key, Row>)
    ensures r.Keys == ops.Keys
  {
    map k | k in ops :: if k in keys then ops[k].(polled := Some(now)) else ops[k]
  }

  function CancelIntent(db: Ledger, cfg: Settings, k: Key, now: int, uuid: nat): Outcome<Snapshot> {
    if k !in db.ops then Outcome(db, Err(NotFound))
    else
      var row := db.ops[k];
      var db1 := Touch(db, k.device);
      if row.state.Accepted? then
        var db2 := Close(db1, cfg, k, Canceled, None, None, now, uuid);
        Outcome(db2, Ok(SnapshotOf(k.op, db2.ops[k], now)))
      else if Final(row.state) || row.cancelRequested then Outcome(db1, Ok(SnapshotOf(k.op, row, now)))
      else
        var row' := row.(cancelRequested := true, error := Some(CancelUnconfirmed), updated := now);
        Outcome(Publish(db1, cfg, k, row', now), Ok(SnapshotOf(k.op, row', now)))
  }

  predicate Cancelable(row: Row) {
    row.cancelRequested && !row.cancelClaimed && row.handle.Some? && Holding(row.state)
  }

  function ClaimCancel(db: Ledger, k: Key): (r: Ledger)
    requires k in db.ops
    ensures r.ops.Keys == db.ops.Keys
  {
    Touch(db, k.device).(ops := db.ops[k := db.ops[k].(cancelClaimed := true)])
  }

  // ---------------------------------------------------------------- events, receipts, retention

  /** The greatest expired sequence number, or 0. */
  function LastExpired(events: map<nat, Event>, upTo: nat, now: int): (n: nat)
    ensures n <= upTo
    ensures n > 0 ==> n in events && events[n].expires <= now
    ensures forall m :: n < m <= upTo && m in events ==> events[m].expires > now
  {
    if upTo == 0 then 0
    else if upTo in events && events[upTo].expires <= now then upTo
    else LastExpired(events, upTo - 1, now)
  }

  function PurgeDevice(dev: Device, now: int): Device {
    var n := LastExpired(dev.events, dev.sequence, now);
    if n == 0 then dev
    else dev.(floor := Max(dev.floor, n), events := map m | m in dev.events && m > n :: dev.events[m])
  }

  const PAGE_LIMIT := 100

  /** The retained events after a cursor, in order, at most `limit` of them. */
  function Page(dev: Device, after: nat, limit: nat): seq<(nat, Snapshot)>
    decreases dev.sequence - after
  {
    if limit == 0 || after >= dev.sequence then []
    else if after + 1 in dev.events then
      [(after + 1, dev.events[after + 1].snapshot)] + Page(dev, after + 1, limit - 1)
    else Page(dev, after + 1, limit)
  }

  /** One page of the event log.  The purge done first is undone when the cursor is refused. */
  function Events(db: Ledger, d: string, after: nat, now: int): Outcome<seq<(nat, Snapshot)>> {
    var dev := PurgeDevice(Dev(db.devices, d), now);
    if after < dev.floor then Outcome(db, Err(RetentionGap(dev.sequence)))
    else if after > dev.sequence then Outcome(db, Err(InvalidCursor))
    else Outcome(db.(devices := db.devices[d := dev]), Ok(Page(dev, after, PAGE_LIMIT)))
  }

  function AddReceipt(db: Ledger, d: string, receipt: Receipt): Outcome<()> {
    var k := Key(d, receipt.op);
    if k !in db.ops then Outcome(db, Err(NotFound))
    else if db.ops[k].resultId != Some(receipt.resultId) then Outcome(db, Err(ResultConflict))
    else Outcome(Touch(db, d).(receipts := db.receipts + {(d, receipt)}), Ok(()))
  }

  function Purge(db: Ledger, now: int): Ledger {
    db.(devices := map d | d in db.devices :: PurgeDevice(db.devices[d], now),
        payloads := map k | k in db.payloads && db.payloads[k].expires > now :: db.payloads[k],
        artifacts := DropExpired(db.artifacts, None, now),
        ops := map k | k in db.ops :: if Expired(db.ops[k], now) then db.ops[k].(result := None) else db.ops[k])
  }
}
