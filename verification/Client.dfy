/** The running client: its ledger, what the process holds only in memory, and the histories the theorems speak of. */
module Client {
  import opened Common
  import opened Ledger
  import opened ClientLedger

  /** One call of `delivery.enqueue` and the result id its text names. */
  datatype Enqueue = Enqueue(op: nat, resultId: nat)

  datatype EnqueueOutcome = Taken(queueId: string) | Refused | Lost

  /** Gap recovery after a 410: the watermark, then the operations still to fetch. */
  datatype Recovery = Idle | Noticed(resume: nat) | Fetching(resume: nat, todo: set<nat>)

  datatype Client = Client(
    db: ClientDb,
    posts: set<Request>,          // every request ever posted
    inflight: Option<nat>,        // operation whose enqueue is being awaited
    enqueues: seq<Enqueue>,       // every enqueue ever attempted
    refused: set<nat>,            // operations whose enqueue reported that nothing was queued
    cancelPosts: seq<nat>,        // every cancel ever posted
    stream: Option<nat>,          // last event number read from the open event stream
    recovery: Recovery,
    heard: set<nat>)              // operations of which a final snapshot came in an answer

  datatype CStep =
    | Submit(origin: Origin, command: Command, wait: nat, now: int, existing: Option<nat>, uuid: nat, flowUuid: nat)
    | Post(op: nat, now: int)
    | Mark(op: nat, state: Submission)
    | Ingest(s: Snapshot, now: int)
    | View(op: nat)
    | Release(op: nat)
    | Deliver(op: nat, now: int, deliveryId: nat, supported: bool)
    | EnqueueReturned(outcome: EnqueueOutcome)
    | Reconciled(op: nat, queueId: string)
    | CancelPost(op: nat)
    | CancelReturned(op: nat, ok: bool)
    | Sent(receipt: Receipt)
    | PruneTick(now: int)
    | Reopen
    // the event reader
    | OpenStream
    | StreamEvent(n: nat, s: Snapshot, now: int)
    | PassEvent(n: nat)
    | CloseStream
    | Gap(resume: nat)
    | BeginRecovery
    | Fetched(s: Snapshot, now: int)
    | Missing(op: nat)
    | FinishRecovery
    | AbortRecovery

  const NEW_CLIENT := Client(EMPTY_CLIENT, {}, None, [], {}, [], None, Idle, {})

  function Live(ops: map<nat, CRow>): set<nat> {
    set o | o in ops && !ops[o].expired
  }

  /** What an accepted answer adds to the operations whose final outcome was heard. */
  function Heard(s: Snapshot, ok: bool): set<nat> {
    if ok && Final(s.state) then {s.op} else {}
  }

  ghost predicate CEnabled(c: Client, s: CStep) {
    match s
    case Submit(origin, _, _, _, existing, _, _) =>
      if existing.Some? then Called(c.db.ops, origin, existing.value) else forall o :: o in c.db.ops ==> c.db.ops[o].origin != origin
    case Post(op, now) => ToSend(c.db, op, now).Some?
    case Mark(op, state) => state.Rejected? || state.Uncertain? || state.KeyUnavailable?
    case Deliver(op, now, _, _) => c.inflight.None? && Deliverable(c.db, op, now)
    case EnqueueReturned(_) => c.inflight.Some? && c.inflight.value in c.db.ops
    case Reconciled(op, _) => c.inflight.None? && op in c.db.ops && c.db.ops[op].delivery.EnqueueUnknown?
    case CancelPost(op) => op in c.db.ops && c.db.ops[op].cancel.None?
    case CancelReturned(op, _) => op in c.db.ops && c.db.ops[op].cancel.Some?
    case OpenStream => c.stream.None? && c.recovery.Idle?
    case StreamEvent(n, _, _) => c.stream.Some? && n == c.stream.value + 1
    case PassEvent(n) => c.stream.Some? && n == c.stream.value + 1
    case Gap(_) => c.stream.None? && c.recovery.Idle?
    case BeginRecovery => c.recovery.Noticed?
    case Fetched(s, _) => c.recovery.Fetching? && s.op in c.recovery.todo
    case Missing(op) => c.recovery.Fetching? && op in c.recovery.todo
    case FinishRecovery => c.recovery.Fetching? && c.recovery.todo == {}
    case _ => true
  }

  function CNext(c: Client, cfg: ClientSettings, s: CStep): Client
    requires CEnabled(c, s)
  {
    match s
    case Submit(origin, command, wait, now, existing, uuid, flowUuid) =>
      c.(db := Create(c.db, cfg, origin, command, wait, now, existing, uuid, flowUuid).0)
    case Post(op, now) => c.(posts := c.posts + {ToSend(c.db, op, now).value})
    case Mark(op, state) => c.(db := MarkSubmission(c.db, op, state))
    case Ingest(s, now) =>
      var r := AcceptSnapshot(c.db, cfg, s, None, now);
      c.(db := r.0, heard := c.heard + Heard(s, r.1.Ok?))
    case View(op) => c.(db := Consume(c.db, op))
    case Release(op) => c.(db := ReleaseInline(c.db, op))
    case Deliver(op, now, deliveryId, supported) =>
      var db := ClaimDelivery(c.db, op, deliveryId);
      if supported then
        c.(db := db, inflight := Some(op),
           enqueues := c.enqueues + [Enqueue(op, c.db.ops[op].snapshot.value.resultId.value)])
      else c.(db := FinishDelivery(db, op, Unsupported, None))
    case EnqueueReturned(outcome) =>
      var op := c.inflight.value;
      match outcome {
        case Taken(q) => c.(db := FinishDelivery(c.db, op, Queued, Some(q)), inflight := None)
        case Refused => c.(db := FinishDelivery(c.db, op, Unsupported, None), inflight := None, refused := c.refused + {op})
        case Lost => c.(db := FinishDelivery(c.db, op, EnqueueUnknown, None), inflight := None)
      }
    case Reconciled(op, queueId) => c.(db := FinishDelivery(c.db, op, Queued, Some(queueId)))
    case CancelPost(op) => c.(db := SetCancel(c.db, op, Sending), cancelPosts := c.cancelPosts + [op])
    case CancelReturned(op, ok) => c.(db := SetCancel(c.db, op, if ok then Requested else CancelUnknown))
    case Sent(receipt) => c.(db := MarkSent(c.db, receipt))
    case PruneTick(now) => c.(db := Prune(c.db, now))
    case Reopen => c.(db := Restart(c.db), inflight := None, stream := None, recovery := Idle)
    case OpenStream => c.(stream := Some(c.db.cursor))
    case StreamEvent(n, s, now) =>
      if n <= c.db.cursor then c.(stream := Some(n))
      else
        var r := AcceptSnapshot(c.db, cfg, s, Some(n), now);
        c.(db := r.0, stream := if r.1.Ok? then Some(n) else None)
    case PassEvent(n) => c.(stream := Some(n))
    case CloseStream => c.(stream := None)
    case Gap(resume) => c.(recovery := Noticed(resume))
    case BeginRecovery => c.(recovery := Fetching(c.recovery.resume, Live(c.db.ops)))
    case Fetched(s, now) =>
      var r := AcceptSnapshot(c.db, cfg, s, None, now);
      c.(db := r.0, recovery := if r.1.Ok? then Fetching(c.recovery.resume, c.recovery.todo - {s.op}) else Idle,
         heard := c.heard + Heard(s, r.1.Ok?))
    case Missing(op) => c.(recovery := Fetching(c.recovery.resume, c.recovery.todo - {op}))
    case FinishRecovery => c.(db := Advance(c.db, c.recovery.resume), recovery := Idle)
    case AbortRecovery => c.(recovery := Idle)
  }
}
