/** Invariants of every client run, whatever snapshots arrive: identity of calls and requests, and delivery at most once. */
module ClientInvariant {
  import opened Common
  import opened Ledger
  import opened ClientLedger
  import opened Client

  predicate CRowOk(o: nat, row: CRow, flows: map<string, nat>) {
    && row.origin.thread in flows && row.flow == flows[row.origin.thread]
    && (row.payload.Some? ==> row.payload.value == RequestOf(o, row))
    && (row.snapshot.Some? && Terminal(row.snapshot.value.state) ==> row.snapshot.value.resultId.Some?)
    && (row.expired ==> IsFinal(row))
    && (row.delivery.Enqueueing? || row.delivery.Queued? || row.delivery.EnqueueUnknown? ==> IsFinal(row))
  }

  predicate CRowsOk(ops: map<nat, CRow>, flows: map<string, nat>) {
    forall o :: o in ops ==> CRowOk(o, ops[o], flows)
  }

  /** One native call has one operation. */
  predicate CallsOk(ops: map<nat, CRow>) {
    forall a, b :: a in ops && b in ops && ops[a].origin == ops[b].origin ==> a == b
  }

  /** Every request ever posted is the one request of its operation. */
  predicate PostsOk(ops: map<nat, CRow>, posts: set<Request>) {
    forall r :: r in posts ==> r.op in ops && r == RequestOf(r.op, ops[r.op])
  }

  /** An attempted enqueue named the final result still shown; it can only have ended in `inline_returned` or
      `unsupported` when the queue refused it. */
  predicate EnqueueOk(e: Enqueue, ops: map<nat, CRow>, refused: set<nat>) {
    && e.op in ops && IsFinal(ops[e.op]) && ops[e.op].snapshot.value.resultId == Some(e.resultId)
    && !ops[e.op].delivery.InlinePending? && !ops[e.op].delivery.Ready?
    && (ops[e.op].delivery.InlineReturned? || ops[e.op].delivery.Unsupported? ==> e.op in refused)
  }

  predicate DeliveryOk(ops: map<nat, CRow>, enqueues: seq<Enqueue>, refused: set<nat>, inflight: Option<nat>) {
    && (forall e :: e in enqueues ==> EnqueueOk(e, ops, refused))
    && (forall i, j :: 0 <= i < j < |enqueues| ==> enqueues[i].op != enqueues[j].op)
    && (inflight.Some? ==> inflight.value in ops && ops[inflight.value].delivery.Enqueueing?)
  }

  predicate CancelsOk(ops: map<nat, CRow>, cancelPosts: seq<nat>) {
    Distinct(cancelPosts) && forall o :: o in cancelPosts ==> o in ops && ops[o].cancel.Some?
  }

  predicate ClientInv(c: Client) {
    && CRowsOk(c.db.ops, c.db.flows) && CallsOk(c.db.ops) && PostsOk(c.db.ops, c.posts)
    && DeliveryOk(c.db.ops, c.enqueues, c.refused, c.inflight) && CancelsOk(c.db.ops, c.cancelPosts)
  }

  /** An unknown outcome stored without a remote handle: no later snapshot can ever replace it. */
  predicate Stuck(snapshot: Option<Snapshot>) {
    snapshot.Some? && snapshot.value.state.OutcomeUnknown? && !Named(snapshot.value)
  }

  /** How a client row may change. */
  predicate CRowEvolves(a: CRow, b: CRow) {
    && a.flow == b.flow && a.origin == b.origin && a.digest == b.digest
    && (a.snapshot.Some? ==> b.snapshot.Some?)
    && (IsFinal(a) ==> IsFinal(b) && b.snapshot.value.state == a.snapshot.value.state
                       && b.snapshot.value.resultId == a.snapshot.value.resultId)
    && (Stuck(a.snapshot) ==> b.snapshot == a.snapshot)
    && (a.delivery.InlineReturned? ==> b.delivery.InlineReturned?)
    && (b.delivery.InlinePending? ==> a.delivery.InlinePending?)
    && (b.delivery.Ready? ==> a.delivery.Ready? || a.delivery.InlinePending?)
    && (a.cancel.Some? ==> b.cancel.Some?)
    && (a.expired ==> b.expired)
  }

  predicate COpsEvolve(a: map<nat, CRow>, b: map<nat, CRow>) {
    forall o :: o in a ==> o in b && CRowEvolves(a[o], b[o])
  }

  /** What a step may do to the delivery state of rows that were never handed to the queue or were refused. */
  predicate DeliveryStays(a: CRow, b: CRow) {
    || b.delivery == a.delivery
    || (b.delivery.InlineReturned? && (a.delivery.InlinePending? || a.delivery.Ready? || a.delivery.Unsupported?))
    || (b.delivery.Ready? && a.delivery.InlinePending?)
    || (b.delivery.EnqueueUnknown? && a.delivery.Enqueueing?)
    || (b.delivery.Queued? && a.delivery.EnqueueUnknown?)
  }

  // ---------------------------------------------------------------- rows

  lemma MergeEvolves(o: nat, row: CRow, flows: map<string, nat>, cfg: ClientSettings, s: Snapshot, now: int)
    requires CRowOk(o, row, flows) && (Terminal(s.state) ==> s.resultId.Some?)
    ensures CRowOk(o, Merge(row, cfg, s, now), flows) && CRowEvolves(row, Merge(row, cfg, s, now))
    ensures Merge(row, cfg, s, now).delivery == row.delivery
  {
  }

  lemma PruneEvolves(o: nat, row: CRow, flows: map<string, nat>, now: int)
    requires CRowOk(o, row, flows)
    ensures CRowOk(o, PruneRow(row, now), flows) && CRowEvolves(row, PruneRow(row, now)) && PruneRow(row, now).delivery == row.delivery
  {
  }

  lemma RepairEvolves(o: nat, row: CRow, flows: map<string, nat>)
    requires CRowOk(o, row, flows)
    ensures CRowOk(o, RepairRow(row), flows) && CRowEvolves(row, RepairRow(row)) && DeliveryStays(row, RepairRow(row))
  {
  }

  // ---------------------------------------------------------------- keeping each part

  /** New rows for the same operations: what each part of the invariant needs of them. */
  predicate Fits(c: Client, ops: map<nat, CRow>) {
    && ops.Keys == c.db.ops.Keys && COpsEvolve(c.db.ops, ops) && CRowsOk(ops, c.db.flows)
  }

  lemma FitsKeeps(c: Client, ops: map<nat, CRow>)
    requires ClientInv(c) && Fits(c, ops)
    ensures CallsOk(ops) && PostsOk(ops, c.posts) && CancelsOk(ops, c.cancelPosts)
  {
    hide DeliveryOk, CRowOk;
    forall a, b | a in ops && b in ops && ops[a].origin == ops[b].origin ensures a == b {
      assert CRowEvolves(c.db.ops[a], ops[a]) && CRowEvolves(c.db.ops[b], ops[b]);
    }
  }

  lemma DeliveryKeeps(a: map<nat, CRow>, b: map<nat, CRow>, enqueues: seq<Enqueue>, refused: set<nat>, inflight: Option<nat>)
    requires DeliveryOk(a, enqueues, refused, None) && COpsEvolve(a, b)
    requires forall o :: o in a ==> DeliveryStays(a[o], b[o])
    requires inflight.Some? ==> inflight.value in b && b[inflight.value].delivery.Enqueueing?
    ensures DeliveryOk(b, enqueues, refused, inflight)
  {
    forall e | e in enqueues ensures EnqueueOk(e, b, refused) {
      assert EnqueueOk(e, a, refused) && CRowEvolves(a[e.op], b[e.op]) && DeliveryStays(a[e.op], b[e.op]);
    }
  }

  /** A step that only rewrites rows, leaves in-flight deliveries alone and enqueues nothing. */
  lemma RowsChanged(c: Client, db: ClientDb, inflight: Option<nat>)
    requires ClientInv(c) && Fits(c, db.ops) && db.flows == c.db.flows
    requires forall o :: o in c.db.ops ==> DeliveryStays(c.db.ops[o], db.ops[o])
    requires inflight.None? || (inflight == c.inflight && forall o :: o in c.db.ops && c.db.ops[o].delivery.Enqueueing? ==> db.ops[o].delivery.Enqueueing?)
    ensures ClientInv(c.(db := db, inflight := inflight))
  {
    FitsKeeps(c, db.ops);
    hide CRowsOk, CallsOk, PostsOk, CancelsOk;
    DeliveryKeeps(c.db.ops, db.ops, c.enqueues, c.refused, inflight);
  }

  lemma CEvolvesRefl(row: CRow)
    ensures CRowEvolves(row, row)
  {
  }

  lemma OneRowFits(c: Client, o: nat, row: CRow)
    requires ClientInv(c) && o in c.db.ops && CRowOk(o, row, c.db.flows) && CRowEvolves(c.db.ops[o], row)
    ensures Fits(c, c.db.ops[o := row])
  {
    hide CRowOk, CRowEvolves, CallsOk, PostsOk, DeliveryOk, CancelsOk;
    var ops := c.db.ops[o := row];
    assert ops.Keys == c.db.ops.Keys;
    forall p | p in c.db.ops ensures CRowEvolves(c.db.ops[p], ops[p]) { CEvolvesRefl(c.db.ops[p]); }
  }

  /** The common case: one row changes and its delivery state moves as it may outside the delivery loop. */
  lemma OneRowChanged(c: Client, db: ClientDb, o: nat)
    requires ClientInv(c) && o in c.db.ops && o in db.ops && db.flows == c.db.flows && db.ops == c.db.ops[o := db.ops[o]]
    requires CRowOk(o, db.ops[o], c.db.flows) && CRowEvolves(c.db.ops[o], db.ops[o]) && DeliveryStays(c.db.ops[o], db.ops[o])
    requires c.db.ops[o].delivery.Enqueueing? ==> db.ops[o].delivery.Enqueueing?
    ensures ClientInv(c.(db := db)) && COpsEvolve(c.db.ops, db.ops)
  {
    hide CRowOk, CRowEvolves, CRowsOk, CallsOk, PostsOk, DeliveryOk, CancelsOk, ClientInv;
    OneRowFits(c, o, db.ops[o]);
    RowsChanged(c, db, c.inflight);
  }

  ghost predicate CKeeps(c: Client, c': Client) {
    ClientInv(c') && COpsEvolve(c.db.ops, c'.db.ops)
  }

  lemma NothingChanged(c: Client, db: ClientDb)
    requires ClientInv(c) && db.ops == c.db.ops && db.flows == c.db.flows
    ensures CKeeps(c, c.(db := db))
  {
    forall o | o in c.db.ops ensures CRowEvolves(c.db.ops[o], c.db.ops[o]) { CEvolvesRefl(c.db.ops[o]); }
  }

  // ---------------------------------------------------------------- steps

  lemma SnapshotKeeps(c: Client, cfg: ClientSettings, s: Snapshot, seqno: Option<nat>, now: int)
    requires ClientInv(c)
    ensures CKeeps(c, c.(db := AcceptSnapshot(c.db, cfg, s, seqno, now).0))
  {
    hide CRowOk, CRowEvolves, CallsOk, PostsOk, DeliveryOk, CancelsOk, Merge, COpsEvolve;
    var r := AcceptSnapshot(c.db, cfg, s, seqno, now);
    if r.0.ops == c.db.ops {
      NothingChanged(c, r.0);
    } else {
      MergeEvolves(s.op, c.db.ops[s.op], c.db.flows, cfg, s, now);
      OneRowChanged(c, r.0, s.op);
    }
  }

  lemma SubmitRow(c: Client, cfg: ClientSettings, s: CStep)
    requires s.Submit? && CEnabled(c, s)
    ensures var db := CNext(c, cfg, s).db;
      && CNext(c, cfg, s) == c.(db := db)
      && (db == c.db
          || (&& s.existing.None? && s.uuid !in c.db.ops && s.origin.thread in db.flows
              && (forall t :: t in c.db.flows ==> t in db.flows && db.flows[t] == c.db.flows[t])
              && db.ops == c.db.ops[s.uuid := NewCRow(cfg, s.uuid, db.flows[s.origin.thread], s.origin, s.command, s.wait, s.now)]))
  {
    hide PendingOps, Blank;
  }

  /** A row for a call that had none keeps rows, calls and posts in order. */
  lemma SubmitParts(c: Client, db: ClientDb, op: nat, row: CRow)
    requires CRowsOk(c.db.ops, c.db.flows) && CallsOk(c.db.ops) && PostsOk(c.db.ops, c.posts)
    requires op !in c.db.ops && db.ops == c.db.ops[op := row] && CRowOk(op, row, db.flows)
    requires forall t :: t in c.db.flows ==> t in db.flows && db.flows[t] == c.db.flows[t]
    requires forall o :: o in c.db.ops ==> c.db.ops[o].origin != row.origin
    ensures CRowsOk(db.ops, db.flows) && CallsOk(db.ops) && PostsOk(db.ops, c.posts)
  {
    hide IsFinal, RequestOf;
    forall o | o in db.ops ensures CRowOk(o, db.ops[o], db.flows) {
      if o != op { assert CRowOk(o, c.db.ops[o], c.db.flows); }
    }
  }

  lemma SubmitKeeps(c: Client, cfg: ClientSettings, s: CStep)
    requires ClientInv(c) && s.Submit? && CEnabled(c, s)
    ensures CKeeps(c, CNext(c, cfg, s))
  {
    SubmitRow(c, cfg, s);
    hide CRowEvolves, CancelsOk, DeliveryOk, CNext, CRowsOk, CallsOk, PostsOk;
    var db := CNext(c, cfg, s).db;
    if db == c.db {
      NothingChanged(c, db);
    } else {
      forall o | o in c.db.ops ensures CRowEvolves(c.db.ops[o], db.ops[o]) { CEvolvesRefl(c.db.ops[o]); }
      SubmitParts(c, db, s.uuid, db.ops[s.uuid]);
      SubmitHistories(c, db);
    }
  }

  lemma SubmitHistories(c: Client, db: ClientDb)
    requires ClientInv(c) && forall o :: o in c.db.ops ==> o in db.ops && db.ops[o] == c.db.ops[o]
    ensures DeliveryOk(db.ops, c.enqueues, c.refused, c.inflight) && CancelsOk(db.ops, c.cancelPosts)
  {
    hide CRowsOk, CallsOk, PostsOk;
    forall e | e in c.enqueues ensures EnqueueOk(e, db.ops, c.refused) { assert EnqueueOk(e, c.db.ops, c.refused); }
  }

  predicate IsSmall(s: CStep) {
    s.Mark? || s.View? || s.Release? || s.Reconciled? || s.CancelReturned?
  }

  lemma SmallRow(c: Client, cfg: ClientSettings, s: CStep)
    requires CEnabled(c, s) && IsSmall(s) && s.op in c.db.ops && CRowOk(s.op, c.db.ops[s.op], c.db.flows)
    ensures var db := CNext(c, cfg, s).db;
      && CNext(c, cfg, s) == c.(db := db) && db.flows == c.db.flows
      && s.op in db.ops && db.ops == c.db.ops[s.op := db.ops[s.op]]
      && CRowOk(s.op, db.ops[s.op], c.db.flows) && CRowEvolves(c.db.ops[s.op], db.ops[s.op])
      && DeliveryStays(c.db.ops[s.op], db.ops[s.op])
      && (c.db.ops[s.op].delivery.Enqueueing? ==> db.ops[s.op].delivery.Enqueueing?)
  {
  }

  lemma SmallAbsent(c: Client, cfg: ClientSettings, s: CStep)
    requires CEnabled(c, s) && IsSmall(s) && s.op !in c.db.ops
    ensures CNext(c, cfg, s) == c
  {
  }

  lemma SmallStepKeeps(c: Client, cfg: ClientSettings, s: CStep)
    requires ClientInv(c) && CEnabled(c, s) && IsSmall(s)
    ensures CKeeps(c, CNext(c, cfg, s))
  {
    hide CallsOk, PostsOk, DeliveryOk, CancelsOk, COpsEvolve, CNext, CEnabled, CRowOk, CRowEvolves, DeliveryStays;
    if s.op in c.db.ops {
      assert CRowOk(s.op, c.db.ops[s.op], c.db.flows);
      SmallRow(c, cfg, s);
      OneRowChanged(c, CNext(c, cfg, s).db, s.op);
    } else {
      SmallAbsent(c, cfg, s);
      NothingChanged(c, c.db);
    }
  }

  lemma CancelPostKeeps(c: Client, cfg: ClientSettings, op: nat)
    requires ClientInv(c) && CEnabled(c, CancelPost(op))
    ensures CKeeps(c, CNext(c, cfg, CancelPost(op)))
  {
    hide CallsOk, PostsOk, DeliveryOk, COpsEvolve;
    var db := SetCancel(c.db, op, Sending);
    assert CRowOk(op, c.db.ops[op], c.db.flows);
    OneRowChanged(c, db, op);
  }

  lemma TakeDelivery(c: Client, op: nat, now: int, deliveryId: nat)
    requires ClientInv(c) && c.inflight.None? && Deliverable(c.db, op, now)
    ensures var db := ClaimDelivery(c.db, op, deliveryId);
      && Fits(c, db.ops) && (forall e :: e in c.enqueues ==> e.op != op)
      && CRowOk(op, db.ops[op], db.flows)
  {
    hide CallsOk, PostsOk, CancelsOk;
    forall e | e in c.enqueues ensures e.op != op { assert EnqueueOk(e, c.db.ops, c.refused); }
    hide DeliveryOk;
    assert CRowOk(op, c.db.ops[op], c.db.flows);
    OneRowFits(c, op, c.db.ops[op].(delivery := Enqueueing, deliveryId := Some(deliveryId)));
  }

  lemma DeliverKeeps(c: Client, cfg: ClientSettings, op: nat, now: int, deliveryId: nat)
    requires ClientInv(c) && CEnabled(c, Deliver(op, now, deliveryId, true))
    ensures CKeeps(c, CNext(c, cfg, Deliver(op, now, deliveryId, true)))
  {
    TakeDelivery(c, op, now, deliveryId);
    var c' := CNext(c, cfg, Deliver(op, now, deliveryId, true));
    FitsKeeps(c, c'.db.ops);
    hide CRowsOk, CallsOk, PostsOk, CancelsOk, Fits, COpsEvolve;
    forall e | e in c'.enqueues ensures EnqueueOk(e, c'.db.ops, c'.refused) {
      if e in c.enqueues { assert EnqueueOk(e, c.db.ops, c.refused); }
    }
  }

  lemma UnsupportedKeeps(c: Client, cfg: ClientSettings, op: nat, now: int, deliveryId: nat)
    requires ClientInv(c) && CEnabled(c, Deliver(op, now, deliveryId, false))
    ensures CKeeps(c, CNext(c, cfg, Deliver(op, now, deliveryId, false)))
  {
    TakeDelivery(c, op, now, deliveryId);
    var c' := CNext(c, cfg, Deliver(op, now, deliveryId, false));
    assert CRowOk(op, c.db.ops[op], c.db.flows);
    OneRowFits(c, op, c'.db.ops[op]);
    assert c'.db.ops == c.db.ops[op := c'.db.ops[op]];
    FitsKeeps(c, c'.db.ops);
    hide CRowsOk, CallsOk, PostsOk, CancelsOk, COpsEvolve;
    forall e | e in c'.enqueues ensures EnqueueOk(e, c'.db.ops, c'.refused) {
      assert EnqueueOk(e, c.db.ops, c.refused);
    }
  }

  /** What the end of an enqueue does to its row and to the histories. */
  lemma DeliveredNext(c: Client, cfg: ClientSettings, outcome: EnqueueOutcome)
    requires CEnabled(c, EnqueueReturned(outcome)) && c.db.ops[c.inflight.value].snapshot.Some?
    ensures var c' := CNext(c, cfg, EnqueueReturned(outcome)); var op := c.inflight.value;
      && op in c'.db.ops && c'.db.ops == c.db.ops[op := c'.db.ops[op]] && c'.db.flows == c.db.flows
      && c'.db.ops[op] == c.db.ops[op].(delivery := c'.db.ops[op].delivery, queueId := c'.db.ops[op].queueId)
      && (c'.db.ops[op].delivery.Queued? || c'.db.ops[op].delivery.EnqueueUnknown?
          || (c'.db.ops[op].delivery.Unsupported? && op in c'.refused))
      && c'.enqueues == c.enqueues && c.refused <= c'.refused && c'.inflight == None
      && c'.posts == c.posts && c'.cancelPosts == c.cancelPosts
  {
  }

  lemma DeliveredKeeps(c: Client, cfg: ClientSettings, outcome: EnqueueOutcome)
    requires ClientInv(c) && CEnabled(c, EnqueueReturned(outcome))
    ensures CKeeps(c, CNext(c, cfg, EnqueueReturned(outcome)))
  {
    var c' := CNext(c, cfg, EnqueueReturned(outcome));
    var op := c.inflight.value;
    assert CRowOk(op, c.db.ops[op], c.db.flows);
    DeliveredNext(c, cfg, outcome);
    hide CNext, CEnabled;
    OneRowFits(c, op, c'.db.ops[op]);
    FitsKeeps(c, c'.db.ops);
    hide CRowsOk, CallsOk, PostsOk, CancelsOk, COpsEvolve;
    forall e | e in c'.enqueues ensures EnqueueOk(e, c'.db.ops, c'.refused) {
      assert EnqueueOk(e, c.db.ops, c.refused);
    }
  }

  lemma PruneKeeps(c: Client, now: int)
    requires ClientInv(c)
    ensures CKeeps(c, c.(db := Prune(c.db, now)))
  {
    hide CallsOk, PostsOk, DeliveryOk, CancelsOk, CRowOk, CRowEvolves, PruneRow;
    var db := Prune(c.db, now);
    forall o | o in c.db.ops
      ensures CRowOk(o, db.ops[o], c.db.flows) && CRowEvolves(c.db.ops[o], db.ops[o]) && db.ops[o].delivery == c.db.ops[o].delivery
    {
      PruneEvolves(o, c.db.ops[o], c.db.flows, now);
    }
    RowsChanged(c, db, c.inflight);
  }

  lemma ReopenKeeps(c: Client)
    requires ClientInv(c)
    ensures CKeeps(c, c.(db := Restart(c.db), inflight := None))
  {
    hide CallsOk, PostsOk, DeliveryOk, CancelsOk, CRowOk, CRowEvolves, RepairRow, RepairReceipts, DeliveryStays;
    var db := Restart(c.db);
    forall o | o in c.db.ops
      ensures CRowOk(o, db.ops[o], c.db.flows) && CRowEvolves(c.db.ops[o], db.ops[o]) && DeliveryStays(c.db.ops[o], db.ops[o])
    {
      RepairEvolves(o, c.db.ops[o], c.db.flows);
    }
    RowsChanged(c, db, None);
  }

  /** Neither the event reader's position and recovery nor what was heard matters to the client's own invariant. */
  lemma ReaderIrrelevant(c: Client, stream: Option<nat>, recovery: Recovery, heard: set<nat>)
    requires ClientInv(c)
    ensures ClientInv(c.(stream := stream, recovery := recovery, heard := heard))
  {
  }

  lemma PostKeeps(c: Client, cfg: ClientSettings, op: nat, now: int)
    requires ClientInv(c) && CEnabled(c, Post(op, now))
    ensures CKeeps(c, CNext(c, cfg, Post(op, now)))
  {
    NothingChanged(c, c.db);
    hide CallsOk, DeliveryOk, CancelsOk, COpsEvolve;
    assert CRowOk(op, c.db.ops[op], c.db.flows);
  }

  lemma EveryClientStep(c: Client, cfg: ClientSettings, s: CStep)
    requires ClientInv(c) && CEnabled(c, s)
    ensures CKeeps(c, CNext(c, cfg, s))
  {
    hide ClientInv, COpsEvolve, AcceptSnapshot, Create, Prune, Restart, FinishDelivery, MarkSubmission, Consume, ReleaseInline,
      SetCancel, ClaimDelivery, Deliverable, ToSend, MarkSent, Advance;
    match s
    case Submit(_, _, _, _, _, _, _) => SubmitKeeps(c, cfg, s);
    case Post(op, now) => PostKeeps(c, cfg, op, now);
    case Ingest(t, now) =>
      SnapshotKeeps(c, cfg, t, None, now);
      ReaderIrrelevant(c.(db := AcceptSnapshot(c.db, cfg, t, None, now).0), c.stream, c.recovery, CNext(c, cfg, s).heard);
    case Deliver(op, now, deliveryId, supported) =>
      if supported { DeliverKeeps(c, cfg, op, now, deliveryId); } else { UnsupportedKeeps(c, cfg, op, now, deliveryId); }
    case EnqueueReturned(outcome) => DeliveredKeeps(c, cfg, outcome);
    case CancelPost(op) => CancelPostKeeps(c, cfg, op);
    case PruneTick(now) => PruneKeeps(c, now);
    case Mark(_, _) => SmallStepKeeps(c, cfg, s);
    case View(_) => SmallStepKeeps(c, cfg, s);
    case Release(_) => SmallStepKeeps(c, cfg, s);
    case Reconciled(_, _) => SmallStepKeeps(c, cfg, s);
    case CancelReturned(_, _) => SmallStepKeeps(c, cfg, s);
    case _ => ReaderStep(c, cfg, s);
  }

  predicate IsReader(s: CStep) {
    || s.Sent? || s.Reopen? || s.OpenStream? || s.StreamEvent? || s.PassEvent? || s.CloseStream? || s.Gap? || s.BeginRecovery?
    || s.Fetched? || s.Missing? || s.FinishRecovery? || s.AbortRecovery?
  }

  lemma ReaderStep(c: Client, cfg: ClientSettings, s: CStep)
    requires ClientInv(c) && CEnabled(c, s) && IsReader(s)
    ensures CKeeps(c, CNext(c, cfg, s))
  {
    var c' := CNext(c, cfg, s);
    match s {
      case Reopen => ReopenKeeps(c);
      case StreamEvent(n, t, now) => NothingChanged(c, c.db); SnapshotKeeps(c, cfg, t, Some(n), now);
      case Fetched(t, now) => SnapshotKeeps(c, cfg, t, None, now);
      case _ => NothingChanged(c, c'.db);
    }
    hide ClientInv, COpsEvolve, AcceptSnapshot, Restart, MarkSent, Advance, CNext, CEnabled;
    assert CKeeps(c, c'.(stream := c.stream, recovery := c.recovery, heard := c.heard));
    ReaderIrrelevant(c'.(stream := c.stream, recovery := c.recovery, heard := c.heard), c'.stream, c'.recovery, c'.heard);
  }
}
