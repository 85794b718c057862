/** Client steps keep the system invariant; with the broker steps, so does every step of the system. */
module SystemSteps {
  import opened Common
  import opened Ledger
  import opened LedgerInvariant
  import B = Broker
  import BI = BrokerInvariant
  import BS = BrokerSteps
  import opened ClientLedger
  import opened Client
  import opened ClientInvariant
  import opened System
  import opened SystemInvariant
  import FE = FinalEvents
  import F = PayloadFates

  function Incoming(s: CStep): Option<Snapshot> {
    match s
    case Ingest(t, _) => Some(t)
    case StreamEvent(_, t, _) => Some(t)
    case Fetched(t, _) => Some(t)
    case _ => None
  }

  // ---------------------------------------------------------------- where client data comes from

  predicate SameCore(a: Option<Snapshot>, b: Option<Snapshot>) {
    && a.Some? && b.Some? && b.value.(result := None, error := None) == a.value.(result := None, error := None)
  }

  /** Each stored snapshot was there before (up to its pruned result) or has just come in. */
  predicate SnapshotsFrom(a: map<nat, CRow>, b: map<nat, CRow>, t: Option<Snapshot>) {
    forall o :: o in b && b[o].snapshot.Some? ==>
      (o in a && SameCore(a[o].snapshot, b[o].snapshot)) || (t == b[o].snapshot && t.value.op == o)
  }

  /** Each receipt was there before or names the result id stored now. */
  predicate ReceiptsFrom(a: map<Receipt, bool>, b: map<Receipt, bool>, ops: map<nat, CRow>) {
    forall r :: r in b ==>
      r in a || (r.op in ops && ops[r.op].snapshot.Some? && ops[r.op].snapshot.value.resultId == Some(r.resultId))
  }

  ghost predicate DataFrom(c: Client, c': Client, t: Option<Snapshot>) {
    SnapshotsFrom(c.db.ops, c'.db.ops, t) && ReceiptsFrom(c.db.receipts, c'.db.receipts, c'.db.ops)
  }

  lemma SnapshotData(c: Client, cfg: ClientSettings, s: Snapshot, seqno: Option<nat>, now: int)
    ensures var db := AcceptSnapshot(c.db, cfg, s, seqno, now).0;
      SnapshotsFrom(c.db.ops, db.ops, Some(s)) && ReceiptsFrom(c.db.receipts, db.receipts, db.ops)
  {
  }

  lemma RestartData(c: Client)
    ensures var db := Restart(c.db);
      SnapshotsFrom(c.db.ops, db.ops, None) && ReceiptsFrom(c.db.receipts, db.receipts, db.ops)
  {
  }

  lemma PruneData(c: Client, now: int)
    ensures SnapshotsFrom(c.db.ops, Prune(c.db, now).ops, None) && Prune(c.db, now).receipts == c.db.receipts
  {
  }

  lemma SmallData(c: Client, cfg: ClientSettings, s: CStep)
    requires CEnabled(c, s) && Incoming(s).None? && !s.Reopen? && !s.PruneTick? && !s.Submit? && !IsDelivery(s)
    ensures DataFrom(c, CNext(c, cfg, s), None)
  {
    hide AcceptSnapshot, Restart, Prune, Create, Merge, RepairReceipts, FinishDelivery, ClaimDelivery;
  }

  predicate IsDelivery(s: CStep) {
    s.Deliver? || s.EnqueueReturned? || s.Reconciled?
  }

  lemma FinishData(c: Client, op: nat, status: Delivery, queueId: Option<string>)
    requires op in c.db.ops
    ensures DataFrom(c, c.(db := FinishDelivery(c.db, op, status, queueId)), None)
  {
  }

  lemma ClaimData(c: Client, op: nat, deliveryId: nat)
    requires op in c.db.ops
    ensures DataFrom(c, c.(db := ClaimDelivery(c.db, op, deliveryId)), None)
  {
  }

  /** `Deliver` without native support: claimed and given back at once. */
  lemma GiveBackData(c: Client, op: nat, deliveryId: nat)
    requires op in c.db.ops
    ensures DataFrom(c, c.(db := FinishDelivery(ClaimDelivery(c.db, op, deliveryId), op, Unsupported, None)), None)
  {
  }

  /** Only the database matters to where its data came from. */
  lemma DataOf(c: Client, a: Client, b: Client)
    requires DataFrom(c, a, None) && b.db == a.db
    ensures DataFrom(c, b, None)
  {
  }

  lemma DeliveryData(c: Client, cfg: ClientSettings, s: CStep)
    requires CEnabled(c, s) && IsDelivery(s)
    ensures DataFrom(c, CNext(c, cfg, s), None)
  {
    hide DataFrom, AcceptSnapshot, Restart, Prune, Create, FinishDelivery, ClaimDelivery, Consume, ReleaseInline;
    var c' := CNext(c, cfg, s);
    match s {
      case Deliver(op, now, deliveryId, supported) =>
        ClaimData(c, op, deliveryId);
        GiveBackData(c, op, deliveryId);
      case EnqueueReturned(outcome) =>
        var op := c.inflight.value;
        match outcome {
          case Taken(q) => FinishData(c, op, Queued, Some(q));
          case Refused => FinishData(c, op, Unsupported, None);
          case Lost => FinishData(c, op, EnqueueUnknown, None);
        }
      case Reconciled(op, q) => FinishData(c, op, Queued, Some(q));
    }
    DataOf(c, c.(db := c'.db), c');
  }

  lemma SubmitData(c: Client, cfg: ClientSettings, s: CStep)
    requires CEnabled(c, s) && s.Submit?
    ensures DataFrom(c, CNext(c, cfg, s), None)
  {
    hide PendingOps, Blank;
  }

  lemma ClientData(c: Client, cfg: ClientSettings, s: CStep)
    requires CEnabled(c, s)
    ensures DataFrom(c, CNext(c, cfg, s), Incoming(s))
  {
    hide AcceptSnapshot, Restart, Prune, SnapshotsFrom, ReceiptsFrom, FinishDelivery, ClaimDelivery, Create, Consume, ReleaseInline,
      MarkSubmission, SetCancel, MarkSent, Deliverable, ToSend;
    match s
    case Ingest(t, now) => SnapshotData(c, cfg, t, None, now);
    case StreamEvent(n, t, now) =>
      SnapshotData(c, cfg, t, Some(n), now);
      SameData(c, t);
    case Fetched(t, now) => SnapshotData(c, cfg, t, None, now);
    case Reopen => RestartData(c);
    case PruneTick(now) =>
      PruneData(c, now);
      SameReceipts(c.db.receipts, Prune(c.db, now).ops);
    case Submit(_, _, _, _, _, _, _) => SubmitData(c, cfg, s);
    case Deliver(_, _, _, _) => DeliveryData(c, cfg, s);
    case EnqueueReturned(_) => DeliveryData(c, cfg, s);
    case Reconciled(_, _) => DeliveryData(c, cfg, s);
    case _ => SmallData(c, cfg, s);
  }

  lemma SameReceipts(receipts: map<Receipt, bool>, ops: map<nat, CRow>)
    ensures ReceiptsFrom(receipts, receipts, ops)
  {
  }

  lemma SameData(c: Client, t: Snapshot)
    ensures SnapshotsFrom(c.db.ops, c.db.ops, Some(t)) && ReceiptsFrom(c.db.receipts, c.db.receipts, c.db.ops)
  {
  }

  // ---------------------------------------------------------------- the two ledgers stay tied

  lemma IdentityClient(d: string, ops: map<Key, Row>, a: map<nat, CRow>, b: map<nat, CRow>)
    requires IdentityOk(d, ops, a) && COpsEvolve(a, b)
    ensures IdentityOk(d, ops, b)
  {
    forall k | k in ops && k.device == d ensures k.op in b && ops[k].digest == RequestOf(k.op, b[k.op]) {
      assert CRowEvolves(a[k.op], b[k.op]);
    }
  }

  lemma CompatibleCore(s: Snapshot, t: Snapshot, row: Row)
    requires Compatible(s, row) && t.(result := None, error := None) == s.(result := None, error := None)
    ensures Compatible(t, row)
  {
  }

  lemma DataTied(d: string, ops: map<Key, Row>, c: Client, c': Client, t: Option<Snapshot>)
    requires StoredOk(d, ops, c.db.ops) && ReceiptsOk(d, ops, c.db.receipts) && DataFrom(c, c', t)
    requires t.Some? ==> Key(d, t.value.op) in ops && Compatible(t.value, ops[Key(d, t.value.op)])
    ensures StoredOk(d, ops, c'.db.ops) && ReceiptsOk(d, ops, c'.db.receipts)
  {
    forall o | o in c'.db.ops && c'.db.ops[o].snapshot.Some?
      ensures Key(d, o) in ops && Compatible(c'.db.ops[o].snapshot.value, ops[Key(d, o)])
    {
      if o in c.db.ops && SameCore(c.db.ops[o].snapshot, c'.db.ops[o].snapshot) {
        CompatibleCore(c.db.ops[o].snapshot.value, c'.db.ops[o].snapshot.value, ops[Key(d, o)]);
      }
    }
    forall r | r in c'.db.receipts ensures Key(d, r.op) in ops && ops[Key(d, r.op)].resultId == Some(r.resultId) {
      if r !in c.db.receipts {
        assert Compatible(c'.db.ops[r.op].snapshot.value, ops[Key(d, r.op)]);
      }
    }
  }

  // ---------------------------------------------------------------- settling

  /** What an honest snapshot leaves behind: its own outcome when final, or the stuck unknown it met. */
  lemma MergeSettles(row: CRow, cfg: ClientSettings, t: Snapshot, now: int, r: Row)
    requires Compatible(t, r) && Final(t.state) && t.resultId.Some?
    requires row.snapshot.Some? ==> Compatible(row.snapshot.value, r)
    ensures var s := Merge(row, cfg, t, now).snapshot;
      s.Some? && ((s.value.state == t.state && s.value.resultId == t.resultId) || Stuck(s))
  {
  }

  lemma SameFlow(y: System, cfg: Config, o: nat)
    requires SysInv(y, cfg) && Key(cfg.device, o) in y.broker.db.ops
    ensures o in y.client.db.ops && y.broker.db.ops[Key(cfg.device, o)].flow == y.client.db.ops[o].flow
    ensures y.broker.db.ops[Key(cfg.device, o)].digest == RequestOf(o, y.client.db.ops[o])
  {
    hide LedgerInv, BI.BrokerInv, ClientInv, AnswersOk, AbsencesOk, StoredOk, ReceiptsOk, CursorOk, RecoveryOk, HeardOk, SourcesOk, FE.FinalLast;
    LedgerOf(cfg.broker, y.broker);
    RowFacts(y.broker.db, cfg.broker, Key(cfg.device, o));
  }

  /** An honest snapshot is never refused. */
  lemma Welcome(y: System, cfg: Config, t: Snapshot, seqno: Option<nat>, now: int)
    requires SysInv(y, cfg)
    requires var ops := y.broker.db.ops; Key(cfg.device, t.op) in ops && Compatible(t, ops[Key(cfg.device, t.op)])
    ensures AcceptSnapshot(y.client.db, cfg.client, t, seqno, now).1.Ok?
    ensures t.op in y.client.db.ops && t.flow == y.client.db.ops[t.op].flow
  {
    hide SysInv, Merge, Stores;
    SameFlow(y, cfg, t.op);
  }

  lemma AcceptedRow(db: ClientDb, cfg: ClientSettings, t: Snapshot, seqno: Option<nat>, now: int)
    requires t.op in db.ops && AcceptSnapshot(db, cfg, t, seqno, now).1.Ok?
    ensures var db' := AcceptSnapshot(db, cfg, t, seqno, now).0;
      && t.op in db'.ops && db'.ops[t.op] == (if db.ops[t.op].expired then db.ops[t.op] else Merge(db.ops[t.op], cfg, t, now))
      && db'.cursor == if seqno.Some? && db.cursor < seqno.value then seqno.value else db.cursor
  {
    hide Merge, Stores, ClientLedger.AddReceipt;
  }

  lemma HonestRow(y: System, cfg: Config, o: nat)
    requires SysInv(y, cfg) && o in y.client.db.ops
    ensures var row := y.client.db.ops[o];
      && (row.expired ==> IsFinal(row))
      && (row.snapshot.Some? ==>
            Key(cfg.device, o) in y.broker.db.ops && Compatible(row.snapshot.value, y.broker.db.ops[Key(cfg.device, o)]))
  {
    hide BI.BrokerInv, AnswersOk, AbsencesOk, ReceiptsOk, CursorOk, RecoveryOk, HeardOk, SourcesOk, FE.FinalLast, IdentityOk, PostsOk, DeliveryOk, CancelsOk, CallsOk,
      Compatible;
    assert CRowOk(o, y.client.db.ops[o], y.client.db.flows);
  }

  lemma IngestSettles(y: System, cfg: Config, t: Snapshot, seqno: Option<nat>, now: int)
    requires SysInv(y, cfg)
    requires var ops := y.broker.db.ops; Key(cfg.device, t.op) in ops && Compatible(t, ops[Key(cfg.device, t.op)])
    ensures Settled(AcceptSnapshot(y.client.db, cfg.client, t, seqno, now).0.ops, t)
  {
    hide SysInv, AcceptSnapshot, Merge;
    Welcome(y, cfg, t, seqno, now);
    AcceptedRow(y.client.db, cfg.client, t, seqno, now);
    HonestRow(y, cfg, t.op);
    if Final(t.state) { MergeSettles(y.client.db.ops[t.op], cfg.client, t, now, y.broker.db.ops[Key(cfg.device, t.op)]); }
  }

  lemma SettledStable(a: map<nat, CRow>, b: map<nat, CRow>, e: Snapshot)
    requires Settled(a, e) && COpsEvolve(a, b)
    ensures Settled(b, e)
  {
    if Final(e.state) { assert CRowEvolves(a[e.op], b[e.op]); }
  }

  lemma AllSettledStable(cfg: Config, log: seq<Snapshot>, n: nat, a: map<nat, CRow>, b: map<nat, CRow>)
    requires n <= |log| && COpsEvolve(a, b) && forall i :: 0 <= i < n ==> Settled(a, log[i]) || Passable(cfg, i + 1, log[i])
    ensures forall i :: 0 <= i < n ==> Settled(b, log[i]) || Passable(cfg, i + 1, log[i])
  {
    hide Passable, COpsEvolve, Settled;
    forall i | 0 <= i < n ensures Settled(b, log[i]) || Passable(cfg, i + 1, log[i]) {
      if Settled(a, log[i]) { SettledStable(a, b, log[i]); }
    }
  }

  lemma RecoveryStable(log: seq<Snapshot>, r: Recovery, a: map<nat, CRow>, b: map<nat, CRow>)
    requires RecoveryOk(log, a, r) && COpsEvolve(a, b)
    ensures RecoveryOk(log, b, r)
  {
    if r.Fetching? {
      forall i | 0 <= i < r.resume ensures log[i].op in r.todo || Settled(b, log[i]) {
        if log[i].op !in r.todo { SettledStable(a, b, log[i]); }
      }
    }
  }

  // ---------------------------------------------------------------- the event reader

  ghost predicate ReaderOk(y: System, cfg: Config, c: Client) {
    CursorOk(cfg, LogOf(y, cfg), c) && RecoveryOk(LogOf(y, cfg), c.db.ops, c.recovery)
  }

  predicate MovesReader(s: CStep) {
    s.StreamEvent? || s.PassEvent? || s.Fetched? || s.Missing? || s.BeginRecovery? || s.FinishRecovery?
  }

  lemma CursorStable(cfg: Config, log: seq<Snapshot>, c: Client, c': Client)
    requires CursorOk(cfg, log, c) && COpsEvolve(c.db.ops, c'.db.ops) && c'.db.cursor == c.db.cursor
    requires c'.stream.None? || (c'.recovery.Idle? && (c'.stream == c.stream || c'.stream == Some(c.db.cursor)))
    ensures CursorOk(cfg, log, c')
  {
    hide Passable, Settled, COpsEvolve;
    AllSettledStable(cfg, log, c.db.cursor, c.db.ops, c'.db.ops);
  }

  lemma ReaderRests(y: System, cfg: Config, s: CStep)
    requires SysInv(y, cfg) && Allowed(y, cfg, OnClient(s)) && !MovesReader(s)
    requires COpsEvolve(y.client.db.ops, CNext(y.client, cfg.client, s).db.ops)
    ensures ReaderOk(y, cfg, CNext(y.client, cfg.client, s))
  {
    var c, c', log := y.client, CNext(y.client, cfg.client, s), LogOf(y, cfg);
    hide ClientInv, BI.BrokerInv, IdentityOk, AnswersOk, AbsencesOk, StoredOk, ReceiptsOk, COpsEvolve, Settled, Passable, HeardOk, SourcesOk, FE.FinalLast;
    ReaderFields(c, cfg.client, s);
    hide CNext, CEnabled;
    CursorStable(cfg, log, c, c');
    RecoveryStable(log, c.recovery, c.db.ops, c'.db.ops);
  }

  lemma ReaderFields(c: Client, cfg: ClientSettings, s: CStep)
    requires CEnabled(c, s) && !MovesReader(s)
    ensures var c' := CNext(c, cfg, s);
      && c'.db.cursor == c.db.cursor
      && (c'.stream == c.stream || c'.stream.None? || (s.OpenStream? && c'.stream == Some(c.db.cursor) && c.recovery.Idle?))
      && (c'.recovery == c.recovery || c'.recovery.Idle? || (s.Gap? && c'.recovery == Noticed(s.resume) && c.stream.None?))
      && (s.Gap? ==> c'.stream.None?)
  {
  }

  lemma StreamFields(c: Client, cfg: ClientSettings, s: CStep)
    requires CEnabled(c, s) && s.StreamEvent? && s.n > c.db.cursor && s.s.op in c.db.ops
    requires AcceptSnapshot(c.db, cfg, s.s, Some(s.n), s.now).1.Ok?
    ensures var c' := CNext(c, cfg, s);
      && c'.recovery == c.recovery && c'.stream == Some(s.n) && c'.db.cursor == s.n
      && c'.db == AcceptSnapshot(c.db, cfg, s.s, Some(s.n), s.now).0
  {
    AcceptedRow(c.db, cfg, s.s, Some(s.n), s.now);
    hide AcceptSnapshot;
  }

  lemma StreamMoves(y: System, cfg: Config, s: CStep)
    requires SysInv(y, cfg) && Allowed(y, cfg, OnClient(s)) && s.StreamEvent?
    requires COpsEvolve(y.client.db.ops, CNext(y.client, cfg.client, s).db.ops)
    ensures ReaderOk(y, cfg, CNext(y.client, cfg.client, s))
  {
    hide ClientInv, BI.BrokerInv, IdentityOk, AnswersOk, AbsencesOk, StoredOk, ReceiptsOk, COpsEvolve, Settled, Compatible,
      AcceptSnapshot, Passable, HeardOk, SourcesOk, FE.FinalLast, Whole;
    var c, c', log := y.client, CNext(y.client, cfg.client, s), LogOf(y, cfg);
    IncomingHonest(y, cfg, s);
    Welcome(y, cfg, s.s, Some(s.n), s.now);
    IngestSettles(y, cfg, s.s, Some(s.n), s.now);
    StreamFields(c, cfg.client, s);
    hide CNext;
    AllSettledStable(cfg, log, c.db.cursor, c.db.ops, c'.db.ops);
  }

  /** Passing an event moves only the stream; that it could be passed at this cursor makes it passable. */
  lemma PassMoves(y: System, cfg: Config, s: CStep)
    requires SysInv(y, cfg) && Allowed(y, cfg, OnClient(s)) && s.PassEvent?
    ensures ReaderOk(y, cfg, CNext(y.client, cfg.client, s))
  {
    hide ClientInv, BI.BrokerInv, IdentityOk, AnswersOk, AbsencesOk, StoredOk, ReceiptsOk, Settled, HeardOk, SourcesOk, FE.FinalLast,
      F.SilentlyPassed;
    F.PassedLater(s.n, cfg.text(LogOf(y, cfg)[s.n - 1]), y.client.db.cursor, s.n - 1);
  }

  lemma FetchMoves(y: System, cfg: Config, s: CStep)
    requires SysInv(y, cfg) && Allowed(y, cfg, OnClient(s)) && s.Fetched?
    requires COpsEvolve(y.client.db.ops, CNext(y.client, cfg.client, s).db.ops)
    ensures ReaderOk(y, cfg, CNext(y.client, cfg.client, s))
  {
    hide ClientInv, BI.BrokerInv, IdentityOk, AbsencesOk, StoredOk, ReceiptsOk, COpsEvolve, Compatible, AcceptSnapshot, SeesFinal, Settled, Passable, HeardOk, SourcesOk,
      FE.FinalLast;
    var c, c', log := y.client, CNext(y.client, cfg.client, s), LogOf(y, cfg);
    IncomingHonest(y, cfg, s);
    Welcome(y, cfg, s.s, None, s.now);
    IngestSettles(y, cfg, s.s, None, s.now);
    FetchFields(c, cfg.client, s);
    var a :| a in y.answers && a.s == s.s && a.at >= c.recovery.resume;
    assert SeesFinal(a, log);
    hide CNext, AnswersOk;
    CursorStable(cfg, log, c, c');
    FetchRecovers(log, c.recovery, c.db.ops, c'.db.ops, a);
  }

  lemma FetchRecovers(log: seq<Snapshot>, r: Recovery, a: map<nat, CRow>, b: map<nat, CRow>, answer: Answer)
    requires RecoveryOk(log, a, r) && r.Fetching? && COpsEvolve(a, b)
    requires SeesFinal(answer, log) && answer.at >= r.resume && Settled(b, answer.s)
    ensures RecoveryOk(log, b, Fetching(r.resume, r.todo - {answer.s.op}))
  {
    forall i | 0 <= i < r.resume ensures log[i].op in r.todo - {answer.s.op} || Settled(b, log[i]) {
      if log[i].op !in r.todo { SettledStable(a, b, log[i]); }
    }
  }

  lemma FetchFields(c: Client, cfg: ClientSettings, s: CStep)
    requires CEnabled(c, s) && s.Fetched? && AcceptSnapshot(c.db, cfg, s.s, None, s.now).1.Ok?
    ensures var c' := CNext(c, cfg, s);
      && c'.recovery == Fetching(c.recovery.resume, c.recovery.todo - {s.s.op}) && c'.stream == c.stream
      && c'.db == AcceptSnapshot(c.db, cfg, s.s, None, s.now).0 && c'.db.cursor == c.db.cursor
  {
  }

  /** An operation left out of recovery because it expired already holds its final outcome. */
  lemma ExpiredSettled(y: System, cfg: Config, i: nat)
    requires SysInv(y, cfg) && i < |LogOf(y, cfg)|
    ensures var e := LogOf(y, cfg)[i]; e.op in y.client.db.ops && (y.client.db.ops[e.op].expired ==> Settled(y.client.db.ops, e))
  {
    var e := LogOf(y, cfg)[i];
    LedgerOf(cfg.broker, y.broker);
    Entries(cfg.broker, y.broker.db, cfg.device, i);
    hide LedgerInv, BI.BrokerInv, AnswersOk, AbsencesOk, ReceiptsOk, CursorOk, RecoveryOk, HeardOk, SourcesOk, FE.FinalLast, CallsOk, PostsOk, DeliveryOk, CancelsOk;
    assert CRowOk(e.op, y.client.db.ops[e.op], y.client.db.flows);
  }

  lemma BeginMoves(y: System, cfg: Config, s: CStep)
    requires SysInv(y, cfg) && Allowed(y, cfg, OnClient(s)) && s.BeginRecovery?
    ensures ReaderOk(y, cfg, CNext(y.client, cfg.client, s))
  {
    var c', log := CNext(y.client, cfg.client, s), LogOf(y, cfg);
    hide ClientInv, BI.BrokerInv, IdentityOk, AnswersOk, AbsencesOk, StoredOk, ReceiptsOk, Settled, Passable, HeardOk, SourcesOk, FE.FinalLast;
    forall i | 0 <= i < c'.recovery.resume ensures log[i].op in c'.recovery.todo || Settled(c'.db.ops, log[i]) {
      hide *;
      ExpiredSettled(y, cfg, i);
    }
  }

  lemma MissingMoves(y: System, cfg: Config, s: CStep)
    requires SysInv(y, cfg) && Allowed(y, cfg, OnClient(s)) && (s.Missing? || s.FinishRecovery?)
    ensures ReaderOk(y, cfg, CNext(y.client, cfg.client, s))
  {
    hide ClientInv, BI.BrokerInv, IdentityOk, AnswersOk, StoredOk, ReceiptsOk, Settled, Passable, HeardOk, SourcesOk, FE.FinalLast;
  }

  // ---------------------------------------------------------------- where outcomes come from

  /** Held or stuck outcomes stay so, and an answer settles what it announces. */
  lemma HeardKeeps(a: map<nat, CRow>, b: map<nat, CRow>, heard: set<nat>, t: Snapshot, ok: bool)
    requires HeardOk(a, heard) && COpsEvolve(a, b) && (ok && Final(t.state) ==> Settled(b, t))
    ensures HeardOk(b, heard + Heard(t, ok))
  {
    forall o | o in heard + Heard(t, ok) ensures o in b && (IsFinal(b[o]) || Stuck(b[o].snapshot)) {
      if o in heard { assert CRowEvolves(a[o], b[o]); }
    }
  }

  lemma HeardStays(a: map<nat, CRow>, b: map<nat, CRow>, heard: set<nat>)
    requires HeardOk(a, heard) && COpsEvolve(a, b)
    ensures HeardOk(b, heard)
  {
    forall o | o in heard ensures o in b && (IsFinal(b[o]) || Stuck(b[o].snapshot)) { assert CRowEvolves(a[o], b[o]); }
  }

  predicate IsAnswer(s: CStep) {
    s.Ingest? || s.Fetched?
  }

  lemma HeardFields(c: Client, cfg: ClientSettings, s: CStep)
    requires CEnabled(c, s)
    ensures !IsAnswer(s) ==> CNext(c, cfg, s).heard == c.heard
    ensures IsAnswer(s) ==>
      var r := AcceptSnapshot(c.db, cfg, s.s, None, s.now);
      CNext(c, cfg, s).heard == c.heard + Heard(s.s, r.1.Ok?) && CNext(c, cfg, s).db == r.0
  {
    hide AcceptSnapshot, Restart, Prune, Create, FinishDelivery, ClaimDelivery, Consume, ReleaseInline, Heard;
  }

  lemma AnswersHeard(y: System, cfg: Config, s: CStep)
    requires SysInv(y, cfg) && Allowed(y, cfg, OnClient(s))
    requires COpsEvolve(y.client.db.ops, CNext(y.client, cfg.client, s).db.ops)
    ensures HeardOk(CNext(y.client, cfg.client, s).db.ops, CNext(y.client, cfg.client, s).heard)
  {
    var c, c' := y.client, CNext(y.client, cfg.client, s);
    hide ClientInv, BI.BrokerInv, IdentityOk, AnswersOk, AbsencesOk, StoredOk, ReceiptsOk, CursorOk, RecoveryOk, SourcesOk, FE.FinalLast,
      COpsEvolve, Settled, Compatible, AcceptSnapshot, HeardOk, CNext, CEnabled, Heard;
    HeardFields(c, cfg.client, s);
    if IsAnswer(s) {
      IncomingHonest(y, cfg, s);
      IngestSettles(y, cfg, s.s, None, s.now);
      HeardKeeps(c.db.ops, c'.db.ops, c.heard, s.s, AcceptSnapshot(c.db, cfg.client, s.s, None, s.now).1.Ok?);
    } else {
      HeardStays(c.db.ops, c'.db.ops, c.heard);
    }
  }

  /** A newly held final outcome is the snapshot that just came in: an accepted answer, or an event in one piece. */
  lemma SourcesKeep(y: System, cfg: Config, s: CStep)
    requires SysInv(y, cfg) && Allowed(y, cfg, OnClient(s))
    ensures SourcesOk(cfg, LogOf(y, cfg), CNext(y.client, cfg.client, s).db.ops, CNext(y.client, cfg.client, s).heard)
  {
    var c, c', log := y.client, CNext(y.client, cfg.client, s), LogOf(y, cfg);
    ClientData(c, cfg.client, s);
    HeardFields(c, cfg.client, s);
    if IsAnswer(s) {
      IncomingHonest(y, cfg, s);
      Welcome(y, cfg, s.s, None, s.now);
    }
    hide ClientInv, BI.BrokerInv, IdentityOk, AnswersOk, AbsencesOk, StoredOk, ReceiptsOk, CursorOk, RecoveryOk, HeardOk, FE.FinalLast,
      AcceptSnapshot, Whole, CNext, CEnabled, Compatible, ReceiptsFrom;
    forall o | o in c'.db.ops && IsFinal(c'.db.ops[o]) ensures Announced(cfg, log, o, c'.heard) {
      if o in c.db.ops && SameCore(c.db.ops[o].snapshot, c'.db.ops[o].snapshot) {
        assert Announced(cfg, log, o, c.heard);
      } else if s.StreamEvent? {
        assert log[s.n - 1].op == o && Final(log[s.n - 1].state) && Whole(cfg, log[s.n - 1]);
      }
    }
  }

  // ---------------------------------------------------------------- every step

  /** A snapshot the client may ingest is compatible with the broker's row. */
  lemma IncomingHonest(y: System, cfg: Config, s: CStep)
    requires SysInv(y, cfg) && Allowed(y, cfg, OnClient(s)) && Incoming(s).Some?
    ensures var t := Incoming(s).value; var ops := y.broker.db.ops;
      Key(cfg.device, t.op) in ops && Compatible(t, ops[Key(cfg.device, t.op)])
  {
    LedgerOf(cfg.broker, y.broker);
    if s.StreamEvent? { Entries(cfg.broker, y.broker.db, cfg.device, s.n - 1); }
    hide LedgerInv, ClientInv, BI.BrokerInv, IdentityOk, AbsencesOk, StoredOk, ReceiptsOk, CursorOk, RecoveryOk, HeardOk, SourcesOk, FE.FinalLast, Compatible, SeesFinal;
  }

  lemma ReaderKeeps(y: System, cfg: Config, s: CStep)
    requires SysInv(y, cfg) && Allowed(y, cfg, OnClient(s))
    requires COpsEvolve(y.client.db.ops, CNext(y.client, cfg.client, s).db.ops)
    ensures ReaderOk(y, cfg, CNext(y.client, cfg.client, s))
  {
    hide SysInv, CNext, CEnabled, Allowed, ReaderOk, COpsEvolve;
    match s
    case StreamEvent(_, _, _) => StreamMoves(y, cfg, s);
    case PassEvent(_) => PassMoves(y, cfg, s);
    case Fetched(_, _) => FetchMoves(y, cfg, s);
    case BeginRecovery => BeginMoves(y, cfg, s);
    case Missing(_) => MissingMoves(y, cfg, s);
    case FinishRecovery => MissingMoves(y, cfg, s);
    case _ => ReaderRests(y, cfg, s);
  }

  lemma OnClientKeeps(cfg: Config, y: System, s: CStep)
    requires SysInv(y, cfg) && Allowed(y, cfg, OnClient(s))
    ensures SysInv(After(y, cfg, OnClient(s)), cfg)
  {
    var c, c' := y.client, CNext(y.client, cfg.client, s);
    EveryClientStep(c, cfg.client, s);
    ReaderKeeps(y, cfg, s);
    AnswersHeard(y, cfg, s);
    SourcesKeep(y, cfg, s);
    ClientData(c, cfg.client, s);
    if Incoming(s).Some? { IncomingHonest(y, cfg, s); }
    hide CNext, CEnabled, BI.BrokerInv, ClientInv, DataFrom, Compatible, IdentityOk, AnswersOk, AbsencesOk, StoredOk, ReceiptsOk,
      CursorOk, RecoveryOk, HeardOk, SourcesOk, FE.FinalLast, COpsEvolve;
    IdentityClient(cfg.device, y.broker.db.ops, c.db.ops, c'.db.ops);
    DataTied(cfg.device, y.broker.db.ops, c, c', Incoming(s));
  }

  lemma AllowedEnabled(cfg: Config, y: System, s: SysStep)
    requires Allowed(y, cfg, s)
    ensures (s.OnBroker? ==> B.Enabled(y.broker, cfg.broker, s.b)) && (s.OnClient? ==> CEnabled(y.client, s.c))
  {
    hide B.Enabled, CEnabled;
  }

  lemma EverySystemStep(cfg: Config, y: System, s: SysStep)
    requires SysInv(y, cfg) && Allowed(y, cfg, s)
    ensures SysInv(After(y, cfg, s), cfg)
  {
    hide SysInv, Allowed, After, B.Enabled, CEnabled;
    match s
    case OnBroker(b) => OnBrokerKeeps(cfg, y, b);
    case OnClient(c) => OnClientKeeps(cfg, y, c);
  }

  lemma StartOk(cfg: Config)
    ensures SysInv(START, cfg)
  {
    BS.InitialOk(cfg.broker);
    hide BI.BrokerInv;
  }

  lemma {:induction false} HistoryKeeps(cfg: Config, y: System, run: seq<SysStep>)
    requires SysInv(y, cfg) && ValidHistory(y, cfg, run)
    ensures SysInv(Reached(y, cfg, run), cfg)
    decreases |run|
  {
    hide SysInv, Allowed, After, B.Enabled, CEnabled;
    if run != [] {
      AllowedEnabled(cfg, y, run[0]);
      EverySystemStep(cfg, y, run[0]);
      HistoryKeeps(cfg, After(y, cfg, run[0]), run[1..]);
    }
  }
}
