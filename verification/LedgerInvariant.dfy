/** What every broker transaction keeps, and how a row may change. */
module LedgerInvariant {
  import opened Common
  import opened Ledger

  // ---------------------------------------------------------------- the invariant

  predicate RowOk(k: Key, row: Row) {
    && row.digest.op == k.op
    && row.digest.flow == row.flow
    && (row.resultId.Some? <==> Terminal(row.state))
    && (row.result.Some? ==> row.resultExpires.Some?)
    && (row.resultExpires.Some? ==> Terminal(row.state))
    && (row.handle.Some? ==> ValidHandle(row.handle.value) && !row.state.Accepted?)
    && (row.cancelRequested ==> !row.state.Accepted?)
    && (row.cancelClaimed ==> row.cancelRequested && row.handle.Some?)
  }

  predicate RowsOk(ops: map<Key, Row>) {
    forall k :: k in ops ==> RowOk(k, ops[k])
  }

  function OutboxFor(s: OpState): OutboxState {
    if s.Accepted? then Pending else if s.Running? then Claimed else Done
  }

  predicate OutboxOk(ops: map<Key, Row>, outbox: map<Key, OutboxState>) {
    outbox.Keys == ops.Keys && forall k :: k in ops ==> outbox[k] == OutboxFor(ops[k].state)
  }

  predicate PayloadsOk(ops: map<Key, Row>, payloads: map<Key, Payload>) {
    forall k :: k in payloads ==>
      k in ops && !Terminal(ops[k].state) && payloads[k].request == ops[k].digest
  }

  /** The retained events are exactly the numbers in (floor, sequence], and repeat the history. */
  ghost predicate DeviceOk(dev: Device, log: seq<Snapshot>) {
    && |log| == dev.sequence
    && dev.floor <= dev.sequence
    && (forall n :: n in dev.events <==> dev.floor < n <= dev.sequence)
    && (forall n :: n in dev.events ==> dev.events[n].snapshot == log[n - 1])
  }

  ghost predicate DevicesOk(devices: map<string, Device>, log: map<string, seq<Snapshot>>) {
    forall d {:trigger Dev(devices, d)} {:trigger Log(log, d)} :: DeviceOk(Dev(devices, d), Log(log, d))
  }

  /** The newest snapshot of each operation: what a reader of the whole log ends up with. */
  function Fold(log: seq<Snapshot>): map<nat, Snapshot> {
    if log == [] then map[]
    else Fold(log[..|log| - 1])[log[|log| - 1].op := log[|log| - 1]]
  }

  function Identity(s: Snapshot): Snapshot {
    s.(result := None, error := None)
  }

  /** `e` is the snapshot of `row`, up to the expiry of its result. */
  predicate Agrees(e: Snapshot, op: nat, row: Row) {
    && Identity(e) == Identity(View(op, row, false))
    && (row.resultExpires.None? ==> e == View(op, row, false))
    && (row.result.Some? ==> e == View(op, row, false) || e == View(op, row, true))
  }

  predicate FoldAgrees(ops: map<Key, Row>, log: map<string, seq<Snapshot>>) {
    forall k :: k in ops ==>
      var latest := Fold(Log(log, k.device)); k.op in latest && Agrees(latest[k.op], k.op, ops[k])
  }

  /** A snapshot produced earlier is consistent with the row as it is now. */
  predicate Compatible(s: Snapshot, row: Row) {
    && s.flow == row.flow
    && (Terminal(s.state) ==> s.resultId.Some?)
    && (s.resultId.Some? ==> row.resultId == s.resultId)
    && (s.handle.Some? ==> row.handle == s.handle)
    && (Final(s.state) ==> row.state == s.state && row.handle == s.handle)
    && (s.state.OutcomeUnknown? && Final(row.state) ==> row.handle.Some?)
    && Rank(s.state) <= Rank(row.state)
  }

  ghost predicate HistoryOk(ops: map<Key, Row>, log: map<string, seq<Snapshot>>) {
    forall d, i {:trigger Log(log, d)[i]} :: 0 <= i < |Log(log, d)| ==>
      var s := Log(log, d)[i]; Key(d, s.op) in ops && Compatible(s, ops[Key(d, s.op)])
  }

  predicate FlowsOk(ops: map<Key, Row>) {
    forall a, b ::
      (a in ops && b in ops && a.device == b.device && ops[a].flow == ops[b].flow
       && Holding(ops[a].state) && Holding(ops[b].state)) ==> a == b
  }

  ghost predicate PendingOk(ops: map<Key, Row>, cfg: Settings) {
    forall d {:trigger ActiveKeys(ops, d)} :: |ActiveKeys(ops, d)| <= cfg.maxPending
  }

  ghost predicate QuotaOk(artifacts: seq<Artifact>, cfg: Settings) {
    forall d {:trigger StoredBytes(artifacts, d)} :: StoredBytes(artifacts, d) <= cfg.deviceQuota
  }

  predicate Tables(ops: map<Key, Row>, outbox: map<Key, OutboxState>, payloads: map<Key, Payload>) {
    RowsOk(ops) && OutboxOk(ops, outbox) && PayloadsOk(ops, payloads) && FlowsOk(ops)
  }

  ghost predicate LedgerInv(cfg: Settings, db: Ledger) {
    && Tables(db.ops, db.outbox, db.payloads)
    && DevicesOk(db.devices, db.log) && FoldAgrees(db.ops, db.log) && HistoryOk(db.ops, db.log)
    && PendingOk(db.ops, cfg) && QuotaOk(db.artifacts, cfg)
  }

  // ---------------------------------------------------------------- how a row may change

  function Rank(s: OpState): nat {
    if s.Accepted? then 0 else if s.Running? then 1 else if s.OutcomeUnknown? then 2 else 3
  }

  /** Identity is fixed, result id and handle are written once, the state only moves forward, a final
      row is frozen but for its expiring result, and an unknown outcome is resolved by handle only. */
  predicate RowEvolves(a: Row, b: Row) {
    && a.flow == b.flow && a.digest == b.digest && a.created == b.created
    && (a.resultId.Some? ==> b.resultId == a.resultId)
    && (a.handle.Some? ==> b.handle == a.handle)
    && (a.cancelRequested ==> b.cancelRequested) && (a.cancelClaimed ==> b.cancelClaimed)
    && Rank(a.state) <= Rank(b.state)
    && (Final(a.state) ==>
          && b.state == a.state && b.resultId == a.resultId && b.error == a.error && b.handle == a.handle
          && b.resultExpires == a.resultExpires && b.updated == a.updated && (b.result == a.result || b.result.None?))
    && (a.state.OutcomeUnknown? && Final(b.state) ==> b.handle.Some?)
  }

  predicate OpsEvolve(a: map<Key, Row>, b: map<Key, Row>) {
    forall k :: k in a ==> k in b && RowEvolves(a[k], b[k])
  }

  ghost predicate LogsGrow(a: map<string, seq<Snapshot>>, b: map<string, seq<Snapshot>>) {
    forall d {:trigger Log(a, d)} {:trigger Log(b, d)} :: Log(a, d) <= Log(b, d)
  }

  ghost predicate FloorsRise(a: map<string, Device>, b: map<string, Device>) {
    forall d {:trigger Dev(a, d)} {:trigger Dev(b, d)} :: Dev(a, d).floor <= Dev(b, d).floor
  }

  ghost predicate LedgerEvolves(a: Ledger, b: Ledger) {
    OpsEvolve(a.ops, b.ops) && LogsGrow(a.log, b.log) && FloorsRise(a.devices, b.devices)
  }

  lemma RowEvolvesRefl(a: Row)
    ensures RowEvolves(a, a)
  {
  }

  lemma EvolvesTrans(a: Ledger, b: Ledger, c: Ledger)
    requires LedgerEvolves(a, b) && LedgerEvolves(b, c)
    ensures LedgerEvolves(a, c)
  {
    forall d ensures Log(a.log, d) <= Log(c.log, d) && Dev(a.devices, d).floor <= Dev(c.devices, d).floor {
      assert Log(a.log, d) <= Log(b.log, d) && Log(b.log, d) <= Log(c.log, d);
      assert Dev(a.devices, d).floor <= Dev(b.devices, d).floor;
    }
  }

  // ---------------------------------------------------------------- publishing

  /** The row written at `k`, with its outbox and payload, fits the ledger. */
  predicate Fits(db: Ledger, cfg: Settings, k: Key, row: Row, payloads: map<Key, Payload>, outbox: map<Key, OutboxState>) {
    && RowOk(k, row)
    && (k in db.ops ==> RowEvolves(db.ops[k], row) && (Active(row.state) ==> Active(db.ops[k].state)))
    && (k !in db.ops ==> row.state.Accepted? && |ActiveKeys(db.ops, k.device)| < cfg.maxPending)
    && (Holding(row.state) ==>
          forall a :: a in db.ops && a.device == k.device && db.ops[a].flow == row.flow && Holding(db.ops[a].state) ==> a == k)
    && outbox == db.outbox[k := OutboxFor(row.state)]
    && (k in payloads ==> !Terminal(row.state) && payloads[k].request == row.digest)
    && (forall j :: j in payloads && j != k ==> j in db.payloads && payloads[j] == db.payloads[j])
  }

  lemma FoldAppend(log: seq<Snapshot>, s: Snapshot)
    ensures Fold(log + [s]) == Fold(log)[s.op := s]
  {
    assert (log + [s])[..|log + [s]| - 1] == log;
  }

  lemma PublishDevices(db: Ledger, cfg: Settings, k: Key, row: Row, now: int)
    requires DevicesOk(db.devices, db.log)
    ensures var db' := Publish(db, cfg, k, row, now);
      && DevicesOk(db'.devices, db'.log)
      && (forall d {:trigger Log(db'.log, d)} :: Log(db.log, d) <= Log(db'.log, d))
      && (forall d {:trigger Dev(db'.devices, d)} :: Dev(db.devices, d).floor == Dev(db'.devices, d).floor)
  {
    var db' := Publish(db, cfg, k, row, now);
    forall d ensures DeviceOk(Dev(db'.devices, d), Log(db'.log, d)) && Log(db.log, d) <= Log(db'.log, d) {
      assert DeviceOk(Dev(db.devices, d), Log(db.log, d));
    }
  }

  lemma ViewAgrees(op: nat, row: Row, now: int)
    requires row.result.Some? ==> row.resultExpires.Some?
    ensures Agrees(SnapshotOf(op, row, now), op, row)
    ensures RowOk(Key("", op), row) ==> Compatible(SnapshotOf(op, row, now), row)
  {
  }

  /** A row still compatible with an earlier snapshot stays so as it evolves. */
  lemma CompatibleEvolves(s: Snapshot, a: Row, b: Row)
    requires Compatible(s, a) && RowEvolves(a, b)
    ensures Compatible(s, b)
  {
  }

  lemma PublishFold(ops: map<Key, Row>, log: map<string, seq<Snapshot>>, k: Key, row: Row, now: int)
    requires FoldAgrees(ops, log) && RowOk(k, row)
    ensures FoldAgrees(ops[k := row], log[k.device := Log(log, k.device) + [SnapshotOf(k.op, row, now)]])
  {
    var s := SnapshotOf(k.op, row, now);
    var ops', log' := ops[k := row], log[k.device := Log(log, k.device) + [s]];
    ViewAgrees(k.op, row, now);
    FoldAppend(Log(log, k.device), s);
    forall j | j in ops'
      ensures var latest := Fold(Log(log', j.device)); j.op in latest && Agrees(latest[j.op], j.op, ops'[j])
    {
      if j != k { assert j in ops && (j.device == k.device ==> j.op != k.op); }
    }
  }

  lemma PublishHistory(ops: map<Key, Row>, log: map<string, seq<Snapshot>>, k: Key, row: Row, now: int)
    requires HistoryOk(ops, log) && RowOk(k, row) && (k in ops ==> RowEvolves(ops[k], row))
    ensures HistoryOk(ops[k := row], log[k.device := Log(log, k.device) + [SnapshotOf(k.op, row, now)]])
  {
    var s := SnapshotOf(k.op, row, now);
    var ops', log' := ops[k := row], log[k.device := Log(log, k.device) + [s]];
    ViewAgrees(k.op, row, now);
    forall d, i | 0 <= i < |Log(log', d)|
      ensures var e := Log(log', d)[i]; Key(d, e.op) in ops' && Compatible(e, ops'[Key(d, e.op)])
    {
      var e := Log(log', d)[i];
      if i < |Log(log, d)| {
        assert e == Log(log, d)[i];
        if Key(d, e.op) == k { CompatibleEvolves(e, ops[k], row); }
      }
    }
  }

  lemma PublishCounts(ops: map<Key, Row>, cfg: Settings, k: Key, row: Row)
    requires PendingOk(ops, cfg)
    requires k in ops ==> (Active(row.state) ==> Active(ops[k].state))
    requires k !in ops ==> |ActiveKeys(ops, k.device)| < cfg.maxPending
    ensures PendingOk(ops[k := row], cfg)
  {
    var ops' := ops[k := row];
    forall d ensures |ActiveKeys(ops', d)| <= cfg.maxPending {
      var was, cur := ActiveKeys(ops, d), ActiveKeys(ops', d);
      assert |was| <= cfg.maxPending;
      if d != k.device || k in ops {
        SubsetSize(cur, was);
      } else {
        SubsetSize(cur, was + {k});
      }
    }
  }

  lemma SubsetSize<T>(a: set<T>, b: set<T>)
    requires a <= b
    ensures |a| <= |b|
  {
    assert b == a + (b - a);
  }

  lemma PublishFlows(ops: map<Key, Row>, k: Key, row: Row)
    requires FlowsOk(ops)
    requires Holding(row.state) ==>
      forall a :: a in ops && a.device == k.device && ops[a].flow == row.flow && Holding(ops[a].state) ==> a == k
    ensures FlowsOk(ops[k := row])
  {
  }

  lemma PublishTables(db: Ledger, cfg: Settings, k: Key, row: Row, payloads: map<Key, Payload>, outbox: map<Key, OutboxState>)
    requires Fits(db, cfg, k, row, payloads, outbox) && Tables(db.ops, db.outbox, db.payloads)
    ensures Tables(db.ops[k := row], outbox, payloads) && OpsEvolve(db.ops, db.ops[k := row])
  {
    PublishFlows(db.ops, k, row);
    PublishEvolves(db.ops, k, row);
    PublishOutbox(db.ops, db.outbox, k, row);
    PublishPayloads(db.ops, db.payloads, k, row, payloads);
    hide FlowsOk, OpsEvolve, OutboxOk, PayloadsOk, RowEvolves, RowOk;
  }

  lemma PublishOutbox(ops: map<Key, Row>, outbox: map<Key, OutboxState>, k: Key, row: Row)
    requires OutboxOk(ops, outbox)
    ensures OutboxOk(ops[k := row], outbox[k := OutboxFor(row.state)])
  {
    assert (outbox[k := OutboxFor(row.state)]).Keys == outbox.Keys + {k};
    assert (ops[k := row]).Keys == ops.Keys + {k};
  }

  lemma PublishPayloads(ops: map<Key, Row>, was: map<Key, Payload>, k: Key, row: Row, payloads: map<Key, Payload>)
    requires PayloadsOk(ops, was)
    requires k in payloads ==> !Terminal(row.state) && payloads[k].request == row.digest
    requires forall j :: j in payloads && j != k ==> j in was && payloads[j] == was[j]
    ensures PayloadsOk(ops[k := row], payloads)
  {
  }

  lemma PublishEvolves(ops: map<Key, Row>, k: Key, row: Row)
    requires k in ops ==> RowEvolves(ops[k], row)
    ensures OpsEvolve(ops, ops[k := row])
  {
    forall j | j in ops ensures RowEvolves(ops[j], ops[k := row][j]) {
      RowEvolvesRefl(ops[j]);
    }
  }

  lemma PublishKeeps(db: Ledger, cfg: Settings, k: Key, row: Row, now: int,
                     payloads: map<Key, Payload>, outbox: map<Key, OutboxState>)
    requires LedgerInv(cfg, db) && Fits(db, cfg, k, row, payloads, outbox)
    ensures var db' := Publish(db.(payloads := payloads, outbox := outbox), cfg, k, row, now);
      LedgerInv(cfg, db') && LedgerEvolves(db, db')
  {
    PublishDevices(db.(payloads := payloads, outbox := outbox), cfg, k, row, now);
    PublishTables(db, cfg, k, row, payloads, outbox);
    PublishFold(db.ops, db.log, k, row, now);
    PublishHistory(db.ops, db.log, k, row, now);
    PublishCounts(db.ops, cfg, k, row);
  }

  /** The same for an operation already in the ledger; `keep` says whether its payload stays. */
  lemma UpdateKeeps(db: Ledger, cfg: Settings, k: Key, row: Row, now: int, keep: bool)
    requires LedgerInv(cfg, db) && k in db.ops
    requires RowOk(k, row) && RowEvolves(db.ops[k], row) && (Active(row.state) ==> Active(db.ops[k].state))
    requires Holding(row.state) ==> Holding(db.ops[k].state) || Candidate(db, k)
    requires keep ==> !Terminal(row.state) || k !in db.payloads
    ensures var outbox := db.outbox[k := OutboxFor(row.state)];
      var db1 := db.(payloads := if keep then db.payloads else db.payloads - {k}, outbox := outbox);
      var db' := Publish(db1, cfg, k, row, now);
      LedgerInv(cfg, db') && LedgerEvolves(db, db')
  {
    var outbox := db.outbox[k := OutboxFor(row.state)];
    var payloads := if keep then db.payloads else db.payloads - {k};
    UpdateFits(db, cfg, k, row, keep);
    hide LedgerInv, LedgerEvolves, Fits;
    PublishKeeps(db, cfg, k, row, now, payloads, outbox);
  }

  lemma UpdateFits(db: Ledger, cfg: Settings, k: Key, row: Row, keep: bool)
    requires Tables(db.ops, db.outbox, db.payloads) && k in db.ops
    requires RowOk(k, row) && RowEvolves(db.ops[k], row) && (Active(row.state) ==> Active(db.ops[k].state))
    requires Holding(row.state) ==> Holding(db.ops[k].state) || Candidate(db, k)
    requires keep ==> !Terminal(row.state) || k !in db.payloads
    ensures Fits(db, cfg, k, row, if keep then db.payloads else db.payloads - {k}, db.outbox[k := OutboxFor(row.state)])
  {
  }

  lemma RowFacts(db: Ledger, cfg: Settings, k: Key)
    requires LedgerInv(cfg, db) && k in db.ops
    ensures RowOk(k, db.ops[k]) && k in db.outbox && db.outbox[k] == OutboxFor(db.ops[k].state)
    ensures k in db.payloads ==> !Terminal(db.ops[k].state) && db.payloads[k].request == db.ops[k].digest
  {
    hide DevicesOk, FoldAgrees, HistoryOk, PendingOk, QuotaOk;
  }

  // ---------------------------------------------------------------- quiet changes

  /** Bookkeeping that publishes nothing: polling marks, a claimed cancel, an erased expired result. */
  predicate Quiet(a: Row, b: Row) {
    && b == a.(polled := b.polled, cancelClaimed := b.cancelClaimed, result := b.result)
    && (b.result == a.result || (b.result.None? && a.resultExpires.Some?))
    && (a.cancelClaimed ==> b.cancelClaimed)
    && (b.cancelClaimed ==> b.cancelRequested && b.handle.Some?)
  }

  predicate QuietOps(a: map<Key, Row>, b: map<Key, Row>) {
    a.Keys == b.Keys && forall k :: k in a ==> Quiet(a[k], b[k])
  }

  lemma QuietRow(e: Snapshot, k: Key, a: Row, b: Row)
    requires Quiet(a, b) && RowOk(k, a)
    ensures RowOk(k, b) && RowEvolves(a, b)
    ensures Agrees(e, k.op, a) ==> Agrees(e, k.op, b)
  {
  }

  lemma QuietLog(ops: map<Key, Row>, ops': map<Key, Row>, log: map<string, seq<Snapshot>>)
    requires RowsOk(ops) && FoldAgrees(ops, log) && HistoryOk(ops, log) && QuietOps(ops, ops')
    ensures FoldAgrees(ops', log) && HistoryOk(ops', log)
  {
    forall k | k in ops'
      ensures var latest := Fold(Log(log, k.device)); k.op in latest && Agrees(latest[k.op], k.op, ops'[k])
    {
      QuietRow(Fold(Log(log, k.device))[k.op], k, ops[k], ops'[k]);
    }
    forall d, i | 0 <= i < |Log(log, d)|
      ensures var e := Log(log, d)[i]; Key(d, e.op) in ops' && Compatible(e, ops'[Key(d, e.op)])
    {
      var e := Log(log, d)[i];
      var k := Key(d, e.op);
      QuietRow(e, k, ops[k], ops'[k]);
      CompatibleEvolves(e, ops[k], ops'[k]);
    }
  }

  lemma QuietTables(db: Ledger, ops: map<Key, Row>)
    requires Tables(db.ops, db.outbox, db.payloads) && QuietOps(db.ops, ops)
    ensures Tables(ops, db.outbox, db.payloads) && OpsEvolve(db.ops, ops)
    ensures forall d :: ActiveKeys(ops, d) == ActiveKeys(db.ops, d)
  {
    hide RowOk, RowEvolves;
    forall k | k in ops ensures RowOk(k, ops[k]) && RowEvolves(db.ops[k], ops[k]) {
      QuietRow(SnapshotOf(k.op, ops[k], 0), k, db.ops[k], ops[k]);
    }
  }

  lemma QuietKeeps(db: Ledger, cfg: Settings, ops: map<Key, Row>)
    requires LedgerInv(cfg, db) && QuietOps(db.ops, ops)
    ensures LedgerInv(cfg, db.(ops := ops)) && LedgerEvolves(db, db.(ops := ops))
  {
    QuietTables(db, ops);
    QuietLog(db.ops, ops, db.log);
  }

  // ---------------------------------------------------------------- retention

  lemma PurgeDeviceKeeps(dev: Device, log: seq<Snapshot>, now: int)
    requires DeviceOk(dev, log)
    ensures DeviceOk(PurgeDevice(dev, now), log)
    ensures dev.floor <= PurgeDevice(dev, now).floor
  {
  }

  lemma StoredBytesAppend(artifacts: seq<Artifact>, row: Artifact, d: string)
    ensures StoredBytes(artifacts + [row], d) == StoredBytes(artifacts, d) + (if row.device == d then |row.content| else 0)
  {
    assert (artifacts + [row])[..|artifacts|] == artifacts;
  }

  lemma {:induction false} DropExpiredSum(artifacts: seq<Artifact>, only: Option<string>, now: int, d: string)
    ensures StoredBytes(DropExpired(artifacts, only, now), d) <= StoredBytes(artifacts, d)
  {
    if artifacts != [] {
      var rest, last := artifacts[..|artifacts| - 1], artifacts[|artifacts| - 1];
      DropExpiredSum(rest, only, now, d);
      var kept := DropExpired(rest, only, now);
      StoredBytesAppend(kept, last, d);
      assert kept + [] == kept;
      assert DropExpired(artifacts, only, now) == kept || DropExpired(artifacts, only, now) == kept + [last];
    }
  }

  lemma QuotaKept(artifacts: seq<Artifact>, cfg: Settings, only: Option<string>, now: int)
    requires QuotaOk(artifacts, cfg)
    ensures QuotaOk(DropExpired(artifacts, only, now), cfg)
  {
    forall d ensures StoredBytes(DropExpired(artifacts, only, now), d) <= cfg.deviceQuota {
      DropExpiredSum(artifacts, only, now, d);
    }
  }

  /** Replacing device rows by rows with the same numbers and no lower floor keeps everything. */
  lemma DevicesKeep(db: Ledger, cfg: Settings, devices: map<string, Device>)
    requires LedgerInv(cfg, db) && DevicesOk(devices, db.log)
    requires forall d {:trigger Dev(devices, d)} :: Dev(db.devices, d).floor <= Dev(devices, d).floor
    ensures LedgerInv(cfg, db.(devices := devices)) && LedgerEvolves(db, db.(devices := devices))
  {
    forall k | k in db.ops ensures RowEvolves(db.ops[k], db.ops[k]) {
      RowEvolvesRefl(db.ops[k]);
    }
  }

  lemma TouchKeeps(db: Ledger, cfg: Settings, d: string)
    requires LedgerInv(cfg, db)
    ensures LedgerInv(cfg, Touch(db, d)) && LedgerEvolves(db, Touch(db, d))
  {
    var devices := db.devices[d := Dev(db.devices, d)];
    assert forall e {:trigger Dev(devices, e)} :: Dev(devices, e) == Dev(db.devices, e);
    DevicesKeep(db, cfg, devices);
  }
}
