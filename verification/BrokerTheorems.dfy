/** What holds over every run of the broker, from an empty ledger, with crashes and restarts anywhere. */
module BrokerTheorems {
  import opened Common
  import opened Ledger
  import opened LedgerInvariant
  import opened LedgerSteps
  import opened Broker
  import opened BrokerInvariant
  import opened BrokerSteps

  lemma {:induction false} RunKeeps(cfg: Settings, b: Broker, run: seq<Step>)
    requires BrokerInv(cfg, b) && ValidRun(b, cfg, run)
    ensures BrokerInv(cfg, Exec(b, cfg, run)) && LedgerEvolves(b.db, Exec(b, cfg, run).db)
    decreases |run|
  {
    hide BrokerInv, LedgerEvolves, Enabled, Next;
    if run == [] {
      SameLedger(cfg, b);
    } else {
      var b1 := Next(b, cfg, run[0]);
      EveryStep(cfg, b, run[0]);
      RunKeeps(cfg, b1, run[1..]);
      EvolvesTrans(b.db, b1.db, Exec(b, cfg, run).db);
    }
  }

  lemma SameLedger(cfg: Settings, b: Broker)
    requires BrokerInv(cfg, b)
    ensures LedgerEvolves(b.db, b.db)
  {
    hide LedgerInv, LedgerEvolves;
    SameKeeps(cfg, b.db);
  }

  lemma Reachable(cfg: Settings, run: seq<Step>)
    requires ValidRun(INITIAL, cfg, run)
    ensures BrokerInv(cfg, Exec(INITIAL, cfg, run))
  {
    hide BrokerInv, LedgerEvolves, Enabled, Next;
    InitialOk(cfg);
    RunKeeps(cfg, INITIAL, run);
  }

  // ---------------------------------------------------------------- at most once

  /** No operation is ever claimed, submitted to the peer or canceled at the peer twice, whatever crashes. */
  lemma AtMostOnce(cfg: Settings, run: seq<Step>)
    requires ValidRun(INITIAL, cfg, run)
    ensures var b := Exec(INITIAL, cfg, run);
      && Distinct(b.claims) && Distinct(b.submissions) && Distinct(b.peerCancels)
      && (forall k :: k in b.submissions ==> k in b.claims)
      && (forall k :: k in b.claims ==> k in b.db.ops && !b.db.ops[k].state.Accepted?)
  {
    hide LedgerInv, Enabled, Next, Distinct;
    Reachable(cfg, run);
  }

  /** The job tables stay bounded and disjoint, and inserting a job never overwrites a live one. */
  lemma JobTables(cfg: Settings, run: seq<Step>, s: Step)
    requires ValidRun(INITIAL, cfg, run) && Enabled(Exec(INITIAL, cfg, run), cfg, s)
    ensures var b := Exec(INITIAL, cfg, run);
      && |b.streams| <= cfg.maxStreams && |b.probes| <= cfg.maxStreams && |b.cancels| <= cfg.maxStreams
      && b.streams.Keys !! b.probes.Keys
      && (s.TakeCancel? ==> s.k !in b.cancels)
      && (s.TakeClaim? ==> s.k !in b.streams && s.k !in b.probes)
      && (s.TakeReads? ==> forall k :: k in b.probes ==> k in Next(b, cfg, s).probes && Next(b, cfg, s).probes[k] == b.probes[k])
  {
    Reachable(cfg, run);
    hide BrokerInv, Exec, ValidRun, Enabled, Next;
    TableFacts(cfg, Exec(INITIAL, cfg, run), s);
  }

  lemma TableFacts(cfg: Settings, b: Broker, s: Step)
    requires BrokerInv(cfg, b) && Enabled(b, cfg, s)
    ensures CapacityOk(b.streams, b.probes, b.cancels, b.up, cfg)
    ensures (s.TakeCancel? ==> s.k !in b.cancels)
            && (s.TakeClaim? ==> s.k !in b.streams && s.k !in b.probes)
            && (s.TakeReads? ==> forall k :: k in b.probes ==>
                  k in Next(b, cfg, s).probes && Next(b, cfg, s).probes[k] == b.probes[k])
  {
    hide LedgerInv, LedgerEvolves, ClaimsOk, SubmissionsOk, PeerCancelsOk, CompletedOk, StepKeeps, ListsRunning, JobOk, StartReads, Poll;
    if s.TakeCancel? { TakeCancelKeeps(cfg, b, s.k); }
    if s.TakeClaim? { NotYetClaimed(cfg, b, s.k); }
    if s.TakeReads? { StartReadsOk(b, cfg, s.keys); }
  }

  // ---------------------------------------------------------------- flows

  /** At most one operation of a (device, flow) is running or unknown. */
  lemma FlowSerialized(cfg: Settings, run: seq<Step>, x: Key, y: Key)
    requires ValidRun(INITIAL, cfg, run)
    requires var ops := Exec(INITIAL, cfg, run).db.ops;
      && x in ops && y in ops && x.device == y.device && ops[x].flow == ops[y].flow
      && Holding(ops[x].state) && Holding(ops[y].state)
    ensures x == y
  {
    Reachable(cfg, run);
    hide Enabled, Next, Exec, ValidRun, DevicesOk, FoldAgrees, HistoryOk, PendingOk, QuotaOk, RowsOk, OutboxOk, PayloadsOk;
  }

  function Waiting(ops: map<Key, Row>): set<Key> {
    set k | k in ops && ops[k].state.Accepted?
  }

  predicate Held(ops: map<Key, Row>, k: Key) {
    k in ops && exists a :: a in ops && a.device == k.device && ops[a].flow == ops[k].flow && Holding(ops[a].state)
  }

  /** A candidate is a waiting operation whose flow is free. */
  lemma CandidateIsFree(cfg: Settings, db: Ledger, k: Key)
    requires LedgerInv(cfg, db)
    ensures Candidate(db, k) <==> k in Waiting(db.ops) && !Held(db.ops, k)
  {
    hide DevicesOk, FoldAgrees, HistoryOk, PendingOk, QuotaOk, RowsOk, PayloadsOk, FlowsOk;
  }

  /** In every reachable state `claim` finds nothing if and only if every waiting operation is held back by an active
      one of its own flow; and whatever it takes is waiting with a free flow. */
  lemma WorkConserving(cfg: Settings, run: seq<Step>)
    requires ValidRun(INITIAL, cfg, run)
    ensures var db := Exec(INITIAL, cfg, run).db;
      (forall k :: k in db.ops ==> !Candidate(db, k)) <==> (forall k :: k in Waiting(db.ops) ==> Held(db.ops, k))
    ensures var db := Exec(INITIAL, cfg, run).db;
      forall k :: k in db.ops && FirstCandidate(db, k) ==> k in Waiting(db.ops) && !Held(db.ops, k)
  {
    var b := Exec(INITIAL, cfg, run);
    Reachable(cfg, run);
    KnownRows(cfg, b);
    hide Exec, ValidRun, BrokerInv, LedgerInv, Candidate, Held;
    forall k ensures Candidate(b.db, k) <==> k in Waiting(b.db.ops) && !Held(b.db.ops, k) { CandidateIsFree(cfg, b.db, k); }
  }

  /** A claim that finds a candidate always shortens the queue, whether it dispatches or fails the operation. */
  lemma ClaimShrinksQueue(cfg: Settings, db: Ledger, k: Key, now: int, uuid: nat)
    requires LedgerInv(cfg, db) && Candidate(db, k)
    ensures var ops := Claim(db, cfg, k, now, uuid).0.ops;
      Waiting(ops) == Waiting(db.ops) - {k} && |Waiting(ops)| < |Waiting(db.ops)|
  {
    hide LedgerInv;
    ClaimRows(db, cfg, k, now, uuid);
    hide Claim, Candidate;
    var ops := Claim(db, cfg, k, now, uuid).0.ops;
    assert Waiting(ops) == Waiting(db.ops) - {k};
    assert k in Waiting(db.ops);
  }

  lemma ClaimRows(db: Ledger, cfg: Settings, k: Key, now: int, uuid: nat)
    requires Candidate(db, k)
    ensures db.ops[k].state.Accepted?
    ensures var ops := Claim(db, cfg, k, now, uuid).0.ops;
      !ops[k].state.Accepted? && forall j :: j in db.ops && j != k ==> ops[j] == db.ops[j]
  {
    hide Available;
  }

  // ---------------------------------------------------------------- order

  predicate Timed(s: Step) {
    !s.ReceiptRequest? && !s.TakeCancel? && !s.Reap? && !s.Start? && !s.EndJob? && !s.Crash?
  }

  function After(t: int, s: Step): int {
    if Timed(s) then s.now else t
  }

  /** The clock does not go backwards along the run. */
  predicate Monotone(t: int, run: seq<Step>)
    decreases |run|
  {
    run == [] || (t <= After(t, run[0]) && Monotone(After(t, run[0]), run[1..]))
  }

  /** Within a flow, operations are claimed oldest first, and nothing still waiting is older than what was claimed. */
  predicate OrderOk(b: Broker, t: int) {
    && (forall k :: k in b.claims ==> k in b.db.ops)
    && (forall k :: k in b.db.ops ==> b.db.ops[k].created <= t)
    && (forall i, j :: 0 <= i < j < |b.claims| && SameFlow(b.db.ops, b.claims[i], b.claims[j]) ==>
          b.db.ops[b.claims[i]].created <= b.db.ops[b.claims[j]].created)
    && (forall c, a :: c in b.claims && a in b.db.ops && SameFlow(b.db.ops, c, a) && b.db.ops[a].state.Accepted? ==>
          b.db.ops[c].created <= b.db.ops[a].created)
  }

  predicate SameFlow(ops: map<Key, Row>, x: Key, y: Key) {
    x in ops && y in ops && x.device == y.device && ops[x].flow == ops[y].flow
  }

  /** Only an accepted request adds a row, its own, stamped with the time of its transaction. */
  predicate OnlyNew(ops: map<Key, Row>, ops': map<Key, Row>, s: Step) {
    forall k :: k in ops' && k !in ops ==>
      s.AcceptRequest? && k == Key(s.device, s.request.op) && ops'[k].created == s.now && ops'[k].digest == s.request
  }

  lemma RequestedRows(cfg: Settings, db: Ledger, s: Step)
    ensures OnlyNew(db.ops, Requested(db, cfg, s).ops, s)
  {
    hide InputBytes, Distinct, ActiveKeys, PurgeDevice, DropExpired, StoredBytes, Holds;
  }

  predicate IsJob(s: Step) {
    s.Observe? || s.Settle? || s.GiveUp? || s.EndJob? || s.Start? || s.Reap? || s.Crash?
  }

  lemma JobNextRows(cfg: Settings, b: Broker, s: Step)
    requires Enabled(b, cfg, s) && IsJob(s)
    ensures Next(b, cfg, s).db.ops.Keys == b.db.ops.Keys && Next(b, cfg, s).claims == b.claims
  {
    hide Finish, SaveHandle, StartReads, Poll, ClaimCancel, CloseAll, Claim, WithJob, WithJobs, Accept, CancelIntent, Purge,
      PutArtifact, AddReceipt, Events;
  }

  lemma LoopNextRows(cfg: Settings, b: Broker, s: Step)
    requires Enabled(b, cfg, s) && !IsRequest(s) && !IsJob(s)
    ensures Next(b, cfg, s).db.ops.Keys == b.db.ops.Keys
    ensures Next(b, cfg, s).claims == b.claims || (s.TakeClaim? && Next(b, cfg, s).claims == b.claims + [s.k])
  {
    hide WithJob, WithJobs, StartReads, Claim, Poll, ClaimCancel, CloseAll, ListsRunning, Cancelable, Reconcilable, FirstCandidate, Finish, SaveHandle;
  }

  lemma NextRows(cfg: Settings, b: Broker, s: Step)
    requires Enabled(b, cfg, s)
    ensures OnlyNew(b.db.ops, Next(b, cfg, s).db.ops, s)
    ensures Next(b, cfg, s).claims == b.claims || (s.TakeClaim? && Next(b, cfg, s).claims == b.claims + [s.k])
  {
    hide Next, Enabled, Requested;
    if IsRequest(s) {
      RequestNext(cfg, b, s);
      RequestedRows(cfg, b.db, s);
    } else if IsJob(s) {
      JobNextRows(cfg, b, s);
    } else {
      LoopNextRows(cfg, b, s);
    }
  }

  lemma OrderStep(cfg: Settings, b: Broker, s: Step, t: int)
    requires BrokerInv(cfg, b) && Enabled(b, cfg, s) && OrderOk(b, t) && t <= After(t, s)
    ensures OrderOk(Next(b, cfg, s), After(t, s))
  {
    EveryStep(cfg, b, s);
    NextRows(cfg, b, s);
    if s.TakeClaim? { ClaimedIsOldest(cfg, b.db, s.k); }
    var b' := Next(b, cfg, s);
    assert OpsEvolve(b.db.ops, b'.db.ops) by { OpsOf(b.db, b'.db); }
    assert s.TakeClaim? ==> s.k in b.db.ops && b.db.ops[s.k].state.Accepted?;
    hide BrokerInv, Next, Enabled, LedgerEvolves;
    OrderTransfer(b, b', s, t);
  }

  lemma ClaimedIsOldest(cfg: Settings, db: Ledger, k: Key)
    requires LedgerInv(cfg, db) && FirstCandidate(db, k)
    ensures forall a :: SameFlow(db.ops, k, a) && db.ops[a].state.Accepted? ==> Before(db.ops[k].created, k.op, db.ops[a].created, a.op)
  {
    hide DevicesOk, FoldAgrees, HistoryOk, PendingOk, QuotaOk, RowsOk, PayloadsOk, FlowsOk;
    forall a | SameFlow(db.ops, k, a) && db.ops[a].state.Accepted?
      ensures Before(db.ops[k].created, k.op, db.ops[a].created, a.op)
    {
      assert Candidate(db, a);
    }
  }

  /** Rows already there keep their flow and creation time. */
  predicate SameBirth(ops: map<Key, Row>, ops': map<Key, Row>) {
    forall k :: k in ops ==>
      k in ops' && ops'[k].created == ops[k].created && ops'[k].flow == ops[k].flow && (ops'[k].state.Accepted? ==> ops[k].state.Accepted?)
  }

  lemma BirthKept(ops: map<Key, Row>, ops': map<Key, Row>)
    requires OpsEvolve(ops, ops')
    ensures SameBirth(ops, ops')
  {
    forall k | k in ops
      ensures k in ops' && ops'[k].created == ops[k].created && ops'[k].flow == ops[k].flow && (ops'[k].state.Accepted? ==> ops[k].state.Accepted?)
    {
      assert RowEvolves(ops[k], ops'[k]);
    }
  }

  lemma OrderTransfer(b: Broker, b': Broker, s: Step, t: int)
    requires OrderOk(b, t) && OpsEvolve(b.db.ops, b'.db.ops) && OnlyNew(b.db.ops, b'.db.ops, s) && t <= After(t, s)
    requires b'.claims == b.claims || (s.TakeClaim? && b'.claims == b.claims + [s.k])
    requires s.TakeClaim? ==>
      && s.k in b.db.ops && b.db.ops[s.k].state.Accepted?
      && forall a :: SameFlow(b.db.ops, s.k, a) && b.db.ops[a].state.Accepted? ==> b.db.ops[s.k].created <= b.db.ops[a].created
    ensures OrderOk(b', After(t, s))
  {
    var ops, ops' := b.db.ops, b'.db.ops;
    BirthKept(ops, ops');
    hide OpsEvolve;
    forall c | c in b'.claims ensures c in ops {
      assert c in b.claims || c == s.k;
    }
    forall c, a | c in b'.claims && a in ops' && SameFlow(ops', c, a) && ops'[a].state.Accepted?
      ensures ops'[c].created <= ops'[a].created
    {
      if a in ops { assert SameFlow(ops, c, a); }
    }
    forall i, j | 0 <= i < j < |b'.claims| && SameFlow(ops', b'.claims[i], b'.claims[j])
      ensures ops'[b'.claims[i]].created <= ops'[b'.claims[j]].created
    {
      assert SameFlow(ops, b'.claims[i], b'.claims[j]);
      assert b'.claims[i] == b.claims[i];
    }
  }

  lemma {:induction false} OrderRun(cfg: Settings, b: Broker, run: seq<Step>, t: int)
    requires BrokerInv(cfg, b) && ValidRun(b, cfg, run) && OrderOk(b, t) && Monotone(t, run)
    ensures exists u :: OrderOk(Exec(b, cfg, run), u)
    decreases |run|
  {
    hide BrokerInv, LedgerEvolves, Enabled, Next, OrderOk, After;
    if run == [] {
      assert OrderOk(Exec(b, cfg, run), t);
    } else {
      EveryStep(cfg, b, run[0]);
      OrderStep(cfg, b, run[0], t);
      OrderRun(cfg, Next(b, cfg, run[0]), run[1..], After(t, run[0]));
      var u :| OrderOk(Exec(Next(b, cfg, run[0]), cfg, run[1..]), u);
      assert OrderOk(Exec(b, cfg, run), u);
    }
  }

  /** Under a clock that does not go backwards, the operations of a flow are claimed in creation order. */
  lemma ClaimOrder(cfg: Settings, run: seq<Step>, t: int, i: nat, j: nat)
    requires ValidRun(INITIAL, cfg, run) && Monotone(t, run)
    requires var b := Exec(INITIAL, cfg, run); i < j < |b.claims| && SameFlow(b.db.ops, b.claims[i], b.claims[j])
    ensures var b := Exec(INITIAL, cfg, run); b.db.ops[b.claims[i]].created <= b.db.ops[b.claims[j]].created
  {
    InitialOk(cfg);
    OrderRun(cfg, INITIAL, run, t);
  }

  /** What is claimed later was waiting all along. */
  lemma {:induction false} ClaimedLater(cfg: Settings, b: Broker, run: seq<Step>, a: Key)
    requires BrokerInv(cfg, b) && ValidRun(b, cfg, run) && a in b.db.ops
    requires a !in b.claims && a in Exec(b, cfg, run).claims
    ensures b.db.ops[a].state.Accepted?
    decreases |run|
  {
    hide BrokerInv, LedgerEvolves, Next, Enabled, OpsEvolve;
    if run != [] {
      var b1 := Next(b, cfg, run[0]);
      EveryStep(cfg, b, run[0]);
      NextRows(cfg, b, run[0]);
      OpsOf(b.db, b1.db);
      BirthKept(b.db.ops, b1.db.ops);
      if a in b1.claims {
        ClaimableRow(cfg, b, run[0]);
      } else {
        ClaimedLater(cfg, b1, run[1..], a);
      }
    }
  }

  lemma ClaimableRow(cfg: Settings, b: Broker, s: Step)
    requires Enabled(b, cfg, s) && s.TakeClaim?
    ensures s.k in b.db.ops && b.db.ops[s.k].state.Accepted? && FirstCandidate(b.db, s.k)
  {
  }

  /** Whatever the clock does: when an operation is claimed, every operation of its flow that is already known and
      claimed later comes after it in (created_at, operation_id) order. */
  lemma ClaimOrderExact(cfg: Settings, before: seq<Step>, s: Step, later: seq<Step>, a: Key)
    requires ValidRun(INITIAL, cfg, before) && s.TakeClaim? && Enabled(Exec(INITIAL, cfg, before), cfg, s)
    requires ValidRun(Next(Exec(INITIAL, cfg, before), cfg, s), cfg, later)
    requires var b := Exec(INITIAL, cfg, before); var b1 := Next(b, cfg, s);
      && s.k in b.db.ops && SameFlow(b.db.ops, s.k, a)
      && a !in b1.claims && a in Exec(b1, cfg, later).claims
    ensures var ops := Exec(INITIAL, cfg, before).db.ops; Before(ops[s.k].created, s.k.op, ops[a].created, a.op)
  {
    var b := Exec(INITIAL, cfg, before);
    var b1 := Next(b, cfg, s);
    Reachable(cfg, before);
    EveryStep(cfg, b, s);
    ClaimableRow(cfg, b, s);
    KnownRows(cfg, b);
    hide BrokerInv, LedgerEvolves, Next, Enabled, OpsEvolve, Exec, ValidRun, FirstCandidate;
    OpsOf(b.db, b1.db);
    BirthKept(b.db.ops, b1.db.ops);
    ClaimedLater(cfg, b1, later, a);
    ClaimedIsOldest(cfg, b.db, s.k);
  }

  lemma KnownRows(cfg: Settings, b: Broker)
    requires BrokerInv(cfg, b)
    ensures LedgerInv(cfg, b.db)
  {
  }

  // ---------------------------------------------------------------- the event log

  lemma FoldKeys(log: seq<Snapshot>, op: nat)
    ensures op in Fold(log) <==> exists i :: 0 <= i < |log| && log[i].op == op
  {
    if log != [] {
      var rest, last := log[..|log| - 1], log[|log| - 1];
      FoldKeys(rest, op);
      if op in Fold(rest) { var i :| 0 <= i < |rest| && rest[i].op == op; assert log[i].op == op; }
      if i :| 0 <= i < |log| && log[i].op == op { assert i < |rest| ==> rest[i].op == op; }
    }
  }

  /** Reading a device's whole log rebuilds its part of the operations table, up to expired results. */
  lemma LogRebuildsLedger(cfg: Settings, run: seq<Step>, d: string)
    requires ValidRun(INITIAL, cfg, run)
    ensures var db := Exec(INITIAL, cfg, run).db; var latest := Fold(Log(db.log, d));
      && (forall op :: op in latest <==> Key(d, op) in db.ops)
      && (forall op :: op in latest ==> Agrees(latest[op], op, db.ops[Key(d, op)]))
  {
    Reachable(cfg, run);
    hide Enabled, Next, Exec, ValidRun, DevicesOk, PendingOk, QuotaOk, Tables, Agrees, Compatible;
    var db := Exec(INITIAL, cfg, run).db;
    forall op ensures op in Fold(Log(db.log, d)) <==> Key(d, op) in db.ops {
      FoldKeys(Log(db.log, d), op);
      if op in Fold(Log(db.log, d)) {
        var i :| 0 <= i < |Log(db.log, d)| && Log(db.log, d)[i].op == op;
        assert Key(d, Log(db.log, d)[i].op) in db.ops;
      }
    }
    forall op | op in Fold(Log(db.log, d)) ensures Agrees(Fold(Log(db.log, d))[op], op, db.ops[Key(d, op)]) {
      assert Key(d, op) in db.ops;
    }
  }

  /** The retained events of a device are the numbers in (floor, sequence], with no hole, and repeat the log. */
  lemma RetainedEvents(cfg: Settings, run: seq<Step>, d: string, n: nat)
    requires ValidRun(INITIAL, cfg, run)
    ensures var db := Exec(INITIAL, cfg, run).db; var dev := Dev(db.devices, d);
      && (n in dev.events <==> dev.floor < n <= dev.sequence)
      && |Log(db.log, d)| == dev.sequence
      && (n in dev.events ==> dev.events[n].snapshot == Log(db.log, d)[n - 1])
  {
    Reachable(cfg, run);
    hide Enabled, Next, Exec, ValidRun, FoldAgrees, HistoryOk, PendingOk, QuotaOk, Tables;
    var db := Exec(INITIAL, cfg, run).db;
    assert DeviceOk(Dev(db.devices, d), Log(db.log, d));
  }

  // ---------------------------------------------------------------- conservation and lifecycle

  /** Outbox, payloads, admissions and artifact bytes agree with the operations table in every reachable state. */
  lemma TablesAgree(cfg: Settings, run: seq<Step>, k: Key)
    requires ValidRun(INITIAL, cfg, run)
    ensures var db := Exec(INITIAL, cfg, run).db;
      && (k in db.ops <==> k in db.outbox)
      && (k in db.ops ==> db.outbox[k] == OutboxFor(db.ops[k].state))
      && (k in db.payloads ==> k in db.ops && (db.ops[k].state.Accepted? || db.ops[k].state.Running?)
                               && db.payloads[k].request == db.ops[k].digest)
      && |ActiveKeys(db.ops, k.device)| <= cfg.maxPending
      && StoredBytes(db.artifacts, k.device) <= cfg.deviceQuota
  {
    Reachable(cfg, run);
    hide Enabled, Next, Exec, ValidRun, FoldAgrees, HistoryOk, DevicesOk, RowsOk, FlowsOk;
  }

  /** Between any two points of a run: result id and handle are written once, final rows are frozen, and an
      unknown outcome becomes final only with a saved handle and the result id it had. */
  lemma OutcomesSettle(cfg: Settings, before: seq<Step>, later: seq<Step>, k: Key)
    requires ValidRun(INITIAL, cfg, before) && ValidRun(Exec(INITIAL, cfg, before), cfg, later)
    requires k in Exec(INITIAL, cfg, before).db.ops
    ensures var a := Exec(INITIAL, cfg, before).db.ops[k];
      var db := Exec(Exec(INITIAL, cfg, before), cfg, later).db;
      && k in db.ops && RowEvolves(a, db.ops[k])
      && (db.ops[k].resultId.Some? <==> Terminal(db.ops[k].state))
  {
    var b := Exec(INITIAL, cfg, before);
    Reachable(cfg, before);
    RunKeeps(cfg, b, later);
    var b' := Exec(b, cfg, later);
    hide Enabled, Next, Exec, ValidRun, FoldAgrees, HistoryOk, DevicesOk, PendingOk, QuotaOk, RowEvolves;
  }

  /** A stream job whose coroutine returned has left its operation terminal, and an operation is completed only
      if some peer result observed for it carried that state. */
  lemma SubmissionClosed(cfg: Settings, run: seq<Step>, k: Key)
    requires ValidRun(INITIAL, cfg, run)
    ensures var b := Exec(INITIAL, cfg, run);
      && (k in b.streams && b.streams[k].ended ==> k in b.db.ops && Terminal(b.db.ops[k].state))
      && (k in b.db.ops && b.db.ops[k].state.Completed? ==> k in b.completions)
  {
    Reachable(cfg, run);
    hide Enabled, Next, Exec, ValidRun, LedgerInv;
  }
}
