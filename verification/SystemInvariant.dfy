/** What ties the client's ledger to the broker's in every reachable state of the whole system. */
module SystemInvariant {
  import opened Common
  import opened Ledger
  import opened LedgerInvariant
  import opened LedgerSteps
  import B = Broker
  import BI = BrokerInvariant
  import BS = BrokerSteps
  import BT = BrokerTheorems
  import FE = FinalEvents
  import opened ClientLedger
  import opened Client
  import opened ClientInvariant
  import opened System

  // ---------------------------------------------------------------- the invariant

  /** Every operation of the device at the broker is the client's, with the client's one request. */
  predicate IdentityOk(d: string, ops: map<Key, Row>, cops: map<nat, CRow>) {
    forall k :: k in ops && k.device == d ==> k.op in cops && ops[k].digest == RequestOf(k.op, cops[k.op])
  }

  /** An answer agrees with every final event already logged when it was produced. */
  predicate SeesFinal(a: Answer, log: seq<Snapshot>) {
    && a.at <= |log|
    && forall i :: 0 <= i < a.at && log[i].op == a.s.op && Final(log[i].state) ==>
         a.s.state == log[i].state && a.s.resultId == log[i].resultId
  }

  predicate AnswersOk(d: string, ops: map<Key, Row>, log: seq<Snapshot>, answers: set<Answer>) {
    forall a :: a in answers ==> Key(d, a.s.op) in ops && Compatible(a.s, ops[Key(d, a.s.op)]) && SeesFinal(a, log)
  }

  predicate AbsencesOk(log: seq<Snapshot>, absences: set<Absence>) {
    forall a :: a in absences ==> a.at <= |log| && forall i :: 0 <= i < a.at ==> log[i].op != a.op
  }

  predicate StoredOk(d: string, ops: map<Key, Row>, cops: map<nat, CRow>) {
    forall o :: o in cops && cops[o].snapshot.Some? ==>
      Key(d, o) in ops && Compatible(cops[o].snapshot.value, ops[Key(d, o)])
  }

  predicate ReceiptsOk(d: string, ops: map<Key, Row>, receipts: map<Receipt, bool>) {
    forall r :: r in receipts ==> Key(d, r.op) in ops && ops[Key(d, r.op)].resultId == Some(r.resultId)
  }

  /** The client holds the outcome a final event announced, or is stuck on a handle-less unknown one. */
  predicate Settled(cops: map<nat, CRow>, e: Snapshot) {
    Final(e.state) ==>
      && e.op in cops && cops[e.op].snapshot.Some?
      && ((cops[e.op].snapshot.value.state == e.state && cops[e.op].snapshot.value.resultId == e.resultId)
          || Stuck(cops[e.op].snapshot))
  }

  /** What is behind the cursor is settled, except events that can be passed; what an open stream has read beyond the
      cursor it has passed. */
  predicate CursorOk(cfg: Config, log: seq<Snapshot>, c: Client) {
    && c.db.cursor <= |log|
    && (c.stream.Some? ==> c.db.cursor <= c.stream.value <= |log| && c.recovery.Idle?)
    && (c.stream.Some? ==> forall i :: c.db.cursor <= i < c.stream.value ==> Passable(cfg, i + 1, log[i]))
    && (forall i :: 0 <= i < c.db.cursor ==> Settled(c.db.ops, log[i]) || Passable(cfg, i + 1, log[i]))
  }

  /** A final outcome heard in an answer is held, or met a stuck unknown one. */
  predicate HeardOk(cops: map<nat, CRow>, heard: set<nat>) {
    forall o :: o in heard ==> o in cops && (IsFinal(cops[o]) || Stuck(cops[o].snapshot))
  }

  /** A final outcome came in an answer or as an event in one piece. */
  predicate Announced(cfg: Config, log: seq<Snapshot>, o: nat, heard: set<nat>) {
    o in heard || exists i :: 0 <= i < |log| && log[i].op == o && Final(log[i].state) && Whole(cfg, log[i])
  }

  predicate SourcesOk(cfg: Config, log: seq<Snapshot>, cops: map<nat, CRow>, heard: set<nat>) {
    forall o :: o in cops && IsFinal(cops[o]) ==> Announced(cfg, log, o, heard)
  }

  predicate RecoveryOk(log: seq<Snapshot>, cops: map<nat, CRow>, r: Recovery) {
    && (!r.Idle? ==> r.resume <= |log|)
    && (r.Fetching? ==> forall i :: 0 <= i < r.resume ==> log[i].op in r.todo || Settled(cops, log[i]))
  }

  ghost predicate SysInv(y: System, cfg: Config) {
    && BI.BrokerInv(cfg.broker, y.broker) && ClientInv(y.client)
    && IdentityOk(cfg.device, y.broker.db.ops, y.client.db.ops)
    && AnswersOk(cfg.device, y.broker.db.ops, LogOf(y, cfg), y.answers)
    && AbsencesOk(LogOf(y, cfg), y.absences)
    && StoredOk(cfg.device, y.broker.db.ops, y.client.db.ops)
    && ReceiptsOk(cfg.device, y.broker.db.ops, y.client.db.receipts)
    && CursorOk(cfg, LogOf(y, cfg), y.client)
    && RecoveryOk(LogOf(y, cfg), y.client.db.ops, y.client.recovery)
    && HeardOk(y.client.db.ops, y.client.heard)
    && SourcesOk(cfg, LogOf(y, cfg), y.client.db.ops, y.client.heard)
    && FE.FinalLast(LogOf(y, cfg))
  }

  // ---------------------------------------------------------------- broker steps

  lemma LedgerOf(cfg: Settings, b: B.Broker)
    requires BI.BrokerInv(cfg, b)
    ensures LedgerInv(cfg, b.db)
  {
    hide LedgerInv;
  }

  lemma Entries(cfg: Settings, db: Ledger, d: string, i: nat)
    requires LedgerInv(cfg, db) && i < |Log(db.log, d)|
    ensures var e := Log(db.log, d)[i]; Key(d, e.op) in db.ops && Compatible(e, db.ops[Key(d, e.op)])
  {
    hide Tables, DevicesOk, FoldAgrees, PendingOk, QuotaOk, Compatible;
  }

  lemma BrokerMoves(cfg: Config, y: System, s: B.Step)
    requires SysInv(y, cfg) && Allowed(y, cfg, OnBroker(s))
    ensures var b := B.Next(y.broker, cfg.broker, s);
      && BI.BrokerInv(cfg.broker, b) && OpsEvolve(y.broker.db.ops, b.db.ops)
      && LogOf(y, cfg) <= Log(b.db.log, cfg.device)
      && BT.OnlyNew(y.broker.db.ops, b.db.ops, s)
  {
    hide ClientInv, IdentityOk, AnswersOk, AbsencesOk, StoredOk, ReceiptsOk, CursorOk, RecoveryOk, HeardOk, SourcesOk, FE.FinalLast, BI.BrokerInv, B.Next, B.Enabled, OpsEvolve;
    BS.EveryStep(cfg.broker, y.broker, s);
    BT.NextRows(cfg.broker, y.broker, s);
  }

  lemma AnswersStable(d: string, ops: map<Key, Row>, ops': map<Key, Row>, log: seq<Snapshot>, log': seq<Snapshot>, answers: set<Answer>)
    requires AnswersOk(d, ops, log, answers) && OpsEvolve(ops, ops') && log <= log'
    ensures AnswersOk(d, ops', log', answers)
  {
    forall a | a in answers ensures Key(d, a.s.op) in ops' && Compatible(a.s, ops'[Key(d, a.s.op)]) && SeesFinal(a, log') {
      var k := Key(d, a.s.op);
      CompatibleEvolves(a.s, ops[k], ops'[k]);
    }
  }

  lemma StoredStable(d: string, ops: map<Key, Row>, ops': map<Key, Row>, cops: map<nat, CRow>, receipts: map<Receipt, bool>)
    requires StoredOk(d, ops, cops) && ReceiptsOk(d, ops, receipts) && OpsEvolve(ops, ops')
    ensures StoredOk(d, ops', cops) && ReceiptsOk(d, ops', receipts)
  {
    forall o | o in cops && cops[o].snapshot.Some?
      ensures Key(d, o) in ops' && Compatible(cops[o].snapshot.value, ops'[Key(d, o)])
    {
      CompatibleEvolves(cops[o].snapshot.value, ops[Key(d, o)], ops'[Key(d, o)]);
    }
    forall r | r in receipts ensures Key(d, r.op) in ops' && ops'[Key(d, r.op)].resultId == Some(r.resultId) {
      assert RowEvolves(ops[Key(d, r.op)], ops'[Key(d, r.op)]);
    }
  }

  lemma ReaderStable(cfg: Config, log: seq<Snapshot>, log': seq<Snapshot>, c: Client, absences: set<Absence>)
    requires CursorOk(cfg, log, c) && RecoveryOk(log, c.db.ops, c.recovery) && AbsencesOk(log, absences) && log <= log'
    ensures CursorOk(cfg, log', c) && RecoveryOk(log', c.db.ops, c.recovery) && AbsencesOk(log', absences)
  {
    hide Settled, Passable;
  }

  lemma SourcesStable(cfg: Config, log: seq<Snapshot>, log': seq<Snapshot>, cops: map<nat, CRow>, heard: set<nat>)
    requires SourcesOk(cfg, log, cops, heard) && log <= log'
    ensures SourcesOk(cfg, log', cops, heard)
  {
    hide Whole;
    forall o | o in cops && IsFinal(cops[o]) ensures Announced(cfg, log', o, heard) {
      assert Announced(cfg, log, o, heard);
      if o !in heard {
        var i :| 0 <= i < |log| && log[i].op == o && Final(log[i].state) && Whole(cfg, log[i]);
        assert log'[i] == log[i];
      }
    }
  }

  lemma IdentityStable(cfg: Config, y: System, ops': map<Key, Row>, s: B.Step)
    requires IdentityOk(cfg.device, y.broker.db.ops, y.client.db.ops) && PostsOk(y.client.db.ops, y.client.posts)
    requires OpsEvolve(y.broker.db.ops, ops') && BT.OnlyNew(y.broker.db.ops, ops', s)
    requires s.AcceptRequest? && s.device == cfg.device ==> s.request in y.client.posts
    ensures IdentityOk(cfg.device, ops', y.client.db.ops)
  {
    forall k | k in ops' && k.device == cfg.device
      ensures k.op in y.client.db.ops && ops'[k].digest == RequestOf(k.op, y.client.db.ops[k.op])
    {
      if k in y.broker.db.ops { assert RowEvolves(y.broker.db.ops[k], ops'[k]); }
    }
  }

  /** An answer is the snapshot of the row as the transaction left it. */
  lemma ReplyIsCurrent(b: B.Broker, cfg: Settings, s: B.Step, d: string)
    requires B.Enabled(b, cfg, s) && ForDevice(s, d) && Reply(b, cfg, s).Some?
    ensures var b' := B.Next(b, cfg, s); var t := Reply(b, cfg, s).value;
      Key(d, t.op) in b'.db.ops && exists now :: t == SnapshotOf(t.op, b'.db.ops[Key(d, t.op)], now)
  {
    hide InputBytes, ActiveKeys, Distinct;
    var b', t := B.Next(b, cfg, s), Reply(b, cfg, s).value;
    assert t == SnapshotOf(t.op, b'.db.ops[Key(d, t.op)], s.now);
  }

  lemma NewAnswer(cfg: Settings, db: Ledger, d: string, t: Snapshot, now: int)
    requires LedgerInv(cfg, db) && Key(d, t.op) in db.ops && t == SnapshotOf(t.op, db.ops[Key(d, t.op)], now)
    ensures Compatible(t, db.ops[Key(d, t.op)]) && SeesFinal(Answer(t, |Log(db.log, d)|), Log(db.log, d))
  {
    hide LedgerInv;
    var row := db.ops[Key(d, t.op)];
    RowFacts(db, cfg, Key(d, t.op));
    ViewAgrees(t.op, row, now);
    var log := Log(db.log, d);
    forall i | 0 <= i < |log| && log[i].op == t.op && Final(log[i].state)
      ensures t.state == log[i].state && t.resultId == log[i].resultId
    {
      Entries(cfg, db, d, i);
    }
  }

  lemma NewAbsence(cfg: Settings, db: Ledger, d: string, op: nat)
    requires LedgerInv(cfg, db) && Key(d, op) !in db.ops
    ensures forall i :: 0 <= i < |Log(db.log, d)| ==> Log(db.log, d)[i].op != op
  {
    hide LedgerInv;
    forall i | 0 <= i < |Log(db.log, d)| ensures Log(db.log, d)[i].op != op {
      Entries(cfg, db, d, i);
    }
  }

  /** What one request adds to the answers and absences is right when it is produced. */
  lemma ReplyFits(cfg: Config, b: B.Broker, s: B.Step)
    requires BI.BrokerInv(cfg.broker, b) && B.Enabled(b, cfg.broker, s) && ForDevice(s, cfg.device)
    ensures var db := B.Next(b, cfg.broker, s).db; var log := Log(db.log, cfg.device); var r := Reply(b, cfg.broker, s);
      && (r.Some? ==> var t := r.value;
            && Key(cfg.device, t.op) in db.ops && Compatible(t, db.ops[Key(cfg.device, t.op)])
            && SeesFinal(Answer(t, |log|), log))
      && (r.None? && s.GetRequest? ==> forall i :: 0 <= i < |log| ==> log[i].op != s.k.op)
  {
    hide BI.BrokerInv, B.Next, B.Enabled, Reply, SeesFinal, Compatible, LedgerInv, LedgerEvolves;
    var db := B.Next(b, cfg.broker, s).db;
    BS.EveryStep(cfg.broker, b, s);
    LedgerOf(cfg.broker, B.Next(b, cfg.broker, s));
    if Reply(b, cfg.broker, s).Some? {
      ReplyIsCurrent(b, cfg.broker, s, cfg.device);
      var t := Reply(b, cfg.broker, s).value;
      var now :| t == SnapshotOf(t.op, db.ops[Key(cfg.device, t.op)], now);
      NewAnswer(cfg.broker, db, cfg.device, t, now);
    } else if s.GetRequest? {
      AbsentStays(b, cfg.broker, s);
      NewAbsence(cfg.broker, db, cfg.device, s.k.op);
    }
  }

  lemma AddAnswer(d: string, ops: map<Key, Row>, log: seq<Snapshot>, answers: set<Answer>, a: Answer)
    requires AnswersOk(d, ops, log, answers)
    requires Key(d, a.s.op) in ops && Compatible(a.s, ops[Key(d, a.s.op)]) && SeesFinal(a, log)
    ensures AnswersOk(d, ops, log, answers + {a})
  {
    hide Compatible, SeesFinal;
  }

  lemma AddAbsence(log: seq<Snapshot>, absences: set<Absence>, op: nat)
    requires AbsencesOk(log, absences) && forall i :: 0 <= i < |log| ==> log[i].op != op
    ensures AbsencesOk(log, absences + {Absence(op, |log|)})
  {
  }

  lemma AnswerStep(cfg: Config, y: System, s: B.Step)
    requires SysInv(y, cfg) && Allowed(y, cfg, OnBroker(s))
    ensures var y' := After(y, cfg, OnBroker(s));
      && AnswersOk(cfg.device, y'.broker.db.ops, LogOf(y', cfg), y'.answers)
      && AbsencesOk(LogOf(y', cfg), y'.absences)
  {
    hide ClientInv, IdentityOk, StoredOk, ReceiptsOk, BI.BrokerInv, B.Next, B.Enabled, OpsEvolve, Reply, SeesFinal, Compatible,
      BT.OnlyNew, AnswersOk, AbsencesOk, CursorOk, RecoveryOk, HeardOk, SourcesOk, FE.FinalLast;
    BrokerMoves(cfg, y, s);
    var b', log' := B.Next(y.broker, cfg.broker, s), Log(B.Next(y.broker, cfg.broker, s).db.log, cfg.device);
    AnswersStable(cfg.device, y.broker.db.ops, b'.db.ops, LogOf(y, cfg), log', y.answers);
    ReaderStable(cfg, LogOf(y, cfg), log', y.client, y.absences);
    if ForDevice(s, cfg.device) {
      ReplyFits(cfg, y.broker, s);
      var r := Reply(y.broker, cfg.broker, s);
      if r.Some? {
        AddAnswer(cfg.device, b'.db.ops, log', y.answers, Answer(r.value, |log'|));
      } else if s.GetRequest? {
        AddAbsence(log', y.absences, s.k.op);
      }
    }
  }

  lemma AbsentStays(b: B.Broker, cfg: Settings, s: B.Step)
    requires B.Enabled(b, cfg, s) && s.GetRequest? && Reply(b, cfg, s).None?
    ensures s.k !in B.Next(b, cfg, s).db.ops
  {
  }

  lemma LogKeeps(cfg: Config, y: System, s: B.Step)
    requires SysInv(y, cfg) && Allowed(y, cfg, OnBroker(s))
    ensures FE.FinalLast(LogOf(After(y, cfg, OnBroker(s)), cfg))
  {
    hide ClientInv, IdentityOk, AnswersOk, AbsencesOk, StoredOk, ReceiptsOk, CursorOk, RecoveryOk, HeardOk, SourcesOk, BI.BrokerInv,
      B.Next, B.Enabled, Reply, FE.FinalLast, FE.OnlyFresh, LedgerInv;
    LedgerOf(cfg.broker, y.broker);
    FE.StepFresh(cfg.broker, y.broker, s);
    FE.FinalLastKeeps(cfg.broker, y.broker.db, B.Next(y.broker, cfg.broker, s).db, cfg.device);
  }

  lemma OnBrokerKeeps(cfg: Config, y: System, s: B.Step)
    requires SysInv(y, cfg) && Allowed(y, cfg, OnBroker(s))
    ensures SysInv(After(y, cfg, OnBroker(s)), cfg)
  {
    BrokerMoves(cfg, y, s);
    AnswerStep(cfg, y, s);
    var y' := After(y, cfg, OnBroker(s));
    assert PostsOk(y.client.db.ops, y.client.posts);
    hide BI.BrokerInv, ClientInv, B.Next, B.Enabled, Reply, OpsEvolve, BT.OnlyNew;
    IdentityStable(cfg, y, y'.broker.db.ops, s);
    StoredStable(cfg.device, y.broker.db.ops, y'.broker.db.ops, y.client.db.ops, y.client.db.receipts);
    ReaderStable(cfg, LogOf(y, cfg), LogOf(y', cfg), y.client, y.absences);
    SourcesStable(cfg, LogOf(y, cfg), LogOf(y', cfg), y.client.db.ops, y.client.heard);
    LogKeeps(cfg, y, s);
    hide IdentityOk, AnswersOk, AbsencesOk, StoredOk, ReceiptsOk, CursorOk, RecoveryOk, HeardOk, SourcesOk, FE.FinalLast;
  }
}
