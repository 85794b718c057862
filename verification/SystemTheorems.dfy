/** End-to-end results over every history of client, broker and network, from empty ledgers. */
module SystemTheorems {
  import opened Common
  import opened L = Ledger
  import opened LedgerInvariant
  import B = Broker
  import BI = BrokerInvariant
  import BT = BrokerTheorems
  import opened ClientLedger
  import opened Client
  import opened ClientInvariant
  import opened System
  import opened SystemInvariant
  import opened SystemSteps
  import FE = FinalEvents
  import F = PayloadFates

  lemma Anywhere(cfg: Config, run: seq<SysStep>)
    requires ValidHistory(START, cfg, run)
    ensures SysInv(Reached(START, cfg, run), cfg)
  {
    hide SysInv, Allowed, After;
    StartOk(cfg);
    HistoryKeeps(cfg, START, run);
  }

  // ---------------------------------------------------------------- execution

  /** One native call causes at most one peer submission, however often its request is posted, delayed or
      repeated and whoever crashes. */
  lemma AtMostOnceExecution(cfg: Config, run: seq<SysStep>, i: nat, j: nat)
    requires ValidHistory(START, cfg, run)
    requires var subs := Reached(START, cfg, run).broker.submissions;
      i < j < |subs| && subs[i].device == cfg.device && subs[j].device == cfg.device
    ensures var y := Reached(START, cfg, run); var subs := y.broker.submissions; var cops := y.client.db.ops;
      && subs[i].op in cops && subs[j].op in cops
      && cops[subs[i].op].origin != cops[subs[j].op].origin
  {
    Anywhere(cfg, run);
    var y := Reached(START, cfg, run);
    SubmissionFacts(cfg, y, i, j);
  }

  lemma SubmissionFacts(cfg: Config, y: System, i: nat, j: nat)
    requires SysInv(y, cfg)
    requires var subs := y.broker.submissions; i < j < |subs| && subs[i].device == subs[j].device == cfg.device
    ensures var subs := y.broker.submissions; var cops := y.client.db.ops;
      && subs[i].op in cops && subs[j].op in cops && cops[subs[i].op].origin != cops[subs[j].op].origin
  {
    hide LedgerInv, AnswersOk, AbsencesOk, StoredOk, ReceiptsOk, CursorOk, RecoveryOk, HeardOk, SourcesOk, FE.FinalLast, CRowsOk, PostsOk, DeliveryOk, CancelsOk,
      BI.JobsOk, BI.CapacityOk, BI.PeerCancelsOk, BI.CompletedOk;
    var subs := y.broker.submissions;
    assert subs[i] in y.broker.claims && subs[j] in y.broker.claims && subs[i] != subs[j];
  }

  /** Every post for an operation carries the same request, so the broker never reports an id conflict. */
  lemma PostsNeverConflict(cfg: Config, run: seq<SysStep>, r: Request, q: Request, now: int)
    requires ValidHistory(START, cfg, run) && r in Reached(START, cfg, run).client.posts && q in Reached(START, cfg, run).client.posts
    ensures r.op == q.op ==> r == q
    ensures var y := Reached(START, cfg, run);
      Accept(y.broker.db, cfg.broker, cfg.device, r, now).reply != Err(IdConflict)
  {
    Anywhere(cfg, run);
    PostFacts(cfg, Reached(START, cfg, run), r, q, now);
  }

  lemma PostFacts(cfg: Config, y: System, r: Request, q: Request, now: int)
    requires SysInv(y, cfg) && r in y.client.posts && q in y.client.posts
    ensures r.op == q.op ==> r == q
    ensures Accept(y.broker.db, cfg.broker, cfg.device, r, now).reply != Err(IdConflict)
  {
    assert PostsOk(y.client.db.ops, y.client.posts);
    if Key(cfg.device, r.op) in y.broker.db.ops { SameFlow(y, cfg, r.op); }
    hide SysInv, ActiveKeys, Distinct;
    InputsNeverConflict(y.broker.db.artifacts, cfg.device, r.artifacts, now);
  }

  lemma InputsNeverConflict(artifacts: seq<Artifact>, d: string, ids: seq<nat>, now: int)
    ensures InputBytes(artifacts, d, ids, now) != Err(IdConflict)
  {
  }

  // ---------------------------------------------------------------- results

  /** What the client shows for the operation is the outcome the event announced. */
  predicate ShowsOutcome(row: CRow, e: Snapshot) {
    Shown(e.op, row).state == e.state && Shown(e.op, row).resultId == e.resultId
  }

  /** Once the client's cursor has passed the event that made an operation final, the client holds that final state
      and result id exactly unless it had already stored an unknown outcome without a remote handle; of an event whose
      text lets the reader pass it in silence this is true only if an answer brought a final snapshot of the operation. */
  lemma NoLostResult(cfg: Config, run: seq<SysStep>, n: nat)
    requires ValidHistory(START, cfg, run) && 1 <= n <= Reached(START, cfg, run).client.db.cursor
    ensures n <= |LogOf(Reached(START, cfg, run), cfg)|
    ensures var y := Reached(START, cfg, run); var e := LogOf(y, cfg)[n - 1]; var cops := y.client.db.ops;
      Final(e.state) ==>
        && e.op in cops
        && (ShowsOutcome(cops[e.op], e) <==> !Stuck(cops[e.op].snapshot) && (Passable(cfg, n, e) ==> e.op in y.client.heard))
  {
    Anywhere(cfg, run);
    hide SysInv, ValidHistory, Reached, Passable, ShowsOutcome, Stuck;
    var y := Reached(START, cfg, run);
    CursorFacts(cfg, y, n);
    var e := LogOf(y, cfg)[n - 1];
    if Final(e.state) {
      Belongs(cfg, y, n);
      if Passable(cfg, n, e) { PassedFacts(cfg, y, n); } else { SettledShows(y.client.db.ops, e); }
    }
  }

  /** Behind the cursor everything is settled, except events that can be passed. */
  lemma CursorFacts(cfg: Config, y: System, n: nat)
    requires SysInv(y, cfg) && 1 <= n <= y.client.db.cursor
    ensures n <= |LogOf(y, cfg)|
    ensures Settled(y.client.db.ops, LogOf(y, cfg)[n - 1]) || Passable(cfg, n, LogOf(y, cfg)[n - 1])
  {
    hide ClientInv, BI.BrokerInv, IdentityOk, AnswersOk, AbsencesOk, StoredOk, ReceiptsOk, RecoveryOk, HeardOk, SourcesOk, FE.FinalLast,
      Settled, Passable;
    assert Settled(y.client.db.ops, LogOf(y, cfg)[n - 1]) || Passable(cfg, n - 1 + 1, LogOf(y, cfg)[n - 1]);
  }

  lemma SettledShows(cops: map<nat, CRow>, e: Snapshot)
    requires Final(e.state) && Settled(cops, e)
    ensures e.op in cops && (ShowsOutcome(cops[e.op], e) <==> !Stuck(cops[e.op].snapshot))
  {
  }

  lemma Belongs(cfg: Config, y: System, n: nat)
    requires SysInv(y, cfg) && 1 <= n <= |LogOf(y, cfg)|
    ensures var e := LogOf(y, cfg)[n - 1]; var k := Key(cfg.device, e.op);
      e.op in y.client.db.ops && k in y.broker.db.ops && Compatible(e, y.broker.db.ops[k])
  {
    hide SysInv, Compatible, LedgerInv;
    LedgerAt(cfg, y);
    Entries(cfg.broker, y.broker.db, cfg.device, n - 1);
    SameFlow(y, cfg, LogOf(y, cfg)[n - 1].op);
  }

  lemma LedgerAt(cfg: Config, y: System)
    requires SysInv(y, cfg)
    ensures LedgerInv(cfg.broker, y.broker.db)
  {
    hide BI.BrokerInv, ClientInv, IdentityOk, AnswersOk, AbsencesOk, StoredOk, ReceiptsOk, CursorOk, RecoveryOk, HeardOk, SourcesOk,
      FE.FinalLast, LedgerInv;
    LedgerOf(cfg.broker, y.broker);
  }

  lemma PassableBroken(cfg: Config, n: nat, e: Snapshot)
    requires Passable(cfg, n, e)
    ensures !Whole(cfg, e)
  {
    hide F.AllPass, F.EventPasses, F.PayloadLines;
  }

  /** A final event that can be passed is the only final event of its operation, so only an answer can have settled it. */
  lemma PassedFacts(cfg: Config, y: System, n: nat)
    requires SysInv(y, cfg) && 1 <= n <= |LogOf(y, cfg)|
    requires var e := LogOf(y, cfg)[n - 1]; Final(e.state) && Passable(cfg, n, e)
    ensures var e := LogOf(y, cfg)[n - 1]; var cops := y.client.db.ops;
      e.op in cops && (ShowsOutcome(cops[e.op], e) <==> !Stuck(cops[e.op].snapshot) && e.op in y.client.heard)
  {
    Belongs(cfg, y, n);
    var e := LogOf(y, cfg)[n - 1];
    HonestRow(y, cfg, e.op);
    PassableBroken(cfg, n, e);
    OutcomeSource(cfg, y, n);
    hide SysInv, Passable, Whole;
  }

  lemma OutcomeSource(cfg: Config, y: System, n: nat)
    requires SysInv(y, cfg) && 1 <= n <= |LogOf(y, cfg)|
    requires var e := LogOf(y, cfg)[n - 1]; Final(e.state) && !Whole(cfg, e) && e.op in y.client.db.ops
    ensures var o := LogOf(y, cfg)[n - 1].op; var row := y.client.db.ops[o];
      (IsFinal(row) ==> o in y.client.heard) && (o in y.client.heard ==> IsFinal(row) || Stuck(row.snapshot))
  {
    hide ClientInv, BI.BrokerInv, IdentityOk, AnswersOk, AbsencesOk, StoredOk, ReceiptsOk, CursorOk, RecoveryOk, Whole;
    var log, o := LogOf(y, cfg), LogOf(y, cfg)[n - 1].op;
    assert IsFinal(y.client.db.ops[o]) ==> Announced(cfg, log, o, y.client.heard);
  }

  /** The step brings a final snapshot of `o` in an answer: a GET, a post, a cancel, or gap recovery. */
  predicate Answers(s: SysStep, o: nat) {
    s.OnClient? && IsAnswer(s.c) && s.c.s.op == o && Final(s.c.s.state)
  }

  lemma StepHeard(cfg: Config, y: System, s: SysStep, o: nat)
    requires Allowed(y, cfg, s)
    ensures o in After(y, cfg, s).client.heard ==> o in y.client.heard || Answers(s, o)
  {
    match s
    case OnBroker(b) => hide B.Next, Reply, B.Enabled;
    case OnClient(c) =>
      HeardFields(y.client, cfg.client, c);
      hide CNext, CEnabled, AcceptSnapshot;
  }

  /** Whatever final outcome counts as heard came in an answer of the history. */
  lemma {:induction false} HeardFrom(cfg: Config, y: System, run: seq<SysStep>, o: nat)
    requires ValidHistory(y, cfg, run) && o in Reached(y, cfg, run).client.heard
    ensures o in y.client.heard || exists s :: s in run && Answers(s, o)
    decreases |run|
  {
    hide Allowed, After, B.Enabled, CEnabled, Answers;
    if run != [] {
      AllowedEnabled(cfg, y, run[0]);
      StepHeard(cfg, y, run[0], o);
      HeardFrom(cfg, After(y, cfg, run[0]), run[1..], o);
      assert run[0] in run;
      if s :| s in run[1..] && Answers(s, o) { assert s in run; }
    }
  }

  /** An outcome announced by an event that can be passed is shown only if the history holds an answer with a final
      snapshot of the operation. */
  lemma PassedNeedsAnswer(cfg: Config, run: seq<SysStep>, n: nat)
    requires ValidHistory(START, cfg, run) && 1 <= n <= |LogOf(Reached(START, cfg, run), cfg)|
    requires var e := LogOf(Reached(START, cfg, run), cfg)[n - 1]; Final(e.state) && Passable(cfg, n, e)
    ensures var y := Reached(START, cfg, run); var e := LogOf(y, cfg)[n - 1];
      e.op in y.client.db.ops && (ShowsOutcome(y.client.db.ops[e.op], e) ==> exists s :: s in run && Answers(s, e.op))
  {
    Anywhere(cfg, run);
    var y := Reached(START, cfg, run);
    hide SysInv, ValidHistory, Reached, Passable, ShowsOutcome, Stuck, Answers;
    PassedFacts(cfg, y, n);
    var o := LogOf(y, cfg)[n - 1].op;
    if o in y.client.heard { HeardFrom(cfg, START, run, o); }
  }

  // ---------------------------------------------------------------- a stream that stops

  /** The event can be neither ingested nor passed: the reader stops at it. */
  predicate Stopping(cfg: Config, n: nat, e: Snapshot) {
    !Whole(cfg, e) && !Passable(cfg, n, e)
  }

  ghost predicate StoppedBefore(cfg: Config, y: System, n: nat) {
    1 <= n <= |LogOf(y, cfg)| && Stopping(cfg, n, LogOf(y, cfg)[n - 1]) && y.client.db.cursor < n
  }

  lemma PassedAhead(cfg: Config, log: seq<Snapshot>, c: Client, n: nat)
    requires CursorOk(cfg, log, c) && c.stream.Some? && c.db.cursor < n <= c.stream.value
    ensures n <= |log| && Passable(cfg, n, log[n - 1])
  {
    hide Settled, Passable;
    assert Passable(cfg, n - 1 + 1, log[n - 1]);
  }

  lemma ReaderAt(cfg: Config, y: System)
    requires SysInv(y, cfg)
    ensures CursorOk(cfg, LogOf(y, cfg), y.client)
    ensures y.client.stream.Some? ==> y.client.db.cursor <= y.client.stream.value
  {
    hide ClientInv, BI.BrokerInv, IdentityOk, AnswersOk, AbsencesOk, StoredOk, ReceiptsOk, RecoveryOk, HeardOk, SourcesOk, FE.FinalLast,
      Settled, Passable;
  }

  lemma ReaderBelow(cfg: Config, y: System, n: nat)
    requires SysInv(y, cfg) && StoppedBefore(cfg, y, n)
    ensures y.client.stream.Some? ==> y.client.db.cursor <= y.client.stream.value < n
  {
    hide SysInv, CursorOk, Passable, Whole;
    ReaderAt(cfg, y);
    if y.client.stream.Some? && y.client.stream.value >= n {
      PassedAhead(cfg, LogOf(y, cfg), y.client, n);
      assert false;
    }
  }

  lemma CursorLimit(c: Client, cfg: ClientSettings, s: CStep)
    requires CEnabled(c, s) && !s.FinishRecovery?
    ensures var cursor := CNext(c, cfg, s).db.cursor; cursor == c.db.cursor || (s.StreamEvent? && cursor == s.n)
  {
    if !MovesReader(s) { ReaderFields(c, cfg, s); }
    hide Merge, Stores, Create, FinishDelivery, ClaimDelivery, Consume, ReleaseInline, RepairReceipts;
  }

  lemma StoppedOnBroker(cfg: Config, y: System, b: B.Step, n: nat)
    requires SysInv(y, cfg) && Allowed(y, cfg, OnBroker(b)) && StoppedBefore(cfg, y, n)
    ensures StoppedBefore(cfg, After(y, cfg, OnBroker(b)), n)
  {
    hide SysInv, B.Next, Reply, B.Enabled, Stopping, BI.BrokerInv, OpsEvolve, BT.OnlyNew;
    BrokerMoves(cfg, y, b);
  }

  lemma StoppedOnClient(cfg: Config, y: System, c: CStep, n: nat)
    requires SysInv(y, cfg) && Allowed(y, cfg, OnClient(c)) && StoppedBefore(cfg, y, n) && !c.FinishRecovery?
    ensures StoppedBefore(cfg, After(y, cfg, OnClient(c)), n)
  {
    hide SysInv, CNext, Passable, Whole;
    ReaderBelow(cfg, y, n);
    CursorLimit(y.client, cfg.client, c);
    hide B.Next, Reply, ToSend, Called, Deliverable, Passes;
  }

  lemma StillStopped(cfg: Config, y: System, s: SysStep, n: nat)
    requires SysInv(y, cfg) && Allowed(y, cfg, s) && StoppedBefore(cfg, y, n) && s != OnClient(FinishRecovery)
    ensures StoppedBefore(cfg, After(y, cfg, s), n)
  {
    hide SysInv, Allowed, After, B.Enabled, CEnabled, StoppedBefore;
    match s
    case OnBroker(b) => StoppedOnBroker(cfg, y, b, n);
    case OnClient(c) => StoppedOnClient(cfg, y, c, n);
  }

  /** An event at which the reader stops holds up everything behind it: through any later history the cursor stays below
      it, until gap recovery moves it. */
  lemma {:induction false} StreamHeldUp(cfg: Config, y: System, run: seq<SysStep>, n: nat)
    requires SysInv(y, cfg) && ValidHistory(y, cfg, run) && StoppedBefore(cfg, y, n) && OnClient(FinishRecovery) !in run
    ensures StoppedBefore(cfg, Reached(y, cfg, run), n)
    decreases |run|
  {
    hide SysInv, Allowed, After, B.Enabled, CEnabled, StoppedBefore;
    if run != [] {
      AllowedEnabled(cfg, y, run[0]);
      assert run[0] in run;
      EverySystemStep(cfg, y, run[0]);
      StillStopped(cfg, y, run[0], n);
      StreamHeldUp(cfg, After(y, cfg, run[0]), run[1..], n);
    }
  }

  // ---------------------------------------------------------------- answers and receipts

  lemma SavedHandle(cfg: Settings, run: seq<B.Step>, k: Key)
    requires B.ValidRun(B.INITIAL, cfg, run) && k in B.Exec(B.INITIAL, cfg, run).db.ops
    ensures var row := B.Exec(B.INITIAL, cfg, run).db.ops[k]; row.handle.Some? ==> row.handle.value != ""
  {
    BT.Reachable(cfg, run);
    hide B.Exec, B.ValidRun;
    assert RowOk(k, B.Exec(B.INITIAL, cfg, run).db.ops[k]);
  }

  /** Every resolution the broker ever makes of an unknown outcome with a saved handle is one the client accepts:
      same handle, same result id, final state. */
  lemma ResolutionsMatch(cfg: Settings, before: seq<B.Step>, later: seq<B.Step>, k: Key, t: int, u: int)
    requires B.ValidRun(B.INITIAL, cfg, before) && B.ValidRun(B.Exec(B.INITIAL, cfg, before), cfg, later)
    requires k in B.Exec(B.INITIAL, cfg, before).db.ops
    requires var a := B.Exec(B.INITIAL, cfg, before).db.ops[k]; a.state.OutcomeUnknown? && a.handle.Some?
    ensures var a := B.Exec(B.INITIAL, cfg, before).db.ops[k];
      var ops := B.Exec(B.Exec(B.INITIAL, cfg, before), cfg, later).db.ops;
      k in ops && (Final(ops[k].state) <==> ExactResolution(SnapshotOf(k.op, a, t), SnapshotOf(k.op, ops[k], u)))
  {
    BT.OutcomesSettle(cfg, before, [], k);
    SavedHandle(cfg, before, k);
    BT.OutcomesSettle(cfg, before, later, k);
    assert B.Exec(B.Exec(B.INITIAL, cfg, before), cfg, []) == B.Exec(B.INITIAL, cfg, before);
    hide B.Exec, B.ValidRun;
  }

  /** A client stuck on an unknown outcome without a handle stays so, with the same snapshot, through any later history. */
  lemma StuckForever(cfg: Config, run: seq<SysStep>, later: seq<SysStep>, o: nat)
    requires ValidHistory(START, cfg, run) && ValidHistory(Reached(START, cfg, run), cfg, later)
    requires var cops := Reached(START, cfg, run).client.db.ops; o in cops && Stuck(cops[o].snapshot)
    ensures var a := Reached(START, cfg, run).client.db.ops; var b := Reached(Reached(START, cfg, run), cfg, later).client.db.ops;
      o in b && b[o].snapshot == a[o].snapshot && Shown(o, b[o]).state.OutcomeUnknown?
  {
    Anywhere(cfg, run);
    var y := Reached(START, cfg, run);
    HistoryGrows(cfg, y, later);
    hide SysInv, ValidHistory, Reached;
    assert CRowEvolves(y.client.db.ops[o], Reached(y, cfg, later).client.db.ops[o]);
  }

  /** Whatever the broker answers or logs is accepted by the client: no flow or result id ever disagrees. */
  lemma NeverRefused(cfg: Config, run: seq<SysStep>, s: CStep, seqno: Option<nat>, now: int)
    requires ValidHistory(START, cfg, run) && Allowed(Reached(START, cfg, run), cfg, OnClient(s)) && Incoming(s).Some?
    ensures AcceptSnapshot(Reached(START, cfg, run).client.db, cfg.client, Incoming(s).value, seqno, now).1.Ok?
  {
    Anywhere(cfg, run);
    hide SysInv, AcceptSnapshot, Allowed, Compatible;
    IncomingHonest(Reached(START, cfg, run), cfg, s);
    Welcome(Reached(START, cfg, run), cfg, Incoming(s).value, seqno, now);
  }

  /** Every receipt the client ever records, restart repair included, is accepted by the broker, now and later. */
  lemma ReceiptsAlwaysAccepted(cfg: Config, run: seq<SysStep>, r: Receipt)
    requires ValidHistory(START, cfg, run) && r in Reached(START, cfg, run).client.db.receipts
    ensures L.AddReceipt(Reached(START, cfg, run).broker.db, cfg.device, r).reply == Ok(())
  {
    Anywhere(cfg, run);
    ReceiptFacts(cfg, Reached(START, cfg, run), r);
  }

  lemma ReceiptFacts(cfg: Config, y: System, r: Receipt)
    requires SysInv(y, cfg) && r in y.client.db.receipts
    ensures L.AddReceipt(y.broker.db, cfg.device, r).reply == Ok(())
  {
    hide ClientInv, BI.BrokerInv, IdentityOk, AnswersOk, AbsencesOk, StoredOk, CursorOk, RecoveryOk, HeardOk, SourcesOk, FE.FinalLast;
  }

  // ---------------------------------------------------------------- delivery

  lemma CEvolvesTrans(a: map<nat, CRow>, b: map<nat, CRow>, c: map<nat, CRow>)
    requires COpsEvolve(a, b) && COpsEvolve(b, c)
    ensures COpsEvolve(a, c)
  {
    forall o | o in a ensures o in c && CRowEvolves(a[o], c[o]) {
      assert CRowEvolves(a[o], b[o]) && CRowEvolves(b[o], c[o]);
    }
  }

  predicate ClientGrows(a: Client, b: Client) {
    COpsEvolve(a.db.ops, b.db.ops) && a.enqueues <= b.enqueues && a.cancelPosts <= b.cancelPosts
  }

  lemma StepGrows(cfg: Config, y: System, s: SysStep)
    requires SysInv(y, cfg) && Allowed(y, cfg, s)
    ensures ClientGrows(y.client, After(y, cfg, s).client)
  {
    match s
    case OnBroker(b) =>
      NothingChanged(y.client, y.client.db);
      hide B.Next, Reply, B.Enabled;
    case OnClient(c) =>
      EveryClientStep(y.client, cfg.client, c);
      HistoriesGrow(y.client, cfg.client, c);
      hide CNext, CEnabled, COpsEvolve;
  }

  lemma HistoriesGrow(c: Client, cfg: ClientSettings, s: CStep)
    requires CEnabled(c, s)
    ensures c.enqueues <= CNext(c, cfg, s).enqueues && c.cancelPosts <= CNext(c, cfg, s).cancelPosts
  {
    hide AcceptSnapshot, Restart, Prune, Create, FinishDelivery, Consume, ReleaseInline;
  }

  lemma {:induction false} HistoryGrows(cfg: Config, y: System, run: seq<SysStep>)
    requires SysInv(y, cfg) && ValidHistory(y, cfg, run)
    ensures ClientGrows(y.client, Reached(y, cfg, run).client)
    decreases |run|
  {
    hide SysInv, Allowed, After, B.Enabled, CEnabled, COpsEvolve;
    if run == [] {
      SelfGrows(y.client);
    } else {
      AllowedEnabled(cfg, y, run[0]);
      EverySystemStep(cfg, y, run[0]);
      StepGrows(cfg, y, run[0]);
      HistoryGrows(cfg, After(y, cfg, run[0]), run[1..]);
      CEvolvesTrans(y.client.db.ops, After(y, cfg, run[0]).client.db.ops, Reached(y, cfg, run).client.db.ops);
    }
  }

  lemma SelfGrows(c: Client)
    ensures ClientGrows(c, c)
  {
    forall o | o in c.db.ops ensures CRowEvolves(c.db.ops[o], c.db.ops[o]) { CEvolvesRefl(c.db.ops[o]); }
  }

  /** Each operation is handed to the native queue at most once in all of history, only once its outcome is
      final, and the result id named there is the one `view` shows from then on, through any later history. */
  lemma DeliveredAtMostOnce(cfg: Config, run: seq<SysStep>, later: seq<SysStep>, i: nat)
    requires ValidHistory(START, cfg, run) && ValidHistory(Reached(START, cfg, run), cfg, later)
    requires i < |Reached(START, cfg, run).client.enqueues|
    ensures var e := Reached(START, cfg, run).client.enqueues[i];
      var c := Reached(Reached(START, cfg, run), cfg, later).client;
      && (forall j :: 0 <= j < |c.enqueues| && c.enqueues[j].op == e.op ==> j == i)
      && e.op in c.db.ops
      && Final(Shown(e.op, c.db.ops[e.op]).state) && Shown(e.op, c.db.ops[e.op]).resultId == Some(e.resultId)
  {
    Anywhere(cfg, run);
    var y := Reached(START, cfg, run);
    HistoryKeeps(cfg, y, later);
    HistoryGrows(cfg, y, later);
    EnqueueFacts(cfg, Reached(y, cfg, later), i);
  }

  lemma EnqueueFacts(cfg: Config, y: System, i: nat)
    requires SysInv(y, cfg) && i < |y.client.enqueues|
    ensures var c := y.client; var e := c.enqueues[i];
      && (forall j :: 0 <= j < |c.enqueues| && c.enqueues[j].op == e.op ==> j == i)
      && EnqueueOk(e, c.db.ops, c.refused)
  {
    hide BI.BrokerInv, IdentityOk, AnswersOk, AbsencesOk, StoredOk, ReceiptsOk, CursorOk, RecoveryOk, HeardOk, SourcesOk, FE.FinalLast, EnqueueOk, CRowsOk, CallsOk, PostsOk, CancelsOk;
    assert y.client.enqueues[i] in y.client.enqueues;
  }

  /** A result returned inline is never also waiting in the native queue: whenever an enqueue was attempted for
      it, that enqueue reported that nothing was queued.  And being returned inline is permanent. */
  lemma InlineExcludesQueue(cfg: Config, run: seq<SysStep>, later: seq<SysStep>, o: nat, i: nat)
    requires ValidHistory(START, cfg, run) && ValidHistory(Reached(START, cfg, run), cfg, later)
    requires var c := Reached(START, cfg, run).client; o in c.db.ops && c.db.ops[o].delivery.InlineReturned?
    ensures var c := Reached(Reached(START, cfg, run), cfg, later).client;
      && o in c.db.ops && c.db.ops[o].delivery.InlineReturned?
      && (i < |c.enqueues| && c.enqueues[i].op == o ==> o in c.refused)
  {
    Anywhere(cfg, run);
    var y := Reached(START, cfg, run);
    HistoryKeeps(cfg, y, later);
    HistoryGrows(cfg, y, later);
    var c := Reached(y, cfg, later).client;
    if i < |c.enqueues| { EnqueueFacts(cfg, Reached(y, cfg, later), i); }
    hide SysInv, ValidHistory, Reached;
    assert CRowEvolves(y.client.db.ops[o], c.db.ops[o]);
  }

  /** The client posts at most one cancel per operation, ever. */
  lemma CancelPostedOnce(cfg: Config, run: seq<SysStep>)
    requires ValidHistory(START, cfg, run)
    ensures Distinct(Reached(START, cfg, run).client.cancelPosts)
  {
    Anywhere(cfg, run);
    CancelFacts(cfg, Reached(START, cfg, run));
  }

  lemma CancelFacts(cfg: Config, y: System)
    requires SysInv(y, cfg)
    ensures Distinct(y.client.cancelPosts)
  {
    hide BI.BrokerInv, IdentityOk, AnswersOk, AbsencesOk, StoredOk, ReceiptsOk, CursorOk, RecoveryOk, HeardOk, SourcesOk, FE.FinalLast, CRowsOk, CallsOk, PostsOk, DeliveryOk, Distinct;
  }
}
