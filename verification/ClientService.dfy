/** `ClientService`: the loops of the client daemon over a `ClientStore`.  Every method is proved to be a run of the
    client machine, so the theorems over all histories speak about these loops. */
module ClientService {
  import opened Common
  import opened Ledger
  import opened CL = ClientLedger
  import opened Client
  import opened ClientInvariant
  import CS = ClientStore

  ghost predicate CValidRun(c: Client, cfg: ClientSettings, run: seq<CStep>)
    decreases |run|
  {
    run == [] || (CEnabled(c, run[0]) && CValidRun(CNext(c, cfg, run[0]), cfg, run[1..]))
  }

  ghost function CExec(c: Client, cfg: ClientSettings, run: seq<CStep>): Client
    requires CValidRun(c, cfg, run)
    decreases |run|
  {
    if run == [] then c else CExec(CNext(c, cfg, run[0]), cfg, run[1..])
  }

  lemma {:induction false} CSnoc(c: Client, cfg: ClientSettings, run: seq<CStep>, s: CStep)
    requires CValidRun(c, cfg, run) && CEnabled(CExec(c, cfg, run), s)
    ensures CValidRun(c, cfg, run + [s]) && CExec(c, cfg, run + [s]) == CNext(CExec(c, cfg, run), cfg, s)
    decreases |run|
  {
    hide CEnabled, CNext;
    if run == [] {
      assert run + [s] == [s] && [s][1..] == [];
    } else {
      assert (run + [s])[1..] == run[1..] + [s];
      CSnoc(CNext(c, cfg, run[0]), cfg, run[1..], s);
    }
  }

  /** The steps of the work loop itself, and the restart that ends the process. */
  predicate IsWork(s: CStep) {
    s.Deliver? || s.EnqueueReturned? || s.Reconciled? || s.Post? || s.Mark? || s.Sent? || s.Reopen?
  }

  /** The steps of the event reader, and the restart that ends the process. */
  predicate IsReading(s: CStep) {
    || s.OpenStream? || s.StreamEvent? || s.PassEvent? || s.CloseStream? || s.Gap? || s.BeginRecovery? || s.Fetched? || s.Missing?
    || s.FinishRecovery? || s.AbortRecovery? || s.Reopen?
  }

  /** The two coroutines whose steps are told apart from those of all others. */
  datatype Kind = Work | Reading

  predicate Mine(s: CStep, kind: Kind) {
    match kind case Work => IsWork(s) case Reading => IsReading(s)
  }

  /** The steps of one coroutine from position `from` on. */
  function Own(run: seq<CStep>, from: nat, kind: Kind): seq<CStep>
    requires from <= |run|
    decreases |run|
  {
    if |run| == from then []
    else Own(run[..|run| - 1], from, kind) + (if Mine(run[|run| - 1], kind) then [run[|run| - 1]] else [])
  }

  lemma OwnOne(run: seq<CStep>, from: nat, s: CStep, kind: Kind)
    requires from <= |run|
    ensures Own(run + [s], from, kind) == Own(run, from, kind) + (if Mine(s, kind) then [s] else [])
  {
    assert (run + [s])[..|run|] == run;
  }

  /** While the coroutine awaits, none of its steps happen. */
  lemma {:induction false} OwnRests(run0: seq<CStep>, run: seq<CStep>, from: nat, kind: Kind)
    requires from <= |run0| && run0 <= run && forall i :: |run0| <= i < |run| ==> !Mine(run[i], kind)
    ensures Own(run, from, kind) == Own(run0, from, kind)
    decreases |run|
  {
    if |run| == |run0| {
      assert run == run0;
    } else {
      OwnRests(run0, run[..|run| - 1], from, kind);
      assert !Mine(run[|run| - 1], kind);
    }
  }

  /** Steps counted in two stretches. */
  lemma {:induction false} OwnParts(run0: seq<CStep>, run: seq<CStep>, from: nat, kind: Kind)
    requires from <= |run0| && run0 <= run
    ensures Own(run, from, kind) == Own(run0, from, kind) + Own(run, |run0|, kind)
    decreases |run|
  {
    if |run| == |run0| {
      assert run == run0;
    } else {
      OwnParts(run0, run[..|run| - 1], from, kind);
    }
  }

  lemma {:induction false} CPrefix(c: Client, cfg: ClientSettings, run: seq<CStep>, n: nat)
    requires CValidRun(c, cfg, run) && n <= |run|
    ensures CValidRun(c, cfg, run[..n])
    decreases |run|
  {
    hide CEnabled, CNext;
    if n > 0 {
      assert run[..n][0] == run[0] && run[..n][1..] == run[1..][..n - 1];
      CPrefix(CNext(c, cfg, run[0]), cfg, run[1..], n - 1);
    }
  }

  /** What the delivery loop may rely on while it awaits. */
  predicate Undisturbed(c: Client, c': Client) {
    && c'.inflight == c.inflight && c.db.ops.Keys <= c'.db.ops.Keys
    && forall o :: o in c.db.ops && c.db.ops[o].delivery.EnqueueUnknown? ==> o in c'.db.ops && c'.db.ops[o].delivery.EnqueueUnknown?
  }

  /** Other coroutines of the daemon leave the delivery in flight and the unknown deliveries alone. */
  lemma OthersUndisturb(c: Client, cfg: ClientSettings, s: CStep)
    requires CEnabled(c, s) && !IsWork(s)
    ensures Undisturbed(c, CNext(c, cfg, s))
  {
    hide ToSend, PendingOps, Blank, Live, Called;
  }

  lemma OthersLeaveReader(c: Client, cfg: ClientSettings, s: CStep)
    requires CEnabled(c, s) && !IsReading(s)
    ensures CNext(c, cfg, s).recovery == c.recovery && CNext(c, cfg, s).stream == c.stream
  {
    hide ToSend, PendingOps, Blank, Live, Called, Create, AcceptSnapshot, FinishDelivery, ClaimDelivery, Consume;
  }

  /** What holds of any other step: operations and cancel intents stay. */
  predicate CancelsStay(c: Client, c': Client) {
    forall o :: o in c.db.ops ==> o in c'.db.ops && (c.db.ops[o].cancel.Some? ==> c'.db.ops[o].cancel.Some?)
  }

  lemma OthersKeepCancels(c: Client, cfg: ClientSettings, s: CStep)
    requires ClientInv(c) && CEnabled(c, s)
    ensures CancelsStay(c, CNext(c, cfg, s))
  {
    hide ClientInv, CEnabled, CNext;
    EveryClientStep(c, cfg, s);
  }

  /** What a request to the broker may come back with. */
  datatype Answered = Found(snapshot: Snapshot) | NotThere | RefusedForGood | Unreachable

  /** What the world has in store for one turn of the delivery loop: the clock, a new delivery id, what the enqueue comes
      back with, and the queue entry a look-up finds. */
  datatype Handing = Handing(now: int, deliveryId: nat, outcome: EnqueueOutcome, queueId: Option<string>)

  /** The steps of the delivery loop for one operation, given its ledger and the operations already looked up. */
  function DeliverySteps(db: ClientDb, op: nat, h: Handing, supported: bool, looked: set<nat>): seq<CStep> {
    if op in db.ops && db.ops[op].delivery.EnqueueUnknown? && op !in looked then
      if supported && db.ops[op].snapshot.Some? && h.queueId.Some? && h.queueId.value != "" then [Reconciled(op, h.queueId.value)] else []
    else if Deliverable(db, op, h.now) then
      [Deliver(op, h.now, h.deliveryId, supported)] + (if supported then [EnqueueReturned(h.outcome)] else [])
    else []
  }

  /** The operations whose queue entry need not be looked up again afterwards. */
  function LookedAfter(db: ClientDb, op: nat, h: Handing, supported: bool, looked: set<nat>): set<nat> {
    if op in db.ops && db.ops[op].delivery.EnqueueUnknown? && op !in looked then looked + {op}
    else if Deliverable(db, op, h.now) && supported && h.outcome.Lost? then looked + {op}
    else looked
  }

  /** What the world has in store for one turn of the submission loop: the answer to the look, when it is ingested, the
      clock at the payload's check, whether its key is lost, the answer to the post, and when that is ingested. */
  datatype Turn = Turn(look: Answered, lookAt: int, now: int, keyLost: bool, answer: Answered, answerAt: int)

  /** The steps of the submission loop for an operation the broker does not know. */
  function PostSteps(db: ClientDb, op: nat, t: Turn): (r: seq<CStep>)
    ensures r != []
  {
    if ToSend(db, op, t.now).None? then [Mark(op, Uncertain)]
    else if t.keyLost then [Mark(op, KeyUnavailable)]
    else [Post(op, t.now)] + (if t.answer.RefusedForGood? then [Mark(op, Rejected)] else [])
  }

  predicate Posts(db: ClientDb, op: nat, t: Turn) {
    ToSend(db, op, t.now).Some? && !t.keyLost
  }

  /** The steps of the submission loop for one operation: nothing unless the broker does not know it. */
  function DispatchSteps(db: ClientDb, op: nat, t: Turn): seq<CStep> {
    if t.look.NotThere? then PostSteps(db, op, t) else []
  }

  /** The last step ingests this answer, and the ledger takes it. */
  ghost predicate TookAnswer(c0: Client, cfg: ClientSettings, run: seq<CStep>, op: nat, a: Answered, at: int) {
    && a.Found? && a.snapshot.op == op && run != [] && run[|run| - 1] == Ingest(a.snapshot, at)
    && CValidRun(c0, cfg, run[..|run| - 1])
    && CL.AcceptSnapshot(CExec(c0, cfg, run[..|run| - 1]).db, cfg, a.snapshot, None, at).1.Ok?
  }

  /** An answer about the operation itself is ingested, in the last step. */
  predicate Offered(run: seq<CStep>, op: nat, a: Answered, at: int) {
    a.Found? && a.snapshot.op == op ==> run != [] && run[|run| - 1] == Ingest(a.snapshot, at)
  }

  /** The turn of one operation takes the steps from `from` on: its own steps are exactly those for the ledger as it is
      when they begin, at `at`; answers are ingested; and it succeeds unless the broker cannot be reached or answers wrongly. */
  ghost predicate TurnDone(c0: Client, cfg: ClientSettings, run: seq<CStep>, from: nat, at: nat, op: nat, t: Turn, ok: bool) {
    && from <= at <= |run| && Own(run[..at], from, Work) == [] && CValidRun(c0, cfg, run[..at])
    && var db := CExec(c0, cfg, run[..at]).db;
       && Own(run, from, Work) == DispatchSteps(db, op, t)
       && (t.look.NotThere? ==> at < |run| && IsWork(run[at]))
       && Offered(run, op, t.look, t.lookAt)
       && (t.look.NotThere? && Posts(db, op, t) ==> Offered(run, op, t.answer, t.answerAt))
       && (ok <==> match t.look
             case Found(_) => TookAnswer(c0, cfg, run, op, t.look, t.lookAt)
             case NotThere => Posts(db, op, t) ==> t.answer.RefusedForGood? || TookAnswer(c0, cfg, run, op, t.answer, t.answerAt)
             case _ => false)
  }

  lemma NotReady(db: ClientDb, op: nat, now: int)
    requires op in db.ops && db.ops[op].delivery.EnqueueUnknown?
    ensures !Deliverable(db, op, now)
  {
  }

  /** Any number of other coroutines' steps: what the work loop may rely on across an await. */
  lemma {:induction false} MeanwhileWorking(c: Client, cfg: ClientSettings, run: seq<CStep>)
    requires ClientInv(c) && CValidRun(c, cfg, run) && forall s :: s in run ==> !IsWork(s)
    ensures ClientInv(CExec(c, cfg, run)) && Undisturbed(c, CExec(c, cfg, run))
    decreases |run|
  {
    hide ClientInv, CEnabled, CNext, COpsEvolve;
    if run != [] {
      assert run == [run[0]] + run[1..];
      EveryClientStep(c, cfg, run[0]);
      OthersUndisturb(c, cfg, run[0]);
      MeanwhileWorking(CNext(c, cfg, run[0]), cfg, run[1..]);
    }
  }

  /** The same for the event reader. */
  lemma {:induction false} MeanwhileReading(c: Client, cfg: ClientSettings, run: seq<CStep>)
    requires ClientInv(c) && CValidRun(c, cfg, run) && forall s :: s in run ==> !IsReading(s)
    ensures var c' := CExec(c, cfg, run); ClientInv(c') && c'.recovery == c.recovery && c'.stream == c.stream
    decreases |run|
  {
    hide ClientInv, CEnabled, CNext, COpsEvolve;
    if run != [] {
      assert run == [run[0]] + run[1..];
      EveryClientStep(c, cfg, run[0]);
      OthersLeaveReader(c, cfg, run[0]);
      MeanwhileReading(CNext(c, cfg, run[0]), cfg, run[1..]);
    }
  }

  /** The same for a tool call, whatever the steps. */
  lemma {:induction false} MeanwhileCancelling(c: Client, cfg: ClientSettings, run: seq<CStep>)
    requires ClientInv(c) && CValidRun(c, cfg, run)
    ensures ClientInv(CExec(c, cfg, run)) && CancelsStay(c, CExec(c, cfg, run))
    decreases |run|
  {
    hide ClientInv, CEnabled, CNext, COpsEvolve;
    if run != [] {
      EveryClientStep(c, cfg, run[0]);
      OthersKeepCancels(c, cfg, run[0]);
      MeanwhileCancelling(CNext(c, cfg, run[0]), cfg, run[1..]);
    }
  }

  /** The operations that wait to be sent. */
  function Waiting(ops: map<nat, CRow>): set<nat> {
    set o | o in ops && !ops[o].expired && ops[o].submission.Unsent?
  }

  function Sents(order: seq<Receipt>): seq<CStep> {
    if order == [] then [] else Sents(order[..|order| - 1]) + [Sent(order[|order| - 1])]
  }

  /** Turn `i` is the stretch of the run between two marks. */
  predicate Marked(run: seq<CStep>, turns: nat, marks: seq<nat>) {
    && |marks| == turns + 1 && marks[0] == 0 && marks[turns] == |run|
    && forall i, j :: 0 <= i <= j <= turns ==> marks[i] <= marks[j]
  }

  ghost predicate TurnDelivered(c0: Client, cfg: ClientSettings, run: seq<CStep>, from: nat, to: nat, op: nat, h: Handing, supported: bool, looked: set<nat>) {
    from <= to <= |run| && CValidRun(c0, cfg, run[..from])
    && Own(run[..to], from, Work) == DeliverySteps(CExec(c0, cfg, run[..from]).db, op, h, supported, looked)
  }

  ghost predicate AllDelivered(c0: Client, cfg: ClientSettings, run: seq<CStep>, order: seq<nat>, marks: seq<nat>, world: nat -> Handing,
                               supported: bool, looked: set<nat>) {
    && Marked(run, |order|, marks)
    && forall i :: 0 <= i < |order| ==>
         TurnDelivered(c0, cfg, run, marks[i], marks[i + 1], order[i], world(order[i]), supported, looked)
  }

  lemma DeliveredMore(c0: Client, cfg: ClientSettings, run0: seq<CStep>, run: seq<CStep>, order: seq<nat>, marks: seq<nat>, op: nat,
                      world: nat -> Handing, supported: bool, looked: set<nat>)
    requires AllDelivered(c0, cfg, run0, order, marks, world, supported, looked) && run0 <= run && CValidRun(c0, cfg, run0)
    requires Own(run, |run0|, Work) == DeliverySteps(CExec(c0, cfg, run0).db, op, world(op), supported, looked)
    ensures AllDelivered(c0, cfg, run, order + [op], marks + [|run|], world, supported, looked)
  {
    hide DeliverySteps, CValidRun, CExec, Own;
    var order', marks' := order + [op], marks + [|run|];
    assert run[..|run0|] == run0 && run[..|run|] == run;
    forall i | 0 <= i < |order'|
      ensures TurnDelivered(c0, cfg, run, marks'[i], marks'[i + 1], order'[i], world(order'[i]), supported, looked)
    {
      if i < |order| {
        assert TurnDelivered(c0, cfg, run0, marks[i], marks[i + 1], order[i], world(order[i]), supported, looked);
        assert run[..marks[i]] == run0[..marks[i]] && run[..marks[i + 1]] == run0[..marks[i + 1]];
      }
    }
  }

  /** Whether other operations were looked up does not matter. */
  lemma SameLook(db: ClientDb, op: nat, h: Handing, supported: bool, a: set<nat>, b: set<nat>)
    requires op in a <==> op in b
    ensures DeliverySteps(db, op, h, supported, a) == DeliverySteps(db, op, h, supported, b)
  {
  }

  lemma LookedOther(db: ClientDb, op: nat, h: Handing, supported: bool, looked: set<nat>)
    ensures forall o :: o != op ==> (o in LookedAfter(db, op, h, supported, looked) <==> o in looked)
  {
  }

  /** Every turn was done as it should be; only the last one may have failed. */
  ghost predicate AllDispatched(c0: Client, cfg: ClientSettings, run: seq<CStep>, order: seq<nat>, marks: seq<nat>, starts: seq<nat>,
                                world: nat -> Turn, ok: bool) {
    && Marked(run, |order|, marks) && |starts| == |order|
    && forall i :: 0 <= i < |order| ==>
         TurnDone(c0, cfg, run[..marks[i + 1]], marks[i], starts[i], order[i], world(order[i]), ok || i < |order| - 1)
  }

  lemma DispatchedMore(c0: Client, cfg: ClientSettings, run0: seq<CStep>, run: seq<CStep>, order: seq<nat>, marks: seq<nat>, starts: seq<nat>,
                       op: nat, at: nat, world: nat -> Turn, ok: bool)
    requires AllDispatched(c0, cfg, run0, order, marks, starts, world, true) && run0 <= run
    requires TurnDone(c0, cfg, run, |run0|, at, op, world(op), ok)
    ensures AllDispatched(c0, cfg, run, order + [op], marks + [|run|], starts + [at], world, ok)
  {
    hide TurnDone;
    var order', marks', starts' := order + [op], marks + [|run|], starts + [at];
    assert run[..|run|] == run;
    forall i | 0 <= i < |order'|
      ensures TurnDone(c0, cfg, run[..marks'[i + 1]], marks'[i], starts'[i], order'[i], world(order'[i]), ok || i < |order'| - 1)
    {
      if i < |order| {
        assert TurnDone(c0, cfg, run0[..marks[i + 1]], marks[i], starts[i], order[i], world(order[i]), true || i < |order| - 1);
        assert run[..marks[i + 1]] == run0[..marks[i + 1]];
      }
    }
  }

  // ---------------------------------------------------------------- recovery and cancel

  function FetchSteps(op: nat, a: Answered, now: int): seq<CStep> {
    if a.Found? && a.snapshot.op == op then [Fetched(a.snapshot, now)] else if a.NotThere? then [Missing(op)] else [AbortRecovery]
  }

  function Fetches(order: seq<nat>, answers: nat -> Answered, clock: nat -> int): seq<CStep> {
    if order == [] then []
    else
      var op := order[|order| - 1];
      Fetches(order[..|order| - 1], answers, clock) + FetchSteps(op, answers(op), clock(op))
  }

  lemma FetchesMore(order: seq<nat>, op: nat, answers: nat -> Answered, clock: nat -> int)
    ensures Fetches(order + [op], answers, clock) == Fetches(order, answers, clock) + FetchSteps(op, answers(op), clock(op))
  {
    assert (order + [op])[..|order|] == order;
  }

  lemma NoFetches(answers: nat -> Answered, clock: nat -> int)
    ensures Fetches([], answers, clock) == []
  {
  }

  /** The last step takes over a fetched snapshot, and the ledger accepts it. */
  ghost predicate TookFetch(c0: Client, cfg: ClientSettings, run: seq<CStep>, op: nat, a: Answered, now: int) {
    && a.Found? && a.snapshot.op == op && run != [] && run[|run| - 1] == Fetched(a.snapshot, now)
    && CValidRun(c0, cfg, run[..|run| - 1])
    && CL.AcceptSnapshot(CExec(c0, cfg, run[..|run| - 1]).db, cfg, a.snapshot, None, now).1.Ok?
  }

  lemma NotFetched(c0: Client, cfg: ClientSettings, op: nat, a: Answered, now: int)
    requires !(a.Found? && a.snapshot.op == op)
    ensures forall run :: !TookFetch(c0, cfg, run, op, a, now)
  {
  }

  /** The last operation fetched could not be: its answer was neither an accepted snapshot nor that it is unknown. */
  ghost predicate EndsBadly(c0: Client, cfg: ClientSettings, run: seq<CStep>, order: seq<nat>, answers: nat -> Answered, clock: nat -> int) {
    order != [] && var o := order[|order| - 1]; !answers(o).NotThere? && !TookFetch(c0, cfg, run, o, answers(o), clock(o))
  }

  lemma EndsWith(c0: Client, cfg: ClientSettings, run: seq<CStep>, order: seq<nat>, op: nat, answers: nat -> Answered, clock: nat -> int)
    ensures !answers(op).NotThere? && !TookFetch(c0, cfg, run, op, answers(op), clock(op)) ==>
      EndsBadly(c0, cfg, run, order + [op], answers, clock)
  {
  }

  /** Step `at` begins the recovery of these operations, which are the live ones. */
  ghost predicate ListedAt(c0: Client, cfg: ClientSettings, run: seq<CStep>, at: nat, listed: set<nat>) {
    at < |run| && run[at] == BeginRecovery && CValidRun(c0, cfg, run[..at]) && listed == Live(CExec(c0, cfg, run[..at]).db.ops)
  }

  lemma ListedStill(c0: Client, cfg: ClientSettings, run0: seq<CStep>, run: seq<CStep>, at: nat, listed: set<nat>)
    requires ListedAt(c0, cfg, run0, at, listed) && run0 <= run
    ensures ListedAt(c0, cfg, run, at, listed)
  {
    assert run[..at] == run0[..at];
  }

  lemma NoAnswer(c0: Client, cfg: ClientSettings, run: seq<CStep>, op: nat, a: Answered, now: int)
    requires !a.Found?
    ensures !TookAnswer(c0, cfg, run, op, a, now)
  {
  }

  /** The last step of a cancel records what became of its answer, which was ingested if it is about the operation. */
  ghost predicate Concluded(c0: Client, cfg: ClientSettings, run: seq<CStep>, op: nat, a: Answered, now: int) {
    && run != [] && Offered(run[..|run| - 1], op, a, now)
    && run[|run| - 1] == CancelReturned(op, TookAnswer(c0, cfg, run[..|run| - 1], op, a, now))
  }

  class ClientService {
    const store: CS.ClientStore
    const supported: bool   // native delivery, as probed at start
    var unknownReconciled: set<nat>
    ghost var posts: set<Request>
    ghost var inflight: Option<nat>
    ghost var enqueues: seq<Enqueue>
    ghost var refused: set<nat>
    ghost var cancelPosts: seq<nat>
    ghost var stream: Option<nat>
    ghost var recovery: Recovery
    ghost var heard: set<nat>

    ghost function Abs(): Client
      reads this, store
    {
      Client(store.Db(), posts, inflight, enqueues, refused, cancelPosts, stream, recovery, heard)
    }

    /** A new process over the database an earlier one left. */
    constructor (store: CS.ClientStore, supported: bool, ghost past: Client)
      requires ClientInv(past) && store.Db() == Restart(past.db)
      ensures this.store == store && Abs() == CNext(past, store.settings, Reopen) && Valid() && Resting()
    {
      this.store, this.supported, unknownReconciled := store, supported, {};
      posts, inflight, enqueues, refused, cancelPosts := past.posts, None, past.enqueues, past.refused, past.cancelPosts;
      stream, recovery, heard := None, Recovery.Idle, past.heard;
      new;
      EveryClientStep(past, store.settings, Reopen);
    }

    ghost predicate Valid()
      reads this, store
    {
      ClientInv(Abs())
    }

    /** No enqueue is being awaited. */
    ghost predicate Resting()
      reads this
    {
      inflight.None?
    }

    ghost predicate Traces(c0: Client, run: seq<CStep>)
      reads this, store
    {
      CValidRun(c0, store.settings, run) && Abs() == CExec(c0, store.settings, run) && Valid()
    }

    lemma NoSteps()
      requires Valid()
      ensures Traces(Abs(), [])
    {
      hide ClientInv;
    }

    /** Extend the trace by a step that is enabled here and leads to the state already written. */
    lemma Took(c0: Client, run: seq<CStep>, c: Client, s: CStep)
      requires CValidRun(c0, store.settings, run) && c == CExec(c0, store.settings, run) && ClientInv(c)
      requires CEnabled(c, s) && Abs() == CNext(c, store.settings, s)
      ensures Traces(c0, run + [s])
    {
      hide ClientInv, CEnabled, CNext, CExec, CValidRun, COpsEvolve;
      CSnoc(c0, store.settings, run, s);
      EveryClientStep(c, store.settings, s);
    }

    /** The delivery loop awaits: other coroutines run.  Callers may rely on this contract only; `MeanwhileWorking`
        shows that any run of other steps of the machine meets it. */
    method Await(ghost c0: Client, ghost run0: seq<CStep>) returns (ghost run: seq<CStep>)
      requires Traces(c0, run0)
      modifies this, store
      ensures Traces(c0, run) && Undisturbed(old(Abs()), Abs()) && unknownReconciled == old(unknownReconciled)
      ensures run0 <= run && forall i :: |run0| <= i < |run| ==> !IsWork(run[i])
    {
      run := run0;
    }

    // -------------------------------------------------------------- delivery

    /** An unknown delivery is looked up once; it is never enqueued again. */
    method Reconcile(op: nat, found: Option<string>, ghost c0: Client, ghost run0: seq<CStep>) returns (ghost run: seq<CStep>)
      requires Traces(c0, run0) && Resting() && op in store.operations && store.operations[op].delivery.EnqueueUnknown?
      modifies this, store
      ensures Traces(c0, run) && Resting() && old(store.operations).Keys <= store.operations.Keys
      ensures run0 <= run && unknownReconciled == old(unknownReconciled) + {op}
      ensures Own(run, |run0|, Work) ==
        if supported && old(store.operations)[op].snapshot.Some? && found.Some? && found.value != "" then [Reconciled(op, found.value)] else []
    {
      hide ClientInv, CNext, CExec, CValidRun;
      unknownReconciled := unknownReconciled + {op};
      run := run0;
      if supported && store.operations[op].snapshot.Some? {
        run := Await(c0, run);
        OwnRests(run0, run, |run0|, Work);
        if found.Some? && found.value != "" {
          ghost var c := Abs();
          ReconciledNext(c, store.settings, op, found.value);
          var _ := store.FinishDelivery(op, Queued, found);
          Took(c0, run, c, Reconciled(op, found.value));
          OwnOne(run, |run0|, Reconciled(op, found.value), Work);
          run := run + [Reconciled(op, found.value)];
        }
      }
    }

    /** One operation of `deliver_ready`: a look-up for an unknown delivery, once; the delivery, exactly when the operation
        is deliverable, with what its one enqueue came back with; otherwise nothing. */
    method DeliverOne(op: nat, h: Handing, ghost c0: Client, ghost run0: seq<CStep>) returns (ghost run: seq<CStep>)
      requires Traces(c0, run0) && Resting() && op in store.operations
      modifies this, store
      ensures Traces(c0, run) && Resting() && old(store.operations).Keys <= store.operations.Keys && run0 <= run
      ensures Own(run, |run0|, Work) == DeliverySteps(old(store.Db()), op, h, supported, old(unknownReconciled))
      ensures unknownReconciled == LookedAfter(old(store.Db()), op, h, supported, old(unknownReconciled))
    {
      hide ClientInv, CNext, CExec, CValidRun, Deliverable;
      run := run0;
      if store.operations[op].delivery == EnqueueUnknown && op !in unknownReconciled {
        run := Reconcile(op, h.queueId, c0, run);
        return;
      }
      ghost var c := Abs();
      var claimed := store.ClaimDelivery(op, h.now, h.deliveryId);
      if claimed.None? { return; }
      DeliverNext(c, store.settings, op, h.now, h.deliveryId, supported);
      ghost var s := Deliver(op, h.now, h.deliveryId, supported);
      OwnOne(run0, |run0|, s, Work);
      if !supported {
        var _ := store.FinishDelivery(op, Unsupported, None);
        Took(c0, run, c, s);
        run := run + [s];
        return;
      }
      run := HandOver(op, h.outcome, s, claimed.value.snapshot.value.resultId.value, c0, run, c);
    }

    /** Enqueue a claimed result and wait for the answer. */
    method HandOver(op: nat, outcome: EnqueueOutcome, ghost s: CStep, resultId: nat, ghost c0: Client, ghost run0: seq<CStep>,
                    ghost c: Client) returns (ghost run: seq<CStep>)
      requires CValidRun(c0, store.settings, run0) && c == CExec(c0, store.settings, run0) && ClientInv(c)
      requires CEnabled(c, s) && s.Deliver? && op in store.operations
      requires CNext(c, store.settings, s) == Abs().(inflight := Some(op), enqueues := enqueues + [Enqueue(op, resultId)])
      modifies this, store
      ensures Traces(c0, run) && Resting() && old(store.operations).Keys <= store.operations.Keys
      ensures run0 <= run && Own(run, |run0|, Work) == [s, EnqueueReturned(outcome)]
      ensures unknownReconciled == old(unknownReconciled) + if outcome.Lost? then {op} else {}
    {
      hide ClientInv, CEnabled, CNext, CExec, CValidRun;
      inflight := Some(op);
      enqueues := enqueues + [Enqueue(op, resultId)];
      Took(c0, run0, c, s);
      OwnOne(run0, |run0|, s, Work);
      run := Await(c0, run0 + [s]);
      OwnRests(run0 + [s], run, |run0|, Work);
      OwnOne(run, |run0|, EnqueueReturned(outcome), Work);
      run := Enqueued(op, outcome, c0, run);
    }

    /** The enqueue came back. */
    method Enqueued(op: nat, outcome: EnqueueOutcome, ghost c0: Client, ghost run0: seq<CStep>) returns (ghost run: seq<CStep>)
      requires Traces(c0, run0) && inflight == Some(op) && op in store.operations
      modifies this, store
      ensures Traces(c0, run) && Resting() && store.operations.Keys == old(store.operations).Keys
      ensures run == run0 + [EnqueueReturned(outcome)]
      ensures unknownReconciled == old(unknownReconciled) + if outcome.Lost? then {op} else {}
    {
      hide ClientInv, CExec, CValidRun;
      ghost var c := Abs();
      match outcome {
        case Refused => var _ := store.FinishDelivery(op, Unsupported, None);
        case Lost =>
          var _ := store.FinishDelivery(op, EnqueueUnknown, None);
          unknownReconciled := unknownReconciled + {op};
        case Taken(queueId) => var _ := store.FinishDelivery(op, Queued, Some(queueId));
      }
      inflight := None;
      if outcome == Refused { refused := refused + {op}; }
      Took(c0, run0, c, EnqueueReturned(outcome));
      run := run0 + [EnqueueReturned(outcome)];
    }

    /** `deliver_ready`: every live operation has its turn, in the order returned; `marks` says where each turn begins. */
    method DeliverReady(world: nat -> Handing) returns (order: seq<nat>, ghost marks: seq<nat>, ghost run: seq<CStep>)
      requires Valid() && Resting()
      modifies this, store
      ensures Traces(old(Abs()), run) && Resting()
      ensures Distinct(order) && forall o :: o in order <==> o in Live(old(store.operations))
      ensures AllDelivered(old(Abs()), store.settings, run, order, marks, world, supported, old(unknownReconciled))
    {
      ghost var c0, looked := Abs(), unknownReconciled;
      run, order, marks := [], [], [0];
      var todo := store.Ids(false);
      ghost var all := todo;
      assert all == Live(store.operations);
      assert Traces(c0, run);
      hide ClientInv, CExec, CValidRun, DeliverySteps, LookedAfter;
      while todo != {}
        invariant Traces(c0, run) && Resting() && todo <= store.operations.Keys && todo <= all
        invariant Distinct(order) && (forall o :: o in all <==> o in todo || o in order) && (forall o :: o in todo ==> o !in order)
        invariant forall o :: o !in order ==> (o in unknownReconciled <==> o in looked)
        invariant AllDelivered(c0, store.settings, run, order, marks, world, supported, looked)
      {
        var op :| op in todo;
        todo := todo - {op};
        ghost var run0, before := run, unknownReconciled;
        ghost var db := store.Db();
        run := DeliverOne(op, world(op), c0, run);
        SameLook(db, op, world(op), supported, before, looked);
        LookedOther(db, op, world(op), supported, before);
        DeliveredMore(c0, store.settings, run0, run, order, marks, op, world, supported, looked);
        order, marks := order + [op], marks + [|run|];
      }
    }

    // -------------------------------------------------------------- submission

    /** `ingest` of an answer about `op`; an answer about another operation is refused. */
    method IngestAnswer(op: nat, s: Snapshot, now: int, ghost c0: Client, ghost run0: seq<CStep>) returns (ok: bool, ghost run: seq<CStep>)
      requires Traces(c0, run0)
      modifies store, this`heard
      ensures Traces(c0, run) && CancelsStay(old(Abs()), Abs())
      ensures run == if s.op == op then run0 + [Ingest(s, now)] else run0
      ensures ok <==> TookAnswer(c0, store.settings, run, op, Found(s), now)
      ensures !ok ==> store.Db() == old(store.Db())
    {
      hide ClientInv, CEnabled, CNext, CExec, CValidRun, CL.AcceptSnapshot;
      run := run0;
      if s.op != op { return false, run; }
      ghost var c := Abs();
      IngestEnabled(c, store.settings, s, now);
      SmallNext(c, store.settings, Ingest(s, now));
      OthersKeepCancels(c, store.settings, Ingest(s, now));
      var reply := store.AcceptSnapshot(s, None, now);
      ok := reply.Ok?;
      heard := heard + Heard(s, ok);
      Took(c0, run, c, Ingest(s, now));
      run := run + [Ingest(s, now)];
      assert run[..|run| - 1] == run0;
    }

    method MarkAs(op: nat, state: Submission, ghost c0: Client, ghost run0: seq<CStep>) returns (ghost run: seq<CStep>)
      requires Traces(c0, run0) && (state.Rejected? || state.Uncertain? || state.KeyUnavailable?)
      modifies store
      ensures Traces(c0, run) && unchanged(this) && run == run0 + [Mark(op, state)]
    {
      hide ClientInv, CNext, CExec, CValidRun;
      ghost var c := Abs();
      SmallNext(c, store.settings, Mark(op, state));
      store.MarkSubmission(op, state);
      Took(c0, run0, c, Mark(op, state));
      run := run0 + [Mark(op, state)];
    }

    /** One operation of `dispatch_pending`: look before posting, and post only the stored payload, once. */
    method DispatchOne(op: nat, t: Turn, ghost c0: Client, ghost run0: seq<CStep>) returns (ok: bool, ghost at: nat, ghost run: seq<CStep>)
      requires Traces(c0, run0) && Resting()
      modifies this, store
      ensures Traces(c0, run) && Resting() && run0 <= run && TurnDone(c0, store.settings, run, |run0|, at, op, t, ok)
    {
      hide ClientInv, CNext, CExec, CValidRun, ToSend, TookAnswer;
      run := Await(c0, run0);
      OwnRests(run0, run, |run0|, Work);
      ghost var run1 := run;
      at := |run1|;
      match t.look {
        case Found(snapshot) =>
          ok, run := IngestAnswer(op, snapshot, t.lookAt, c0, run);
          if snapshot.op == op { OwnOne(run1, |run0|, Ingest(snapshot, t.lookAt), Work); }
        case NotThere =>
          ok, run := PostOne(op, t, c0, run);
          OwnParts(run1, run, |run0|, Work);
        case _ => ok := false;
      }
      assert run[..at] == run1;
    }

    /** The broker does not know the operation: post the stored payload, if it can still be used. */
    method PostOne(op: nat, t: Turn, ghost c0: Client, ghost run0: seq<CStep>) returns (ok: bool, ghost run: seq<CStep>)
      requires Traces(c0, run0) && Resting()
      modifies this, store
      ensures Traces(c0, run) && Resting() && run0 <= run
      ensures Own(run, |run0|, Work) == PostSteps(old(store.Db()), op, t) && |run0| < |run| && IsWork(run[|run0|])
      ensures Posts(old(store.Db()), op, t) ==> Offered(run, op, t.answer, t.answerAt)
      ensures ok <==> (Posts(old(store.Db()), op, t) ==> t.answer.RefusedForGood? || TookAnswer(c0, store.settings, run, op, t.answer, t.answerAt))
    {
      hide ClientInv, CNext, CExec, CValidRun, ToSend, TookAnswer, Offered;
      ok := true;
      var payload := store.Payload(op, t.now);
      if payload.None? {
        run := MarkAs(op, Uncertain, c0, run0);
        OwnOne(run0, |run0|, Mark(op, Uncertain), Work);
        return;
      }
      if t.keyLost {
        run := MarkAs(op, KeyUnavailable, c0, run0);
        OwnOne(run0, |run0|, Mark(op, KeyUnavailable), Work);
        return;
      }
      ok, run := PostPayload(op, payload.value, t, c0, run0);
    }

    /** The one post, and what its answer leads to. */
    method PostPayload(op: nat, payload: Request, t: Turn, ghost c0: Client, ghost run0: seq<CStep>) returns (ok: bool, ghost run: seq<CStep>)
      requires Traces(c0, run0) && Resting() && ToSend(store.Db(), op, t.now) == Some(payload)
      modifies this, store
      ensures Traces(c0, run) && Resting() && run0 <= run && |run0| < |run| && run[|run0|] == Post(op, t.now)
      ensures Own(run, |run0|, Work) == [Post(op, t.now)] + if t.answer.RefusedForGood? then [Mark(op, Rejected)] else []
      ensures Offered(run, op, t.answer, t.answerAt)
      ensures ok <==> t.answer.RefusedForGood? || TookAnswer(c0, store.settings, run, op, t.answer, t.answerAt)
    {
      hide ClientInv, CNext, CExec, CValidRun, ToSend, TookAnswer;
      ghost var c := Abs();
      SmallNext(c, store.settings, Post(op, t.now));
      posts := posts + {payload};
      Took(c0, run0, c, Post(op, t.now));
      OwnOne(run0, |run0|, Post(op, t.now), Work);
      run := Await(c0, run0 + [Post(op, t.now)]);
      OwnRests(run0 + [Post(op, t.now)], run, |run0|, Work);
      ghost var run1 := run;
      match t.answer {
        case Found(snapshot) =>
          ok, run := IngestAnswer(op, snapshot, t.answerAt, c0, run);
          if snapshot.op == op { OwnOne(run1, |run0|, Ingest(snapshot, t.answerAt), Work); }
        case RefusedForGood =>
          ok := true;
          run := MarkAs(op, Rejected, c0, run);
          OwnOne(run1, |run0|, Mark(op, Rejected), Work);
        case _ =>
          ok := false;
          NoAnswer(c0, store.settings, run, op, t.answer, t.answerAt);
      }
    }

    /** `dispatch_pending`: every operation that waits to be sent has its turn, up to the first one that fails; `marks` says
        where each turn begins, `starts` where its own steps do. */
    method DispatchPending(world: nat -> Turn)
      returns (ok: bool, order: seq<nat>, ghost marks: seq<nat>, ghost starts: seq<nat>, ghost run: seq<CStep>)
      requires Valid() && Resting()
      modifies this, store
      ensures Traces(old(Abs()), run) && Resting()
      ensures Distinct(order) && forall o :: o in order ==> o in Waiting(old(store.operations))
      ensures ok ==> forall o :: o in Waiting(old(store.operations)) ==> o in order
      ensures !ok ==> order != []
      ensures AllDispatched(old(Abs()), store.settings, run, order, marks, starts, world, ok)
    {
      ghost var c0 := Abs();
      run, order, marks, starts := [], [], [0], [];
      var todo := store.Ids(true);
      ghost var all := todo;
      assert all == Waiting(store.operations);
      assert Traces(c0, run);
      hide ClientInv, CExec, CValidRun, TurnDone;
      ok := true;
      while todo != {} && ok
        invariant Traces(c0, run) && Resting() && todo <= all && (!ok ==> order != [])
        invariant Distinct(order) && (forall o :: o in all <==> o in todo || o in order) && (forall o :: o in todo ==> o !in order)
        invariant AllDispatched(c0, store.settings, run, order, marks, starts, world, ok)
        decreases todo
      {
        var op :| op in todo;
        todo := todo - {op};
        ghost var run0 := run;
        ghost var at;
        ok, at, run := DispatchOne(op, world(op), c0, run);
        DispatchedMore(c0, store.settings, run0, run, order, marks, starts, op, at, world, ok);
        order, marks, starts := order + [op], marks + [|run|], starts + [at];
      }
    }

    /** `flush_receipts`: the receipts the broker has not seen are sent one by one up to the first that is not taken; exactly
        those it took are marked sent. */
    method FlushReceipts(takes: Receipt -> bool) returns (ok: bool, order: seq<Receipt>, ghost run: seq<CStep>)
      requires Valid() && Resting()
      modifies this, store
      ensures Traces(old(Abs()), run) && Resting()
      ensures Distinct(order) && (forall r :: r in order ==> r in old(store.receipts) && !old(store.receipts)[r] && takes(r))
      ensures ok ==> forall r :: r in old(store.receipts) && !old(store.receipts)[r] ==> r in order
      ensures !ok ==> exists r :: r in old(store.receipts) && !old(store.receipts)[r] && r !in order && !takes(r)
      ensures Own(run, 0, Work) == Sents(order)
    {
      ghost var c0 := Abs();
      run, order, ok := [], [], true;
      var todo := store.UnsentReceipts();
      ghost var all := todo;
      assert Traces(c0, run);
      hide ClientInv, CNext, CExec, CValidRun;
      while todo != {}
        invariant Traces(c0, run) && Resting() && todo <= all && ok
        invariant Distinct(order) && (forall r :: r in all <==> r in todo || r in order) && (forall r :: r in todo ==> r !in order)
        invariant (forall r :: r in order ==> takes(r)) && Own(run, 0, Work) == Sents(order)
      {
        var r :| r in todo;
        todo := todo - {r};
        ghost var run0 := run;
        run := Await(c0, run);
        OwnRests(run0, run, 0, Work);
        if !takes(r) {
          assert r in all;
          return false, order, run;
        }
        ghost var c := Abs();
        SmallNext(c, store.settings, Sent(r));
        store.ReceiptSent(r);
        Took(c0, run, c, Sent(r));
        OwnOne(run, 0, Sent(r), Work);
        run := run + [Sent(r)];
        assert (order + [r])[..|order|] == order;
        order := order + [r];
      }
    }

    // -------------------------------------------------------------- gap recovery

    /** The event reader awaits: `MeanwhileReading` shows that no run of other steps touches its state. */
    method AwaitReading(ghost c0: Client, ghost run0: seq<CStep>) returns (ghost run: seq<CStep>)
      requires Traces(c0, run0)
      modifies this, store
      ensures Traces(c0, run) && stream == old(stream) && recovery == old(recovery)
      ensures run0 <= run && forall i :: |run0| <= i < |run| ==> !IsReading(run[i])
    {
      run := run0;
    }

    /** One step of the reader that changes only its own, volatile state. */
    ghost method Note(s: CStep, next: Recovery, c0: Client, run0: seq<CStep>) returns (run: seq<CStep>)
      requires Traces(c0, run0) && CEnabled(Abs(), s) && CNext(Abs(), store.settings, s) == Abs().(recovery := next)
      modifies this`recovery
      ensures Traces(c0, run) && recovery == next && run == run0 + [s]
    {
      hide ClientInv, CEnabled, CNext, CExec, CValidRun;
      var c := Abs();
      recovery := next;
      Took(c0, run0, c, s);
      run := run0 + [s];
    }

    /** One operation of `recover` after a gap: what the broker answers is ingested; that it does not know the operation is
        as good; anything else ends the recovery. */
    method FetchOne(op: nat, resume: nat, answer: Answered, now: int, ghost todo: set<nat>, ghost c0: Client, ghost run0: seq<CStep>)
      returns (ok: bool, ghost run: seq<CStep>)
      requires Traces(c0, run0) && recovery == Fetching(resume, todo) && op in todo
      modifies this, store
      ensures Traces(c0, run) && recovery == if ok then Fetching(resume, todo - {op}) else Idle
      ensures run0 <= run && Own(run, |run0|, Reading) == FetchSteps(op, answer, now)
      ensures ok <==> answer.NotThere? || TookFetch(c0, store.settings, run, op, answer, now)
    {
      hide ClientInv, CNext, CEnabled, CExec, CValidRun, TookFetch;
      run := AwaitReading(c0, run0);
      OwnRests(run0, run, |run0|, Reading);
      ghost var run1 := run;
      if answer.Found? && answer.snapshot.op == op {
        ok, run := TakeFetched(op, resume, answer, now, todo, c0, run);
      } else {
        NotFetched(c0, store.settings, op, answer, now);
        ok := answer.NotThere?;
        ghost var c := Abs();
        ReadingEnabled(c, Missing(op));
        ReadingEnabled(c, AbortRecovery);
        if ok {
          ReadingNext(c, store.settings, Missing(op));
          run := Note(Missing(op), Fetching(resume, todo - {op}), c0, run);
        } else {
          ReadingNext(c, store.settings, AbortRecovery);
          run := Note(AbortRecovery, Idle, c0, run);
        }
      }
      OwnOne(run1, |run0|, run[|run1|], Reading);
    }

    /** A fetched snapshot is merged; one that is refused ends the recovery. */
    method TakeFetched(op: nat, resume: nat, answer: Answered, now: int, ghost todo: set<nat>, ghost c0: Client, ghost run0: seq<CStep>)
      returns (ok: bool, ghost run: seq<CStep>)
      requires Traces(c0, run0) && recovery == Fetching(resume, todo) && op in todo && answer.Found? && answer.snapshot.op == op
      modifies this, store
      ensures Traces(c0, run) && recovery == if ok then Fetching(resume, todo - {op}) else Idle
      ensures run == run0 + [Fetched(answer.snapshot, now)] && (ok <==> TookFetch(c0, store.settings, run, op, answer, now))
    {
      hide ClientInv, CNext, CExec, CValidRun, CL.AcceptSnapshot;
      ghost var c := Abs();
      ghost var s := Fetched(answer.snapshot, now);
      ReadingNext(c, store.settings, s);
      var reply := store.AcceptSnapshot(answer.snapshot, None, now);
      ok := reply.Ok?;
      recovery := if ok then Fetching(resume, todo - {op}) else Idle;
      heard := heard + Heard(answer.snapshot, ok);
      Took(c0, run0, c, s);
      run := run0 + [s];
      assert run[..|run| - 1] == run0;
    }

    /** Notice the gap, then list the live operations. */
    method BeginGap(resume: nat, ghost c0: Client) returns (todo: set<nat>, ghost at: nat, ghost run: seq<CStep>)
      requires Traces(c0, []) && stream.None? && recovery.Idle?
      modifies this, store
      ensures Traces(c0, run) && recovery == Fetching(resume, todo)
      ensures Own(run, 0, Reading) == [Gap(resume), BeginRecovery] && ListedAt(c0, store.settings, run, at, todo)
    {
      hide ClientInv, CNext, CExec, CValidRun;
      ReadingNext(Abs(), store.settings, Gap(resume));
      OwnOne([], 0, Gap(resume), Reading);
      run := Note(Gap(resume), Noticed(resume), c0, []);
      ghost var run1 := run;
      run := AwaitReading(c0, run);
      OwnRests(run1, run, 0, Reading);
      todo := store.Ids(false);
      ReadingNext(Abs(), store.settings, BeginRecovery);
      assert Live(store.operations) == todo;
      OwnOne(run, 0, BeginRecovery, Reading);
      at := |run|;
      run := Note(BeginRecovery, Fetching(resume, todo), c0, run);
      assert run[..at] == run[..|run| - 1];
    }

    method FinishGap(resume: nat, ghost c0: Client, ghost run0: seq<CStep>) returns (ghost run: seq<CStep>)
      requires Traces(c0, run0) && recovery == Fetching(resume, {})
      modifies this, store
      ensures Traces(c0, run) && recovery.Idle? && store.cursor >= resume && run == run0 + [FinishRecovery]
    {
      hide ClientInv, CNext, CExec, CValidRun;
      ghost var c := Abs();
      ReadingNext(c, store.settings, FinishRecovery);
      store.Advance(resume);
      recovery := Idle;
      Took(c0, run0, c, FinishRecovery);
      run := run0 + [FinishRecovery];
    }

    /** The 410 branch of `_events`: fetch every live operation, then move the cursor to the broker's watermark, and
        only if every fetch succeeded; the first one that fails ends it.  `at` is where the operations were listed. */
    method RecoverGap(resume: nat, answers: nat -> Answered, clock: nat -> int)
      returns (ok: bool, order: seq<nat>, ghost listed: set<nat>, ghost at: nat, ghost run: seq<CStep>)
      requires Valid() && stream.None? && recovery.Idle?
      modifies this, store
      ensures Traces(old(Abs()), run) && recovery.Idle? && (ok ==> store.cursor >= resume)
      ensures Own(run, 0, Reading) == [Gap(resume), BeginRecovery] + Fetches(order, answers, clock) + if ok then [FinishRecovery] else []
      ensures ListedAt(old(Abs()), store.settings, run, at, listed)
      ensures Distinct(order) && (forall o :: o in order ==> o in listed) && (ok ==> forall o :: o in listed ==> o in order)
      ensures !ok ==> EndsBadly(old(Abs()), store.settings, run, order, answers, clock)
    {
      hide ClientInv, CNext, CEnabled, CExec, CValidRun, TookFetch, ListedAt, Own, Fetches, FetchSteps, EndsBadly;
      ghost var c0 := Abs();
      NoSteps();
      var todo;
      order := [];
      todo, at, run := BeginGap(resume, c0);
      NoFetches(answers, clock);
      listed := todo;
      ok := true;
      while todo != {} && ok
        invariant Traces(c0, run) && recovery == if ok then Fetching(resume, todo) else Idle
        invariant ListedAt(c0, store.settings, run, at, listed)
        invariant Distinct(order) && (forall o :: o in listed <==> o in todo || o in order) && (forall o :: o in todo ==> o !in order)
        invariant Own(run, 0, Reading) == [Gap(resume), BeginRecovery] + Fetches(order, answers, clock)
        invariant !ok ==> EndsBadly(c0, store.settings, run, order, answers, clock)
        decreases todo
      {
        var op :| op in todo;
        ghost var run0 := run;
        ok, run := FetchOne(op, resume, answers(op), clock(op), todo, c0, run);
        OwnParts(run0, run, 0, Reading);
        ListedStill(c0, store.settings, run0, run, at, listed);
        FetchesMore(order, op, answers, clock);
        EndsWith(c0, store.settings, run, order, op, answers, clock);
        todo := todo - {op};
        order := order + [op];
      }
      ghost var run1 := run;
      if ok {
        run := FinishGap(resume, c0, run);
        OwnOne(run1, 0, FinishRecovery, Reading);
        ListedStill(c0, store.settings, run1, run, at, listed);
      }
    }

    // -------------------------------------------------------------- cancel

    /** A tool call awaits: anything but a restart may happen; `MeanwhileCancelling` shows what that leaves. */
    method AwaitTool(ghost c0: Client, ghost run0: seq<CStep>) returns (ghost run: seq<CStep>)
      requires Traces(c0, run0)
      modifies this, store
      ensures Traces(c0, run) && run0 <= run && CancelsStay(old(Abs()), Abs())
    {
      run := run0;
    }

    /** `cancel`: the intent is written down before the single post, and a lost answer is never repeated.  What is stored in
        the end is whether an answer about the operation was ingested. */
    method Cancel(op: nat, thread: string, answer: Answered, now: int) returns (posted: bool, ghost run: seq<CStep>)
      requires Valid()
      modifies this, store
      ensures Traces(old(Abs()), run)
      ensures posted <==> op in old(store.operations) && old(store.operations)[op].origin.thread == thread && old(store.operations)[op].cancel.None?
      ensures !posted ==> run == []
      ensures posted ==> |run| >= 2 && run[0] == CancelPost(op) && Concluded(old(Abs()), store.settings, run, op, answer, now)
      ensures posted ==> op in store.operations
      ensures posted && TookAnswer(old(Abs()), store.settings, run[..|run| - 1], op, answer, now) ==> store.operations[op].cancel == Some(Requested)
      ensures posted && !TookAnswer(old(Abs()), store.settings, run[..|run| - 1], op, answer, now) ==> store.operations[op].cancel == Some(CancelUnknown)
    {
      hide ClientInv, CNext, CEnabled, CExec, CValidRun, TookAnswer, Concluded;
      ghost var c0 := Abs();
      run := [];
      NoSteps();
      var row := store.Row(op, Some(thread));
      posted := row.Ok? && row.value.cancel == None;
      if !posted { return; }
      run := Intend(op);
      run := Canceled(op, answer, now, c0, run);
    }

    /** The intent is written down, then the one post is made. */
    method Intend(op: nat) returns (ghost run: seq<CStep>)
      requires Valid() && op in store.operations && store.operations[op].cancel.None?
      modifies this, store
      ensures Traces(old(Abs()), run) && run == [CancelPost(op)] && op in store.operations && store.operations[op].cancel.Some?
    {
      ghost var c0 := Abs();
      assert Traces(c0, []);
      hide ClientInv, CNext, CExec, CValidRun;
      SmallNext(c0, store.settings, CancelPost(op));
      store.SetCancel(op, Sending);
      cancelPosts := cancelPosts + [op];
      Took(c0, [], c0, CancelPost(op));
      run := [CancelPost(op)];
      assert [] + [CancelPost(op)] == run;
    }

    method Canceled(op: nat, answer: Answered, now: int, ghost c0: Client, ghost run0: seq<CStep>) returns (ghost run: seq<CStep>)
      requires Traces(c0, run0) && op in store.operations && store.operations[op].cancel.Some?
      modifies this, store
      ensures Traces(c0, run) && run0 <= run && |run0| < |run| && Concluded(c0, store.settings, run, op, answer, now)
      ensures op in store.operations && store.operations[op].cancel
        == Some(if TookAnswer(c0, store.settings, run[..|run| - 1], op, answer, now) then Requested else CancelUnknown)
    {
      hide ClientInv, CNext, CExec, CValidRun, TookAnswer;
      run := AwaitTool(c0, run0);
      var ok := false;
      if answer.Found? { ok, run := IngestAnswer(op, answer.snapshot, now, c0, run); } else { NoAnswer(c0, store.settings, run, op, answer, now); }
      ghost var run1, c := run, Abs();
      SmallNext(c, store.settings, CancelReturned(op, ok));
      store.SetCancel(op, if ok then Requested else CancelUnknown);
      Took(c0, run, c, CancelReturned(op, ok));
      run := run + [CancelReturned(op, ok)];
      assert run[..|run| - 1] == run1;
    }
  }

  lemma IngestEnabled(c: Client, cfg: ClientSettings, s: Snapshot, now: int)
    ensures CEnabled(c, Ingest(s, now))
    ensures var r := CL.AcceptSnapshot(c.db, cfg, s, None, now); r.1.Err? ==> r.0 == c.db
  {
  }

  lemma SmallNext(c: Client, cfg: ClientSettings, s: CStep)
    requires CEnabled(c, s)
    ensures s.Ingest? ==>
      var r := CL.AcceptSnapshot(c.db, cfg, s.s, None, s.now);
      CNext(c, cfg, s) == c.(db := r.0, heard := c.heard + Heard(s.s, r.1.Ok?))
    ensures s.Mark? ==> CNext(c, cfg, s) == c.(db := CL.MarkSubmission(c.db, s.op, s.state))
    ensures s.Post? ==> ToSend(c.db, s.op, s.now).Some? && CNext(c, cfg, s) == c.(posts := c.posts + {ToSend(c.db, s.op, s.now).value})
    ensures s.Sent? ==> CNext(c, cfg, s) == c.(db := MarkSent(c.db, s.receipt))
    ensures s.CancelPost? ==> CNext(c, cfg, s) == c.(db := CL.SetCancel(c.db, s.op, Sending), cancelPosts := c.cancelPosts + [s.op])
    ensures s.CancelReturned? ==> CNext(c, cfg, s) == c.(db := CL.SetCancel(c.db, s.op, if s.ok then Requested else CancelUnknown))
  {
    hide CL.AcceptSnapshot, CL.MarkSubmission, ToSend, MarkSent, CL.SetCancel, CL.Create;
  }

  lemma ReadingEnabled(c: Client, s: CStep)
    requires c.recovery.Fetching? && ((s.Missing? && s.op in c.recovery.todo) || s.AbortRecovery?)
    ensures CEnabled(c, s)
  {
  }

  lemma ReadingNext(c: Client, cfg: ClientSettings, s: CStep)
    requires CEnabled(c, s)
    ensures s.Gap? ==> CNext(c, cfg, s) == c.(recovery := Noticed(s.resume))
    ensures s.BeginRecovery? ==> c.recovery.Noticed? && CNext(c, cfg, s) == c.(recovery := Fetching(c.recovery.resume, Live(c.db.ops)))
    ensures s.Missing? ==> c.recovery.Fetching? && CNext(c, cfg, s) == c.(recovery := Fetching(c.recovery.resume, c.recovery.todo - {s.op}))
    ensures s.Fetched? ==>
      && c.recovery.Fetching?
      && var r := CL.AcceptSnapshot(c.db, cfg, s.s, None, s.now);
         CNext(c, cfg, s) == c.(db := r.0, recovery := if r.1.Ok? then Fetching(c.recovery.resume, c.recovery.todo - {s.s.op}) else Idle,
                                heard := c.heard + Heard(s.s, r.1.Ok?))
    ensures s.FinishRecovery? ==> c.recovery.Fetching? && CNext(c, cfg, s) == c.(db := CL.Advance(c.db, c.recovery.resume), recovery := Idle)
    ensures s.AbortRecovery? ==> CNext(c, cfg, s) == c.(recovery := Idle)
  {
    hide CL.AcceptSnapshot, CL.Create, CL.Advance, Live;
  }

  lemma ReconciledNext(c: Client, cfg: ClientSettings, op: nat, queueId: string)
    requires c.inflight.None? && op in c.db.ops && c.db.ops[op].delivery.EnqueueUnknown?
    ensures CEnabled(c, Reconciled(op, queueId))
    ensures CNext(c, cfg, Reconciled(op, queueId)) == c.(db := CL.FinishDelivery(c.db, op, Queued, Some(queueId)))
  {
  }

  lemma DeliverNext(c: Client, cfg: ClientSettings, op: nat, now: int, deliveryId: nat, supported: bool)
    requires c.inflight.None? && Deliverable(c.db, op, now)
    ensures CEnabled(c, Deliver(op, now, deliveryId, supported)) && c.db.ops[op].snapshot.Some? && c.db.ops[op].snapshot.value.resultId.Some?
    ensures var db := CL.ClaimDelivery(c.db, op, deliveryId);
      CNext(c, cfg, Deliver(op, now, deliveryId, supported))
        == if supported then c.(db := db, inflight := Some(op), enqueues := c.enqueues + [Enqueue(op, c.db.ops[op].snapshot.value.resultId.value)])
           else c.(db := CL.FinishDelivery(db, op, Unsupported, None))
  {
  }
}
