/** What becomes of an operation submitted to the peer: what its stream job may do and must do with every result. */
module Submissions {
  import opened Common
  import opened L = Ledger
  import opened LI = LedgerInvariant
  import opened B = Broker
  import opened BrokerInvariant
  import opened Runs
  import opened DispatcherSteps
  import opened FreshJobs
  import opened Finality
  import BT = BrokerTheorems
  import TR = Transactions
  import LT = Lifetimes
  import opened Base64
  import opened PeerChunks

  /** `run` continues `run0` with steps of other coroutines only, none of them a read job of `k`. */
  ghost predicate Extends(run0: seq<Step>, run: seq<Step>, k: Key) {
    run0 <= run && forall i :: |run0| <= i < |run| ==> Other(run[i], k) && !ReadOf(run[i], k)
  }

  /** What a stream of results has shown: a completed task, a terminal one. */
  datatype Seen = Seen(completed: bool, terminal: bool)

  /** A step by which the stream job of `k` reports a completed task. */
  predicate ReportsCompleted(s: Step, k: Key) {
    s.Observe? && s.table.Streams? && s.k == k && s.completed
  }

  /** A step by which the stream job of `k` makes its operation final. */
  predicate Settles(s: Step, k: Key) {
    s.Settle? && s.table.Streams? && s.k == k
  }

  predicate Backed(s: Step, k: Key, seen: Seen) {
    (ReportsCompleted(s, k) ==> seen.completed) && (Settles(s, k) ==> seen.terminal) && !ReadOf(s, k)
  }

  /** `run` continues `run0`; the job of `k` itself reports and settles only what it saw. */
  ghost predicate Adds(run0: seq<Step>, run: seq<Step>, k: Key, seen: Seen) {
    run0 <= run && forall i :: |run0| <= i < |run| ==> Backed(run[i], k, seen)
  }

  lemma ExtendsAdds(run0: seq<Step>, run: seq<Step>, k: Key)
    requires Extends(run0, run, k)
    ensures forall seen: Seen :: Adds(run0, run, k, seen)
  {
  }

  lemma ExtendsTrans(run0: seq<Step>, run1: seq<Step>, run2: seq<Step>, k: Key)
    requires Extends(run0, run1, k) && Extends(run1, run2, k)
    ensures Extends(run0, run2, k)
  {
    hide Other;
  }

  lemma AddsMore(run0: seq<Step>, run1: seq<Step>, run2: seq<Step>, k: Key, seen: Seen)
    requires Adds(run0, run1, k, seen) && (Extends(run1, run2, k) || Adds(run1, run2, k, seen))
    ensures Adds(run0, run2, k, seen)
  {
  }

  lemma Continues(run0: seq<Step>, run: seq<Step>, k: Key, seen: Seen)
    requires Adds(run0, run, k, seen)
    ensures run0 <= run
  {
  }

  lemma AddsOne(run0: seq<Step>, run: seq<Step>, s: Step, k: Key, seen: Seen)
    requires Adds(run0, run, k, seen) && Backed(s, k, seen)
    ensures Adds(run0, run + [s], k, seen)
  {
  }

  lemma CompletedBacked(cfg: Settings, b0: B.Broker, run: seq<Step>, k: Key, seen: Seen)
    requires ValidRun(b0, cfg, run) && Adds([], run, k, seen) && k in Exec(b0, cfg, run).completions && k !in b0.completions
    ensures seen.completed || exists s :: s in run && s.Observe? && s.k == k && s.completed && s.table.Cancels?
  {
    hide Exec, ValidRun;
    CompletionsFrom(b0, cfg, run, k);
    var s :| s in run && s.Observe? && s.k == k && s.completed;
    var i :| 0 <= i < |run| && run[i] == s;
    assert Backed(run[i], k, seen);
  }

  lemma FinalBacked(cfg: Settings, b0: B.Broker, run: seq<Step>, k: Key, seen: Seen)
    requires ValidRun(b0, cfg, run) && Adds([], run, k, seen) && Open(b0.db.ops, k) && !Open(Exec(b0, cfg, run).db.ops, k)
    ensures seen.terminal || exists s :: s in run && s.Settle? && s.k == k && s.table.Cancels?
  {
    hide Exec, ValidRun, Open;
    FinalFrom(b0, cfg, run, k);
    var s :| s in run && s.Settle? && s.k == k;
    var i :| 0 <= i < |run| && run[i] == s;
    assert Backed(run[i], k, seen);
  }

  /** What the invariant says about a stream job that has ended. */
  lemma ClosedJob(cfg: Settings, b: B.Broker, k: Key)
    requires Sound(cfg, b) && k in b.streams && b.streams[k].ended
    ensures k in b.db.ops && Terminal(b.db.ops[k].state) && (b.db.ops[k].state.Completed? ==> k in b.completions)
  {
    hide LI.LedgerInv, CapacityOk, ClaimsOk, SubmissionsOk, PeerCancelsOk, FreshOk, CompletionsKnown;
    assert JobOk(Streams, k, b.streams[k], b.db.ops);
  }

  /** What the invariant says about a stream job that has not begun. */
  lemma NotBegun(cfg: Settings, b: B.Broker, k: Key)
    requires Sound(cfg, b) && k in b.streams && Waits(b.streams[k])
    ensures k !in b.completions && Open(b.db.ops, k)
  {
    hide BrokerInv;
  }

  /** How the peer's states are taken. */
  predicate PeerFinal(state: string) {
    state == "completed" || state == "failed" || state == "canceled"
  }

  predicate PeerTerminal(state: string) {
    PeerFinal(state) || state == "rejected" || state == "input_required"
  }

  function OutcomeOf(state: string): OpState
    requires PeerFinal(state)
  {
    if state == "completed" then Completed else if state == "failed" then Failed else Canceled
  }

  predicate SawCompleted(results: seq<TaskResult>) {
    exists r :: r in results && r.state == "completed"
  }

  predicate SawTerminal(results: seq<TaskResult>) {
    exists r :: r in results && PeerTerminal(r.state)
  }

  function SeenIn(task: TaskResult): Seen {
    Seen(task.state == "completed", PeerTerminal(task.state))
  }

  lemma Saw(results: seq<TaskResult>, i: nat)
    requires i < |results|
    ensures SeenIn(results[i]).completed ==> SawCompleted(results)
    ensures SeenIn(results[i]).terminal ==> SawTerminal(results)
  {
    assert results[i] in results;
  }

  /** Errors after a terminal result that settle the operation as failed. */
  predicate Definite(code: Code) {
    code.ArtifactTooLarge? || code.ArtifactQuota? || code.UnsupportedPeerArtifact? || code.InvalidPeerArtifact? || code.ResultTooLarge?
  }

  datatype Observed = Handled | Raised(code: Code) | Interrupted

  /** How the peer stream stops when no terminal result ended the job. */
  datatype Ending = Eof | PeerFailure | TimedOut | Cancelled

  // ---------------------------------------------------------------- what the world decides

  /** The clock, the new id and the two content checks at one upload. */
  datatype Upload = Upload(now: int, id: nat, textPlain: bool, utf8: bool)

  /** What the world has in store while one result is awaited and handled: whether nothing interrupts the coroutine, the
      clock when the handle is saved, the uploads in order, and clock and new id when the operation is finished. */
  datatype World = World(calm: bool, savedAt: int, uploads: nat -> Upload, settledAt: int, uuid: nat)

  /** How results are written: the size of a final one, and the details kept of a refused one. */
  datatype ResultCodec = ResultCodec(size: (string, seq<nat>) -> nat, details: TaskResult -> string, detailsSize: TaskResult -> nat)

  // ---------------------------------------------------------------- artifacts

  function AsContent(b: seq<byte>): string {
    seq(|b|, i requires 0 <= i < |b| => b[i] as char)
  }

  predicate TypeOk(fields: map<string, string>) {
    "mediaType" in fields ==> |fields["mediaType"]| <= 128 && forall c :: c in fields["mediaType"] ==> ' ' <= c <= '~'
  }

  /** The parts that carry raw content, in order. */
  function Raws(parts: seq<Part>): seq<Part> {
    if parts == [] then []
    else
      var part := parts[|parts| - 1];
      Raws(parts[..|parts| - 1]) + (if part.Part? && part.raw.Some? then [part] else [])
  }

  function AllRaws(artifacts: seq<PeerArtifact>): seq<Part> {
    if artifacts == [] then [] else AllRaws(artifacts[..|artifacts| - 1]) + Raws(artifacts[|artifacts| - 1].parts)
  }

  /** What is wrong with a part in itself: a reference instead of content, content that cannot fit, or is not Base64. */
  function PartObstacle(cfg: Settings, part: Part): Option<Code> {
    if part.Junk? then None
    else if "url" in part.fields then Some(UnsupportedPeerArtifact)
    else if part.raw.None? then None
    else if |part.raw.value| > (cfg.maxArtifactBytes + 2) / 3 * 4 then Some(ArtifactTooLarge)
    else if Decode(part.raw.value).None? then Some(InvalidPeerArtifact)
    else None
  }

  /** The first such part decides. */
  function PartsObstacle(cfg: Settings, parts: seq<Part>): Option<Code> {
    if parts == [] then None
    else
      var before := PartsObstacle(cfg, parts[..|parts| - 1]);
      if before.Some? then before else PartObstacle(cfg, parts[|parts| - 1])
  }

  function Obstacle(cfg: Settings, artifacts: seq<PeerArtifact>): Option<Code> {
    if artifacts == [] then None
    else
      var before := Obstacle(cfg, artifacts[..|artifacts| - 1]);
      if before.Some? then before else PartsObstacle(cfg, artifacts[|artifacts| - 1].parts)
  }

  lemma {:induction false} PartsBlocked(cfg: Settings, parts: seq<Part>, n: nat)
    requires n <= |parts| && PartsObstacle(cfg, parts[..n]).Some?
    ensures PartsObstacle(cfg, parts) == PartsObstacle(cfg, parts[..n])
    decreases |parts| - n
  {
    if n < |parts| {
      assert parts[..n + 1][..n] == parts[..n];
      PartsBlocked(cfg, parts, n + 1);
    } else {
      assert parts[..n] == parts;
    }
  }

  lemma {:induction false} Blocked(cfg: Settings, artifacts: seq<PeerArtifact>, n: nat)
    requires n <= |artifacts| && Obstacle(cfg, artifacts[..n]).Some?
    ensures Obstacle(cfg, artifacts) == Obstacle(cfg, artifacts[..n])
    decreases |artifacts| - n
  {
    if n < |artifacts| {
      assert artifacts[..n + 1][..n] == artifacts[..n];
      Blocked(cfg, artifacts, n + 1);
    } else {
      assert artifacts[..n] == artifacts;
    }
  }

  /** Whatever Base64 content within the size limit a part carries, it is no obstacle, and what is stored are the bytes. */
  lemma PartWelcome(cfg: Settings, part: Part, b: seq<byte>)
    requires part.Part? && "url" !in part.fields && part.raw == Some(Encode(b)) && |b| <= cfg.maxArtifactBytes
    ensures PartObstacle(cfg, part).None? && Decode(part.raw.value) == Some(b)
  {
    hide Encode, Decode;
    RoundTrip(b);
    PrecheckBounds(cfg.maxArtifactBytes, b, Encode(b));
  }

  /** A part that is no obstacle refers to nothing outside, and what it carries decodes to at most two bytes more than
      the limit. */
  lemma PartBounded(cfg: Settings, part: Part)
    requires part.Part? && PartObstacle(cfg, part).None?
    ensures "url" !in part.fields
    ensures part.raw.Some? ==> Decode(part.raw.value).Some? && |Decode(part.raw.value).value| <= cfg.maxArtifactBytes + 2
  {
    hide Encode, Decode;
    if part.raw.Some? { PrecheckBounds(cfg.maxArtifactBytes, [], part.raw.value); }
  }

  lemma {:induction false} PartsFree(cfg: Settings, parts: seq<Part>)
    ensures PartsObstacle(cfg, parts).None? <==> forall p :: p in parts ==> PartObstacle(cfg, p).None?
    decreases |parts|
  {
    hide PartObstacle;
    if parts != [] {
      var before, last := parts[..|parts| - 1], parts[|parts| - 1];
      assert parts == before + [last];
      PartsFree(cfg, before);
    }
  }

  /** Nothing is in the way exactly if no part of any artifact is. */
  lemma {:induction false} ObstacleFree(cfg: Settings, artifacts: seq<PeerArtifact>)
    ensures Obstacle(cfg, artifacts).None? <==> forall a, p :: a in artifacts && p in a.parts ==> PartObstacle(cfg, p).None?
    decreases |artifacts|
  {
    hide PartObstacle, PartsObstacle;
    if artifacts != [] {
      var before, last := artifacts[..|artifacts| - 1], artifacts[|artifacts| - 1];
      assert artifacts == before + [last];
      ObstacleFree(cfg, before);
      PartsFree(cfg, last.parts);
    }
  }

  /** The upload of a raw part. */
  function UploadOf(d: string, part: Part, u: Upload): Step
    requires part.Part? && part.raw.Some? && Decode(part.raw.value).Some?
  {
    var content := AsContent(Decode(part.raw.value).value);
    UploadRequest(d, content, content, TypeOk(part.fields), u.textPlain, u.utf8, u.now, u.id)
  }

  ghost predicate Uploaded(run: seq<Step>, from: nat, d: string, part: Part, u: Upload) {
    && part.Part? && part.raw.Some? && Decode(part.raw.value).Some?
    && exists j :: from <= j < |run| && run[j] == UploadOf(d, part, u)
  }

  /** From position `from` on, the run uploads all these parts, as uploads number `first`, `first + 1`, and so on. */
  ghost predicate AllUploaded(run: seq<Step>, from: nat, d: string, raws: seq<Part>, w: World, first: nat) {
    forall i :: 0 <= i < |raws| ==> Uploaded(run, from, d, raws[i], w.uploads(first + i))
  }

  function Ids(w: World, first: nat, n: nat): (ids: seq<nat>)
    ensures |ids| == n
  {
    seq<nat>(n, i requires 0 <= i < n => w.uploads(first + i).id)
  }

  lemma UploadsStay(run: seq<Step>, run': seq<Step>, from: nat, from': nat, d: string, raws: seq<Part>, w: World, first: nat)
    requires AllUploaded(run, from, d, raws, w, first) && run <= run' && from' <= from
    ensures AllUploaded(run', from', d, raws, w, first)
  {
    hide UploadOf;
    forall i | 0 <= i < |raws| ensures Uploaded(run', from', d, raws[i], w.uploads(first + i)) {
      assert Uploaded(run, from, d, raws[i], w.uploads(first + i));
      var j :| from <= j < |run| && run[j] == UploadOf(d, raws[i], w.uploads(first + i));
      assert run'[j] == run[j];
    }
  }

  lemma UploadsMore(run: seq<Step>, from: nat, d: string, a: seq<Part>, b: seq<Part>, w: World, first: nat)
    requires AllUploaded(run, from, d, a, w, first) && AllUploaded(run, from, d, b, w, first + |a|)
    ensures AllUploaded(run, from, d, a + b, w, first)
    ensures Ids(w, first, |a| + |b|) == Ids(w, first, |a|) + Ids(w, first + |a|, |b|)
  {
    hide Uploaded;
    forall i | 0 <= i < |a + b| ensures Uploaded(run, from, d, (a + b)[i], w.uploads(first + i)) {
      if i >= |a| { assert Uploaded(run, from, d, b[i - |a|], w.uploads(first + |a| + (i - |a|))); }
    }
  }

  // ---------------------------------------------------------------- why a result cannot be handled

  /** The last step of the run was refused with this code. */
  ghost predicate StepRefused(b0: B.Broker, cfg: Settings, run: seq<Step>, code: Code) {
    && run != [] && ValidRun(b0, cfg, run[..|run| - 1])
    && var db := Exec(b0, cfg, run[..|run| - 1]).db;
       match run[|run| - 1]
       case Observe(_, k, handle, _, _, now) => L.SaveHandle(db, cfg, k, handle, now).reply == Err(code)
       case UploadRequest(d, content, digest, typeOk, textPlain, utf8, now, id) =>
         L.PutArtifact(db, cfg, d, content, digest, typeOk, textPlain, utf8, now, id).reply == Err(code)
       case _ => false
  }

  /** The last step is the upload of one of these parts. */
  ghost predicate UploadsLast(run: seq<Step>, d: string, raws: seq<Part>, w: World) {
    && run != []
    && exists part, n: nat :: part in raws && part.Part? && part.raw.Some? && Decode(part.raw.value).Some? && run[|run| - 1] == UploadOf(d, part, w.uploads(n))
  }

  /** Storing these artifacts fails: one of the parts is no good, or the ledger has just refused to store one. */
  ghost predicate Unstorable(b0: B.Broker, cfg: Settings, run: seq<Step>, d: string, raws: seq<Part>, obstacle: Option<Code>, w: World, code: Code) {
    obstacle == Some(code) || (StepRefused(b0, cfg, run, code) && UploadsLast(run, d, raws, w))
  }

  lemma UnstorableMore(b0: B.Broker, cfg: Settings, run: seq<Step>, d: string, raws: seq<Part>, obstacle: Option<Code>, all: seq<Part>,
                       whole: Option<Code>, w: World, code: Code)
    requires Unstorable(b0, cfg, run, d, raws, obstacle, w, code) && (obstacle.Some? ==> whole == obstacle) && forall p :: p in raws ==> p in all
    ensures Unstorable(b0, cfg, run, d, all, whole, w, code)
  {
    hide StepRefused, UploadOf;
  }

  /** The step by which the stream job saves the handle of a result. */
  function Saving(k: Key, task: TaskResult, w: World): Step {
    Observe(Streams, k, task.taskId, PeerTerminal(task.state), task.state == "completed", w.savedAt)
  }

  /** A result fails with this code: its handle was refused, or its artifacts cannot be stored. */
  ghost predicate Hindered(b0: B.Broker, cfg: Settings, run: seq<Step>, k: Key, task: TaskResult, w: World, code: Code) {
    || (StepRefused(b0, cfg, run, code) && run[|run| - 1] == Saving(k, task, w))
    || (PeerFinal(task.state) && Unstorable(b0, cfg, run, k.device, AllRaws(task.artifacts), Obstacle(cfg, task.artifacts), w, code))
  }

  // ---------------------------------------------------------------- how a result ends the job

  /** The step that settles a terminal result: text and stored artifacts of a final one, the reason of a refused one. */
  function SettlingOf(codec: ResultCodec, k: Key, task: TaskResult, w: World): Step
    requires PeerTerminal(task.state)
  {
    if PeerFinal(task.state) then
      var ids := Ids(w, 0, |AllRaws(task.artifacts)|);
      Settle(Streams, k, OutcomeOf(task.state), Some(Content(task.text, ids, codec.size(task.text, ids))), None, w.settledAt, w.uuid)
    else
      Settle(Streams, k, Failed, Some(Diagnostics(codec.details(task), codec.detailsSize(task))),
             Some(if task.state == "input_required" then PeerRequiresInput else PeerRejected), w.settledAt, w.uuid)
  }

  /** The run ends with that step, after everything it mentions was stored; nothing stood in the way. */
  ghost predicate SettledAs(cfg: Settings, codec: ResultCodec, run: seq<Step>, from: nat, k: Key, task: TaskResult, w: World) {
    && PeerTerminal(task.state) && run != [] && run[|run| - 1] == SettlingOf(codec, k, task, w)
    && (PeerFinal(task.state) ==> Obstacle(cfg, task.artifacts).None? && AllUploaded(run, from, k.device, AllRaws(task.artifacts), w, 0))
  }

  /** The error that stood in the way settles the operation as failed. */
  ghost predicate FailsFor(b0: B.Broker, cfg: Settings, run: seq<Step>, k: Key, task: TaskResult, w: World, code: Code) {
    && PeerTerminal(task.state) && Definite(code) && run != [] && Hindered(b0, cfg, run[..|run| - 1], k, task, w, code)
    && run[|run| - 1] == Settle(Streams, k, Failed, None, Some(code), w.settledAt, w.uuid)
  }

  /** The error that stood in the way says nothing definite. */
  ghost predicate Baffled(b0: B.Broker, cfg: Settings, run: seq<Step>, k: Key, task: TaskResult, w: World, code: Code) {
    run != [] && Hindered(b0, cfg, run[..|run| - 1], k, task, w, code) && !(PeerTerminal(task.state) && Definite(code))
  }

  /** How a result ends the job.  A terminal one is settled as it says, found final already, or failed for a definite error.
      The job is given up only for an interruption or another error. */
  ghost predicate Concluded(b0: B.Broker, cfg: Settings, codec: ResultCodec, run: seq<Step>, from: nat, k: Key, task: TaskResult, w: World) {
    && run != []
    && var last := run[|run| - 1];
       || SettledAs(cfg, codec, run, from, k, task, w)
       || (PeerTerminal(task.state) && last == EndJob(Streams, k))
       || (exists code :: FailsFor(b0, cfg, run, k, task, w, code))
       || (last == GiveUp(k, w.settledAt, w.uuid) && (!w.calm || exists code :: Baffled(b0, cfg, run, k, task, w, code)))
  }

  /** The result ends the stream: it is terminal and says for which task. */
  predicate Decisive(task: TaskResult) {
    task.taskId != "" && PeerTerminal(task.state)
  }

  /** The operation has this handle, or was final before it could be saved. */
  predicate HandleKept(ops: map<Key, Row>, k: Key, handle: string) {
    k in ops && (ops[k].handle == Some(handle) || Final(ops[k].state))
  }

  lemma HandleSaved(db: L.Ledger, cfg: Settings, k: Key, handle: string, now: int)
    ensures var r := L.SaveHandle(db, cfg, k, handle, now); r.reply.Ok? ==> HandleKept(r.db.ops, k, handle)
  {
    hide SnapshotOf;
  }

  /** It stays so in every later state of a run. */
  lemma HandleStays(cfg: Settings, b0: B.Broker, run0: seq<Step>, run: seq<Step>, k: Key, handle: string)
    requires Sound(cfg, b0) && ValidRun(b0, cfg, run) && run0 <= run && ValidRun(b0, cfg, run0)
    requires HandleKept(Exec(b0, cfg, run0).db.ops, k, handle)
    ensures HandleKept(Exec(b0, cfg, run).db.ops, k, handle)
  {
    hide Sound, BrokerInv, LI.LedgerEvolves;
    InvariantOf(cfg, b0);
    RunSplit(b0, cfg, run, |run0|);
    assert run[..|run0|] == run0;
    BT.RunKeeps(cfg, b0, run0);
    var b1 := Exec(b0, cfg, run0);
    BT.RunKeeps(cfg, b1, run[|run0|..]);
    LT.Evolved(b1.db, Exec(b0, cfg, run).db);
    assert LI.RowEvolves(b1.db.ops[k], Exec(b0, cfg, run).db.ops[k]);
  }

  lemma InvariantOf(cfg: Settings, b: B.Broker)
    requires Sound(cfg, b)
    ensures BrokerInv(cfg, b)
  {
    hide BrokerInv;
  }

  /** A result that was settled is what every reader is shown, until its time to live is over, unless a cancel job settled
      the operation first. */
  lemma SettledIsShown(cfg: Settings, codec: ResultCodec, b0: B.Broker, run: seq<Step>, from: nat, k: Key, task: TaskResult, w: World, t: int)
    requires ValidRun(b0, cfg, run) && SettledAs(cfg, codec, run, from, k, task, w) && PeerFinal(task.state)
    requires var ids := Ids(w, 0, |AllRaws(task.artifacts)|); codec.size(task.text, ids) <= cfg.maxResultBytes
    requires ValidRun(b0, cfg, run[..|run| - 1])
    requires var ops := Exec(b0, cfg, run[..|run| - 1]).db.ops; k in ops && !Final(ops[k].state)
    ensures var g := L.Get(Exec(b0, cfg, run).db, k, t); var ids := Ids(w, 0, |AllRaws(task.artifacts)|);
      && g.Ok? && g.value.state == OutcomeOf(task.state)
      && (t < w.settledAt + cfg.resultTtl ==>
            g.value.result == Some(Content(task.text, ids, codec.size(task.text, ids))) && g.value.error.None?)
      && (t >= w.settledAt + cfg.resultTtl ==> g.value.result.None? && g.value.error == Some(SnapError(ResultExpired, None)))
  {
    hide ValidRun, Exec, L.Finish, AllUploaded, Obstacle, AllRaws, Ids;
    var before := run[..|run| - 1];
    var ids := Ids(w, 0, |AllRaws(task.artifacts)|);
    var result := Content(task.text, ids, codec.size(task.text, ids));
    LastStep(b0, cfg, run);
    LT.SettleDb(cfg, Exec(b0, cfg, before), Streams, k, OutcomeOf(task.state), result, w.settledAt, w.uuid);
    TR.FinishShows(Exec(b0, cfg, before).db, cfg, k, OutcomeOf(task.state), result, w.settledAt, w.uuid);
    assert L.Get(Exec(b0, cfg, run).db, k, t).Ok?;
  }

  lemma LastStep(b0: B.Broker, cfg: Settings, run: seq<Step>)
    requires ValidRun(b0, cfg, run) && run != []
    ensures var before := run[..|run| - 1];
      && ValidRun(b0, cfg, before) && Enabled(Exec(b0, cfg, before), cfg, run[|run| - 1])
      && Exec(b0, cfg, run) == Next(Exec(b0, cfg, before), cfg, run[|run| - 1])
  {
    hide Enabled, Next;
    RunSplit(b0, cfg, run, |run| - 1);
    var rest := run[|run| - 1..];
    assert rest == [run[|run| - 1]] && rest[1..] == [];
  }

  lemma HandleErrors(db: L.Ledger, cfg: Settings, k: Key, handle: string, now: int)
    ensures var r := L.SaveHandle(db, cfg, k, handle, now).reply;
      r.Err? ==> r.error == InvalidPeerHandle || r.error == NotFound || r.error == PeerHandleConflict
  {
  }

  lemma NothingUploaded(run: seq<Step>, from: nat, d: string, w: World, first: nat)
    ensures AllUploaded(run, from, d, [], w, first) && Ids(w, first, 0) == []
  {
  }

  lemma {:induction false} RawsWithin(parts: seq<Part>, i: nat)
    requires i < |parts|
    ensures parts[i].Part? && parts[i].raw.Some? ==> parts[i] in Raws(parts)
    decreases |parts|
  {
    if i < |parts| - 1 { RawsWithin(parts[..|parts| - 1], i); }
  }

  lemma {:induction false} AllRawsWithin(artifacts: seq<PeerArtifact>, i: nat)
    requires i < |artifacts|
    ensures forall p :: p in Raws(artifacts[i].parts) ==> p in AllRaws(artifacts)
    decreases |artifacts|
  {
    hide Raws;
    if i < |artifacts| - 1 { AllRawsWithin(artifacts[..|artifacts| - 1], i); }
  }

  lemma SettledSince(cfg: Settings, codec: ResultCodec, run: seq<Step>, from: nat, from': nat, k: Key, task: TaskResult, w: World)
    requires SettledAs(cfg, codec, run, from, k, task, w) && from' <= from
    ensures SettledAs(cfg, codec, run, from', k, task, w)
  {
    hide AllUploaded, AllRaws, SettlingOf, Obstacle;
    if PeerFinal(task.state) { UploadsStay(run, run, from, from', k.device, AllRaws(task.artifacts), w, 0); }
  }

  lemma ConcludedSince(b0: B.Broker, cfg: Settings, codec: ResultCodec, run: seq<Step>, from: nat, from': nat, k: Key, task: TaskResult, w: World)
    requires Concluded(b0, cfg, codec, run, from, k, task, w) && from' <= from
    ensures Concluded(b0, cfg, codec, run, from', k, task, w)
  {
    hide SettledAs, FailsFor, Baffled;
    if SettledAs(cfg, codec, run, from, k, task, w) { SettledSince(cfg, codec, run, from, from', k, task, w); }
  }

  lemma GivenUp(b0: B.Broker, cfg: Settings, codec: ResultCodec, run: seq<Step>, from: nat, k: Key, task: TaskResult, w: World)
    requires run != [] && run[|run| - 1] == GiveUp(k, w.settledAt, w.uuid) && !w.calm
    ensures Concluded(b0, cfg, codec, run, from, k, task, w)
  {
    hide SettledAs, FailsFor, Baffled;
  }

  lemma HandlesStay(cfg: Settings, b0: B.Broker, run0: seq<Step>, run: seq<Step>, k: Key, results: seq<TaskResult>, n: nat)
    requires Sound(cfg, b0) && ValidRun(b0, cfg, run) && run0 <= run && ValidRun(b0, cfg, run0) && n <= |results|
    requires forall i :: 0 <= i < n && results[i].taskId != "" ==> HandleKept(Exec(b0, cfg, run0).db.ops, k, results[i].taskId)
    ensures forall i :: 0 <= i < n && results[i].taskId != "" ==> HandleKept(Exec(b0, cfg, run).db.ops, k, results[i].taskId)
  {
    hide Sound, Exec, ValidRun, HandleKept;
    forall i | 0 <= i < n && results[i].taskId != "" ensures HandleKept(Exec(b0, cfg, run).db.ops, k, results[i].taskId) {
      HandleStays(cfg, b0, run0, run, k, results[i].taskId);
    }
  }
}
