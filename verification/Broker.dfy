/** The running broker: the ledger, the dispatcher's three job tables, and the histories the theorems speak of.

    One `Step` is one ledger transaction together with the table update the dispatcher makes without
    an intervening await.  HTTP requests, the jobs of all three tables and crashes interleave freely. */
module Broker {
  import opened Common
  import opened Ledger

  /** A dispatcher task.  `target` is the handle a read or cancel job was started for; `observed` is the
      handle `save_handle` accepted for a terminal peer result; `ended` means the coroutine returned. */
  datatype Job = Job(target: Option<string>, started: bool, observed: Option<string>, ended: bool)

  datatype Table = Streams | Reads | Cancels

  datatype Broker = Broker(
    db: Ledger, up: bool, streams: map<Key, Job>, probes: map<Key, Job>, cancels: map<Key, Job>,
    claims: seq<Key>,        // operations ever claimed, in order
    submissions: seq<Key>,   // calls of peer.submit
    peerCancels: seq<Key>,   // calls of peer.cancel
    completions: set<Key>)   // operations for which some peer result carried state completed

  datatype Step =
    // HTTP requests
    | AcceptRequest(device: string, request: Request, now: int)
    | GetRequest(k: Key, now: int)
    | CancelRequest(k: Key, now: int, uuid: nat)
    | EventsRequest(device: string, after: nat, now: int)
    | ReceiptRequest(device: string, receipt: Receipt)
    | UploadRequest(device: string, content: string, digest: string, typeOk: bool, textPlain: bool, utf8: bool,
                    now: int, id: nat)
    // dispatcher loop
    | PurgeTick(now: int)
    | TakeCancel(k: Key)
    | TakeReads(keys: seq<Key>, now: int)
    | TakeClaim(k: Key, now: int, uuid: nat)
    | Reap(table: Table, k: Key)
    // jobs
    | Start(table: Table, k: Key)
    | Observe(table: Table, k: Key, handle: string, terminal: bool, completed: bool, now: int)
    | Settle(table: Table, k: Key, state: OpState, result: Option<OpResult>, code: Option<Code>, now: int, uuid: nat)
    | GiveUp(k: Key, now: int, uuid: nat)
    | EndJob(table: Table, k: Key)
    // process
    | Crash
    | Recover(keys: seq<Key>, now: int, uuids: Key -> nat)

  const INITIAL := Broker(EMPTY, false, map[], map[], map[], [], [], [], {})

  function Jobs(b: Broker, t: Table): map<Key, Job> {
    match t case Streams => b.streams case Reads => b.probes case Cancels => b.cancels
  }

  function WithJobs(b: Broker, t: Table, jobs: map<Key, Job>): (r: Broker)
    ensures r.db == b.db && r.claims == b.claims && r.completions == b.completions
  {
    match t
    case Streams => b.(streams := jobs)
    case Reads => b.(probes := jobs)
    case Cancels => b.(cancels := jobs)
  }

  function WithJob(b: Broker, t: Table, k: Key, job: Job): (r: Broker)
    ensures r.db == b.db && r.claims == b.claims && r.completions == b.completions
  {
    WithJobs(b, t, Jobs(b, t)[k := job])
  }

  /** The loop of `step` over the rows `reconcilable` returned: skip live keys, stop at the limit. */
  function StartReads(b: Broker, cfg: Settings, keys: seq<Key>): map<Key, Job>
    requires forall k :: k in keys ==> k in b.db.ops
  {
    if keys == [] then b.probes
    else
      var probes := StartReads(b, cfg, keys[..|keys| - 1]);
      var k := keys[|keys| - 1];
      if k in b.streams || k in probes || k in b.cancels || |probes| >= cfg.maxStreams then probes
      else probes[k := Job(b.db.ops[k].handle, false, None, false)]
  }

  predicate Enabled(b: Broker, cfg: Settings, s: Step) {
    match s
    case Crash => true
    case Recover(keys, _, _) => !b.up && ListsRunning(b.db, keys)
    case TakeCancel(k) => b.up && |b.cancels| < cfg.maxStreams && k in b.db.ops && Cancelable(b.db.ops[k])
    case TakeReads(keys, _) =>
      && b.up && |b.probes| < cfg.maxStreams
      && forall k :: k in keys ==> k in b.db.ops && Reconcilable(b.db.ops[k])
    case TakeClaim(k, _, _) => b.up && |b.streams| < cfg.maxStreams && FirstCandidate(b.db, k)
    case Reap(t, k) => b.up && k in Jobs(b, t) && Jobs(b, t)[k].ended
    case Start(t, k) => b.up && k in Jobs(b, t) && !Jobs(b, t)[k].started && !Jobs(b, t)[k].ended
    case Observe(t, k, handle, terminal, completed, _) =>
      && b.up && k in Jobs(b, t) && Jobs(b, t)[k].started && (completed ==> terminal)
      && (!t.Streams? ==> Jobs(b, t)[k].target == Some(handle))
    case Settle(t, k, state, _, _, _, _) =>
      && b.up && k in Jobs(b, t) && Jobs(b, t)[k].observed.Some? && Final(state)
      && (state.Completed? ==> k in b.completions)
    case GiveUp(k, _, _) => b.up && k in b.streams
    case EndJob(t, k) =>
      && b.up && k in Jobs(b, t)
      && (t.Streams? ==> b.streams[k].observed.Some? && k in b.db.ops && Final(b.db.ops[k].state))
    case _ => b.up
  }

  function Next(b: Broker, cfg: Settings, s: Step): Broker
    requires Enabled(b, cfg, s)
  {
    match s
    case AcceptRequest(d, req, now) => b.(db := Accept(b.db, cfg, d, req, now).db)
    case GetRequest(k, now) => b
    case CancelRequest(k, now, uuid) => b.(db := CancelIntent(b.db, cfg, k, now, uuid).db)
    case EventsRequest(d, after, now) => b.(db := Events(b.db, d, after, now).db)
    case ReceiptRequest(d, receipt) => b.(db := AddReceipt(b.db, d, receipt).db)
    case UploadRequest(d, content, digest, typeOk, textPlain, utf8, now, id) =>
      b.(db := PutArtifact(b.db, cfg, d, content, digest, typeOk, textPlain, utf8, now, id).db)
    case PurgeTick(now) => b.(db := Purge(b.db, now))
    case TakeCancel(k) =>
      b.(db := ClaimCancel(b.db, k), cancels := b.cancels[k := Job(b.db.ops[k].handle, false, None, false)])
    case TakeReads(keys, now) =>
      b.(db := b.db.(ops := Poll(b.db.ops, (set k | k in keys), now)), probes := StartReads(b, cfg, keys))
    case TakeClaim(k, now, uuid) =>
      var r := Claim(b.db, cfg, k, now, uuid);
      if r.1.None? then b.(db := r.0)
      else b.(db := r.0, claims := b.claims + [k], streams := b.streams[k := Job(None, false, None, false)])
    case Reap(t, k) => WithJobs(b, t, Jobs(b, t) - {k})
    case Start(t, k) =>
      var b' := WithJob(b, t, k, Jobs(b, t)[k].(started := true));
      if t.Streams? then b'.(submissions := b.submissions + [k])
      else if t.Cancels? then b'.(peerCancels := b.peerCancels + [k])
      else b'
    case Observe(t, k, handle, terminal, completed, now) =>
      var r := SaveHandle(b.db, cfg, k, handle, now);
      var b' := b.(db := r.db);
      if r.reply.Err? || !terminal then b'
      else WithJob(b', t, k, Jobs(b, t)[k].(observed := Some(handle)))
           .(completions := if completed then b.completions + {k} else b.completions)
    case Settle(t, k, state, result, code, now, uuid) =>
      WithJob(b, t, k, Jobs(b, t)[k].(ended := true)).(db := Finish(b.db, cfg, k, state, result, code, now, uuid).db)
    case GiveUp(k, now, uuid) =>
      WithJob(b, Streams, k, b.streams[k].(ended := true))
      .(db := Finish(b.db, cfg, k, OutcomeUnknown, None, Some(SubmissionUnknown), now, uuid).db)
    case EndJob(t, k) => WithJob(b, t, k, Jobs(b, t)[k].(ended := true))
    case Crash => b.(up := false, streams := map[], probes := map[], cancels := map[])
    case Recover(keys, now, uuids) => b.(up := true, db := CloseAll(b.db, cfg, keys, now, uuids))
  }

  predicate ValidRun(b: Broker, cfg: Settings, run: seq<Step>)
    decreases |run|
  {
    run == [] || (Enabled(b, cfg, run[0]) && ValidRun(Next(b, cfg, run[0]), cfg, run[1..]))
  }

  function Exec(b: Broker, cfg: Settings, run: seq<Step>): Broker
    requires ValidRun(b, cfg, run)
    decreases |run|
  {
    if run == [] then b else Exec(Next(b, cfg, run[0]), cfg, run[1..])
  }
}
