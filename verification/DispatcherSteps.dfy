/** The broker machine's steps as the dispatcher takes them, and what may happen between two of them. */
module DispatcherSteps {
  import opened Common
  import opened L = Ledger
  import opened LedgerInvariant
  import opened LedgerSteps
  import opened B = Broker
  import opened BrokerInvariant
  import opened BrokerSteps
  import opened BrokerTheorems
  import opened FreshJobs
  import opened Runs

  // ---------------------------------------------------------------- the machine's steps, one lemma each

  lemma ReapStep(cfg: Settings, b: B.Broker, t: Table, k: Key)
    requires Sound(cfg, b) && b.up && k in Jobs(b, t) && Jobs(b, t)[k].ended
    ensures var s := Reap(t, k);
      Enabled(b, cfg, s) && Next(b, cfg, s) == WithJobs(b, t, Jobs(b, t) - {k}) && Sound(cfg, Next(b, cfg, s))
  {
    hide Sound, LedgerEvolves;
    SoundStep(cfg, b, Reap(t, k));
  }

  lemma PurgeStep(cfg: Settings, b: B.Broker, now: int)
    requires Sound(cfg, b) && b.up
    ensures var s := PurgeTick(now);
      Enabled(b, cfg, s) && Next(b, cfg, s) == b.(db := L.Purge(b.db, now)) && Sound(cfg, Next(b, cfg, s))
  {
    hide Sound, LedgerEvolves, L.Purge;
    SoundStep(cfg, b, PurgeTick(now));
  }

  lemma CancelStep(cfg: Settings, b: B.Broker, k: Key)
    requires Sound(cfg, b) && b.up && |b.cancels| < cfg.maxStreams && k in b.db.ops && Cancelable(b.db.ops[k])
    ensures var s := TakeCancel(k);
      && Enabled(b, cfg, s) && Sound(cfg, Next(b, cfg, s)) && k !in b.cancels
      && Next(b, cfg, s) == b.(db := L.ClaimCancel(b.db, k), cancels := b.cancels[k := Job(b.db.ops[k].handle, false, None, false)])
  {
    hide Sound, LedgerEvolves, L.ClaimCancel;
    SoundStep(cfg, b, TakeCancel(k));
    CancelFacts(cfg, b, k);
  }

  lemma ReadsStep(cfg: Settings, b: B.Broker, keys: seq<Key>, now: int)
    requires Sound(cfg, b) && b.up && |b.probes| < cfg.maxStreams
    requires forall k :: k in keys ==> k in b.db.ops && Reconcilable(b.db.ops[k])
    ensures var s := TakeReads(keys, now);
      && Enabled(b, cfg, s) && Sound(cfg, Next(b, cfg, s))
      && Next(b, cfg, s) == b.(db := b.db.(ops := Poll(b.db.ops, (set k | k in keys), now)), probes := StartReads(b, cfg, keys))
  {
    hide Sound, LedgerEvolves, StartReads, Poll;
    SoundStep(cfg, b, TakeReads(keys, now));
  }

  lemma ClaimStep(cfg: Settings, b: B.Broker, k: Key, now: int, uuid: nat)
    requires Sound(cfg, b) && b.up && |b.streams| < cfg.maxStreams && FirstCandidate(b.db, k)
    ensures var s := TakeClaim(k, now, uuid); var r := L.Claim(b.db, cfg, k, now, uuid);
      && Enabled(b, cfg, s) && Sound(cfg, Next(b, cfg, s)) && k !in b.streams
      && (r.1.None? ==> Next(b, cfg, s) == b.(db := r.0))
      && (r.1.Some? ==>
            Next(b, cfg, s) == b.(db := r.0, claims := b.claims + [k], streams := b.streams[k := Job(None, false, None, false)]))
  {
    hide Sound, LedgerEvolves, L.Claim, Candidate;
    SoundStep(cfg, b, TakeClaim(k, now, uuid));
    ClaimFacts(cfg, b, k, now, uuid);
  }

  lemma RecoverStep(cfg: Settings, b: B.Broker, rows: seq<Key>, now: int, uuids: Key -> nat)
    requires Sound(cfg, b) && !b.up && ListsRunning(b.db, rows)
    ensures var s := Recover(rows, now, uuids);
      Enabled(b, cfg, s) && Next(b, cfg, s) == b.(up := true, db := CloseAll(b.db, cfg, rows, now, uuids)) && Sound(cfg, Next(b, cfg, s))
  {
    hide Sound, LedgerEvolves, CloseAll;
    SoundStep(cfg, b, Recover(rows, now, uuids));
  }

  /** Once the table is full, further rows start nothing. */
  lemma {:induction false} ReadsFull(b: B.Broker, cfg: Settings, keys: seq<Key>, n: nat)
    requires n <= |keys| && (forall k :: k in keys ==> k in b.db.ops)
    requires n == |keys| || |StartReads(b, cfg, keys[..n])| >= cfg.maxStreams
    ensures StartReads(b, cfg, keys) == StartReads(b, cfg, keys[..n])
    decreases |keys| - n
  {
    if n < |keys| {
      assert keys[..n + 1][..n] == keys[..n];
      ReadsFull(b, cfg, keys, n + 1);
    } else {
      assert keys[..n] == keys;
    }
  }

  /** Read jobs are started for rows that no job works on, with their saved handles, up to the limit; with room left, for
      all of them. */
  lemma {:induction false} ReadsStarted(b: B.Broker, cfg: Settings, keys: seq<Key>)
    requires |b.probes| <= cfg.maxStreams && forall k :: k in keys ==> k in b.db.ops
    ensures var probes := StartReads(b, cfg, keys);
      && |b.probes| <= |probes| <= cfg.maxStreams
      && (forall k :: k in b.probes ==> k in probes && probes[k] == b.probes[k])
      && (forall k :: k in probes && k !in b.probes ==>
            k in keys && k !in b.streams && k !in b.cancels && probes[k] == Job(b.db.ops[k].handle, false, None, false))
      && (|probes| < cfg.maxStreams ==> forall k :: k in keys ==> k in probes || k in b.streams || k in b.cancels)
    decreases |keys|
  {
    if keys != [] {
      var before, last := keys[..|keys| - 1], keys[|keys| - 1];
      assert keys == before + [last];
      ReadsStarted(b, cfg, before);
      var probes := StartReads(b, cfg, before);
      if last !in probes { PutSize(probes, last, Job(b.db.ops[last].handle, false, None, false)); }
    }
  }

  lemma PolledHandles(ops: map<Key, Row>, keys: seq<Key>, now: int)
    ensures forall k :: k in ops ==> Poll(ops, (set j | j in keys), now)[k].handle == ops[k].handle
  {
  }

  lemma StartStep(cfg: Settings, b: B.Broker, k: Key)
    requires Sound(cfg, b) && b.up && k in b.streams && !b.streams[k].started && !b.streams[k].ended
    ensures var s := Start(Streams, k);
      && Enabled(b, cfg, s) && Sound(cfg, Next(b, cfg, s))
      && Next(b, cfg, s) == b.(streams := b.streams[k := b.streams[k].(started := true)], submissions := b.submissions + [k])
  {
    hide Sound, LedgerEvolves;
    SoundStep(cfg, b, Start(Streams, k));
  }

  lemma ObserveStep(cfg: Settings, b: B.Broker, k: Key, handle: string, terminal: bool, completed: bool, now: int)
    requires Sound(cfg, b) && b.up && k in b.streams && b.streams[k].started && (completed ==> terminal)
    ensures var s := Observe(Streams, k, handle, terminal, completed, now); var r := L.SaveHandle(b.db, cfg, k, handle, now);
      && Enabled(b, cfg, s) && Sound(cfg, Next(b, cfg, s))
      && Next(b, cfg, s) ==
           if r.reply.Err? || !terminal then b.(db := r.db)
           else b.(db := r.db, streams := b.streams[k := b.streams[k].(observed := Some(handle))],
                   completions := if completed then b.completions + {k} else b.completions)
  {
    hide Sound, LedgerEvolves, L.SaveHandle;
    SoundStep(cfg, b, Observe(Streams, k, handle, terminal, completed, now));
  }

  lemma SettleStep(cfg: Settings, b: B.Broker, k: Key, state: OpState, result: Option<OpResult>, code: Option<Code>, now: int, uuid: nat)
    requires Sound(cfg, b) && b.up && k in b.streams && b.streams[k].observed.Some? && Final(state)
    requires state.Completed? ==> k in b.completions
    ensures var s := Settle(Streams, k, state, result, code, now, uuid);
      && Enabled(b, cfg, s) && Sound(cfg, Next(b, cfg, s))
      && Next(b, cfg, s) == b.(streams := b.streams[k := b.streams[k].(ended := true)],
                               db := L.Finish(b.db, cfg, k, state, result, code, now, uuid).db)
  {
    hide Sound, LedgerEvolves, L.Finish;
    SoundStep(cfg, b, Settle(Streams, k, state, result, code, now, uuid));
  }

  lemma GiveUpStep(cfg: Settings, b: B.Broker, k: Key, now: int, uuid: nat)
    requires Sound(cfg, b) && b.up && k in b.streams
    ensures var s := GiveUp(k, now, uuid);
      && Enabled(b, cfg, s) && Sound(cfg, Next(b, cfg, s))
      && Next(b, cfg, s) == b.(streams := b.streams[k := b.streams[k].(ended := true)],
                               db := L.Finish(b.db, cfg, k, OutcomeUnknown, None, Some(SubmissionUnknown), now, uuid).db)
  {
    hide Sound, LedgerEvolves, L.Finish;
    SoundStep(cfg, b, GiveUp(k, now, uuid));
  }

  lemma EndStep(cfg: Settings, b: B.Broker, k: Key)
    requires Sound(cfg, b) && b.up && k in b.streams && b.streams[k].observed.Some? && k in b.db.ops && Final(b.db.ops[k].state)
    ensures var s := EndJob(Streams, k);
      && Enabled(b, cfg, s) && Sound(cfg, Next(b, cfg, s))
      && Next(b, cfg, s) == b.(streams := b.streams[k := b.streams[k].(ended := true)])
  {
    hide Sound, LedgerEvolves;
    SoundStep(cfg, b, EndJob(Streams, k));
  }

  lemma UploadStep(cfg: Settings, b: B.Broker, d: string, content: string, typeOk: bool, textPlain: bool, utf8: bool, now: int, id: nat)
    requires Sound(cfg, b) && b.up
    ensures var s := UploadRequest(d, content, content, typeOk, textPlain, utf8, now, id);
      && Enabled(b, cfg, s) && Sound(cfg, Next(b, cfg, s))
      && Next(b, cfg, s) == b.(db := L.PutArtifact(b.db, cfg, d, content, content, typeOk, textPlain, utf8, now, id).db)
  {
    hide Sound, LedgerEvolves, L.PutArtifact;
    SoundStep(cfg, b, UploadRequest(d, content, content, typeOk, textPlain, utf8, now, id));
  }

  lemma CancelFacts(cfg: Settings, b: B.Broker, k: Key)
    requires Sound(cfg, b) && Enabled(b, cfg, TakeCancel(k))
    ensures k !in b.cancels
  {
    hide BrokerInv, Enabled, Next, FreshOk, CompletionsKnown;
    TableFacts(cfg, b, TakeCancel(k));
  }

  lemma ClaimFacts(cfg: Settings, b: B.Broker, k: Key, now: int, uuid: nat)
    requires Sound(cfg, b) && Enabled(b, cfg, TakeClaim(k, now, uuid))
    ensures k !in b.streams
  {
    hide BrokerInv, Enabled, Next, FreshOk, CompletionsKnown;
    TableFacts(cfg, b, TakeClaim(k, now, uuid));
  }

  // ---------------------------------------------------------------- what may happen while a submission awaits

  /** A step of the stream job of `k` itself. */
  predicate Own(s: Step, k: Key) {
    || ((s.Start? || s.Observe? || s.Settle? || s.EndJob? || s.Reap?) && s.table.Streams? && s.k == k)
    || (s.GiveUp? && s.k == k)
  }

  /** Anything else that can happen while the process lives. */
  predicate Other(s: Step, k: Key) {
    !Own(s, k) && !s.Crash?
  }

  /** A step of a read job of `k`. */
  predicate ReadOf(s: Step, k: Key) {
    (s.Start? || s.Observe? || s.Settle? || s.EndJob? || s.Reap?) && s.table.Reads? && s.k == k
  }

  /** The stream job of `k` and the completions after a step. */
  predicate StreamKept(b: B.Broker, b': B.Broker, k: Key) {
    b'.up == b.up && k in b'.streams && k in b.streams && b'.streams[k] == b.streams[k] && b.completions <= b'.completions
  }

  lemma StreamAfterJob(cfg: Settings, b: B.Broker, s: Step, k: Key)
    requires Enabled(b, cfg, s) && Other(s, k) && k in b.streams && IsJob(s)
    ensures StreamKept(b, Next(b, cfg, s), k)
  {
    hide L.Finish, L.SaveHandle, StartReads, L.Claim, L.ClaimCancel, Poll, CloseAll, FirstCandidate, ListsRunning, Cancelable,
      Reconcilable, L.Accept, L.Purge, L.PutArtifact, L.CancelIntent, L.Events, L.AddReceipt;
  }

  lemma StreamAfterLoop(cfg: Settings, b: B.Broker, s: Step, k: Key)
    requires Enabled(b, cfg, s) && b.up && k in b.streams && !IsJob(s) && !IsRequest(s) && (s.TakeClaim? ==> s.k !in b.streams)
    ensures StreamKept(b, Next(b, cfg, s), k)
  {
    hide L.Finish, L.SaveHandle, StartReads, L.Claim, L.ClaimCancel, Poll, CloseAll, FirstCandidate, ListsRunning, Cancelable,
      Reconcilable, WithJob, WithJobs;
  }

  lemma StreamAfter(cfg: Settings, b: B.Broker, s: Step, k: Key)
    requires Enabled(b, cfg, s) && Other(s, k) && k in b.streams && b.up && (s.TakeClaim? ==> s.k !in b.streams)
    ensures StreamKept(b, Next(b, cfg, s), k)
  {
    hide Next, Enabled, Requested, Other;
    if IsRequest(s) {
      RequestNext(cfg, b, s);
    } else if IsJob(s) {
      StreamAfterJob(cfg, b, s, k);
    } else {
      StreamAfterLoop(cfg, b, s, k);
    }
  }

  /** While its stream job is in the table, an operation has no read job. */
  lemma NoReadStep(cfg: Settings, b: B.Broker, s: Step, k: Key)
    requires Sound(cfg, b) && Enabled(b, cfg, s) && k in b.streams
    ensures !ReadOf(s, k)
  {
    hide LedgerInv, JobsOk, ClaimsOk, SubmissionsOk, PeerCancelsOk, CompletedOk, FreshOk, CompletionsKnown;
  }

  /** Other steps keep the invariant and leave the job of `k` exactly as it was. */
  lemma OthersRespect(cfg: Settings, b: B.Broker, s: Step, k: Key)
    requires Sound(cfg, b) && Enabled(b, cfg, s) && Other(s, k) && k in b.streams && b.up
    ensures var b' := Next(b, cfg, s); Sound(cfg, b') && LedgerEvolves(b.db, b'.db) && b'.up && StreamKept(b, b', k) && !ReadOf(s, k)
  {
    hide Sound, LedgerEvolves, Enabled, Next, Other, ReadOf;
    SoundStep(cfg, b, s);
    NoReadStep(cfg, b, s, k);
    if s.TakeClaim? { ClaimFacts(cfg, b, s.k, s.now, s.uuid); }
    StreamAfter(cfg, b, s, k);
  }

  /** Any number of them: what a submission may rely on across an await. */
  lemma {:induction false} MeanwhileSubmitting(cfg: Settings, b: B.Broker, run: seq<Step>, k: Key)
    requires Sound(cfg, b) && ValidRun(b, cfg, run) && k in b.streams && b.up
    requires forall s :: s in run ==> Other(s, k)
    ensures var b' := Exec(b, cfg, run); Sound(cfg, b') && StreamKept(b, b', k) && forall s :: s in run ==> !ReadOf(s, k)
    decreases |run|
  {
    hide Sound, LedgerEvolves, Enabled, Next, Other, ReadOf;
    if run != [] {
      assert run == [run[0]] + run[1..];
      OthersRespect(cfg, b, run[0], k);
      MeanwhileSubmitting(cfg, Next(b, cfg, run[0]), run[1..], k);
    }
  }

  // ---------------------------------------------------------------- what may happen while the loop awaits

  /** A step that only the dispatcher loop takes, or that ends the process. */
  predicate LoopStep(s: Step) {
    s.Reap? || s.PurgeTick? || s.TakeCancel? || s.TakeReads? || s.TakeClaim? || s.Recover? || s.Crash?
  }

  /** The same keys in every table: jobs may have moved on, none was added or dropped. */
  predicate KeysKept(b: B.Broker, b': B.Broker) {
    && b'.up == b.up && b'.streams.Keys == b.streams.Keys && b'.probes.Keys == b.probes.Keys && b'.cancels.Keys == b.cancels.Keys
    && b'.claims == b.claims
  }

  lemma WithJobKeys(b: B.Broker, t: Table, k: Key, job: Job)
    requires k in Jobs(b, t)
    ensures KeysKept(b, WithJob(b, t, k, job))
  {
    assert (Jobs(b, t)[k := job]).Keys == Jobs(b, t).Keys;
  }

  lemma KeysAfterJob(cfg: Settings, b: B.Broker, s: Step)
    requires Enabled(b, cfg, s) && IsJob(s) && !LoopStep(s)
    ensures KeysKept(b, Next(b, cfg, s))
  {
    hide L.Finish, L.SaveHandle, WithJob, WithJobs, L.Claim, L.ClaimCancel, L.Accept, L.Purge, L.PutArtifact, L.CancelIntent, L.Events,
      L.AddReceipt, StartReads, Poll, CloseAll, FirstCandidate, ListsRunning, Cancelable, Reconcilable;
    match s
    case Start(t, k) => WithJobKeys(b, t, k, Jobs(b, t)[k].(started := true));
    case Observe(t, k, handle, terminal, completed, now) =>
      WithJobKeys(b.(db := L.SaveHandle(b.db, cfg, k, handle, now).db), t, k, Jobs(b, t)[k].(observed := Some(handle)));
    case Settle(t, k, _, _, _, _, _) => WithJobKeys(b, t, k, Jobs(b, t)[k].(ended := true));
    case GiveUp(k, _, _) => WithJobKeys(b, Streams, k, b.streams[k].(ended := true));
    case EndJob(t, k) => WithJobKeys(b, t, k, Jobs(b, t)[k].(ended := true));
  }

  lemma KeysAfter(cfg: Settings, b: B.Broker, s: Step)
    requires Enabled(b, cfg, s) && !LoopStep(s)
    ensures KeysKept(b, Next(b, cfg, s))
  {
    hide Next, Enabled, Requested;
    if IsRequest(s) { RequestNext(cfg, b, s); } else { KeysAfterJob(cfg, b, s); }
  }

  /** Any number of other coroutines' steps: what the loop may rely on across an await. */
  lemma {:induction false} MeanwhileLooping(cfg: Settings, b: B.Broker, run: seq<Step>)
    requires Sound(cfg, b) && ValidRun(b, cfg, run) && forall s :: s in run ==> !LoopStep(s)
    ensures Sound(cfg, Exec(b, cfg, run)) && KeysKept(b, Exec(b, cfg, run))
    decreases |run|
  {
    hide Sound, LedgerEvolves, Enabled, Next, LoopStep;
    if run != [] {
      assert run == [run[0]] + run[1..];
      SoundStep(cfg, b, run[0]);
      KeysAfter(cfg, b, run[0]);
      MeanwhileLooping(cfg, Next(b, cfg, run[0]), run[1..]);
    }
  }

  // ---------------------------------------------------------------- where ended jobs and completions come from

  /** A step by which the job of `k` in table `t` ends. */
  predicate Ends(s: Step, t: Table, k: Key) {
    ((s.Settle? || s.EndJob?) && s.table == t && s.k == k) || (s.GiveUp? && t.Streams? && s.k == k)
  }

  predicate HasEnded(b: B.Broker, t: Table, k: Key) {
    k in Jobs(b, t) && Jobs(b, t)[k].ended
  }

  lemma EndedWithJob(b: B.Broker, u: Table, j: Key, job: Job, t: Table, k: Key)
    requires j in Jobs(b, u) && HasEnded(WithJob(b, u, j, job), t, k)
    ensures HasEnded(b, t, k) || (t == u && k == j && job.ended)
  {
  }

  lemma EndedWithout(b: B.Broker, u: Table, j: Key, t: Table, k: Key)
    requires HasEnded(WithJobs(b, u, Jobs(b, u) - {j}), t, k)
    ensures HasEnded(b, t, k)
  {
  }

  lemma EndedAfterJob(cfg: Settings, b: B.Broker, s: Step, t: Table, k: Key)
    requires Enabled(b, cfg, s) && IsJob(s) && HasEnded(Next(b, cfg, s), t, k)
    ensures HasEnded(b, t, k) || Ends(s, t, k)
  {
    hide L.Finish, L.SaveHandle, L.Claim, L.ClaimCancel, L.Accept, L.Purge, L.PutArtifact, L.CancelIntent, L.Events, L.AddReceipt,
      StartReads, Poll, CloseAll, FirstCandidate, ListsRunning, Cancelable, Reconcilable, WithJob, WithJobs, HasEnded;
    var b' := Next(b, cfg, s);
    match s
    case Reap(u, j) => EndedWithout(b, u, j, t, k);
    case Start(u, j) =>
      SameJobs(WithJob(b, u, j, Jobs(b, u)[j].(started := true)), b', t, k);
      EndedWithJob(b, u, j, Jobs(b, u)[j].(started := true), t, k);
      StillEnded(b, u, j, t, k);
    case Observe(u, j, handle, terminal, completed, now) =>
      var r := L.SaveHandle(b.db, cfg, j, handle, now);
      SameJobs(b, b.(db := r.db), t, k);
      if !(r.reply.Err? || !terminal) {
        SameJobs(WithJob(b.(db := r.db), u, j, Jobs(b, u)[j].(observed := Some(handle))), b', t, k);
        EndedWithJob(b.(db := r.db), u, j, Jobs(b, u)[j].(observed := Some(handle)), t, k);
      }
      StillEnded(b, u, j, t, k);
    case Settle(u, j, _, _, _, _, _) =>
      SameJobs(WithJob(b, u, j, Jobs(b, u)[j].(ended := true)), b', t, k);
      EndedWithJob(b, u, j, Jobs(b, u)[j].(ended := true), t, k);
    case GiveUp(j, _, _) =>
      SameJobs(WithJob(b, Streams, j, b.streams[j].(ended := true)), b', t, k);
      EndedWithJob(b, Streams, j, b.streams[j].(ended := true), t, k);
    case EndJob(u, j) => EndedWithJob(b, u, j, Jobs(b, u)[j].(ended := true), t, k);
    case Crash => NoJobs(b', t, k);
  }

  lemma StillEnded(b: B.Broker, u: Table, j: Key, t: Table, k: Key)
    requires j in Jobs(b, u)
    ensures t == u && k == j && Jobs(b, u)[j].ended ==> HasEnded(b, t, k)
  {
  }

  lemma NoJobs(b: B.Broker, t: Table, k: Key)
    requires b.streams == map[] && b.probes == map[] && b.cancels == map[]
    ensures !HasEnded(b, t, k)
  {
  }

  lemma {:induction false} NewReads(b: B.Broker, cfg: Settings, keys: seq<Key>, k: Key)
    requires forall j :: j in keys ==> j in b.db.ops
    requires k in StartReads(b, cfg, keys) && StartReads(b, cfg, keys)[k].ended
    ensures k in b.probes && b.probes[k].ended
  {
    if keys != [] && k in StartReads(b, cfg, keys[..|keys| - 1]) && StartReads(b, cfg, keys[..|keys| - 1])[k].ended {
      NewReads(b, cfg, keys[..|keys| - 1], k);
    }
  }

  lemma EndedAfterLoop(cfg: Settings, b: B.Broker, s: Step, t: Table, k: Key)
    requires Enabled(b, cfg, s) && !IsJob(s) && !IsRequest(s) && HasEnded(Next(b, cfg, s), t, k)
    ensures HasEnded(b, t, k)
  {
    hide L.Finish, L.SaveHandle, L.Claim, L.ClaimCancel, StartReads, Poll, CloseAll, FirstCandidate, ListsRunning, Cancelable,
      Reconcilable, WithJob, WithJobs;
    if s.TakeReads? && t.Reads? { NewReads(b, cfg, s.keys, k); }
  }

  /** A job found ended after a run was ended before it, or ended in it. */
  lemma {:induction false} EndedFrom(b: B.Broker, cfg: Settings, run: seq<Step>, t: Table, k: Key)
    requires ValidRun(b, cfg, run) && HasEnded(Exec(b, cfg, run), t, k)
    ensures HasEnded(b, t, k) || exists s :: s in run && Ends(s, t, k)
    decreases |run|
  {
    hide Enabled, Next, HasEnded, Ends, Requested;
    if run != [] {
      var s, b1 := run[0], Next(b, cfg, run[0]);
      assert s in run;
      EndedFrom(b1, cfg, run[1..], t, k);
      if HasEnded(b1, t, k) {
        if IsRequest(s) {
          RequestNext(cfg, b, s);
          SameJobs(b, b1, t, k);
        } else if IsJob(s) {
          EndedAfterJob(cfg, b, s, t, k);
        } else {
          EndedAfterLoop(cfg, b, s, t, k);
        }
      } else {
        var e :| e in run[1..] && Ends(e, t, k);
        assert e in run;
      }
    }
  }

  lemma SameJobs(b: B.Broker, b': B.Broker, t: Table, k: Key)
    requires b'.streams == b.streams && b'.probes == b.probes && b'.cancels == b.cancels
    ensures HasEnded(b', t, k) <==> HasEnded(b, t, k)
  {
  }

  /** Where completions come from: a peer result with state completed, observed by some job of the operation. */
  lemma {:induction false} CompletionsFrom(b: B.Broker, cfg: Settings, run: seq<Step>, k: Key)
    requires ValidRun(b, cfg, run) && k in Exec(b, cfg, run).completions
    ensures k in b.completions || exists s :: s in run && s.Observe? && s.k == k && s.completed
    decreases |run|
  {
    hide Enabled, Next;
    if run != [] {
      var b1 := Next(b, cfg, run[0]);
      CompletionsFrom(b1, cfg, run[1..], k);
      if k in b1.completions {
        CompletionStep(b, cfg, run[0], k);
        assert run[0] in run;
      } else {
        var s :| s in run[1..] && s.Observe? && s.k == k && s.completed;
        assert s in run;
      }
    }
  }

  lemma CompletionStep(b: B.Broker, cfg: Settings, s: Step, k: Key)
    requires Enabled(b, cfg, s) && k in Next(b, cfg, s).completions
    ensures k in b.completions || (s.Observe? && s.k == k && s.completed)
  {
    if IsRequest(s) {
      RequestNext(cfg, b, s);
      hide Next, Enabled;
    } else if s.Observe? {
      hide L.SaveHandle, WithJob;
    } else {
      CompletionsSame(cfg, b, s);
    }
  }
}
