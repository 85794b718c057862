/** `BrokerDispatcher`: the three job tables as fields over a `BrokerStore`.  Every method is proved to be a run of
    the broker machine, so the theorems over all runs speak about this code. */
module Dispatcher {
  import opened Common
  import opened L = Ledger
  import opened LI = LedgerInvariant
  import opened B = Broker
  import opened BrokerInvariant
  import opened Runs
  import opened DispatcherSteps
  import opened FreshJobs
  import opened Finality
  import opened Submissions
  import BT = BrokerTheorems
  import opened Base64
  import opened PeerChunks
  import BS = BrokerStore

  /** While a table is being reaped: `left` still holds every live job and the finished ones in `done`. */
  predicate Reaping(jobs: map<Key, Job>, done: set<Key>, left: map<Key, Job>) {
    && (forall k :: k in left ==> k in jobs && jobs[k] == left[k])
    && (forall k :: k in done ==> k in left && left[k].ended)
    && (forall k :: k in left && left[k].ended ==> k in done)
    && (forall k :: k in jobs && !jobs[k].ended ==> k in left)
  }

  /** Exactly the jobs that had not ended are left. */
  ghost predicate Swept(jobs: map<Key, Job>, left: map<Key, Job>) {
    && (forall k :: k in left <==> k in jobs && !jobs[k].ended)
    && (forall k :: k in left ==> left[k] == jobs[k])
  }

  ghost predicate AllSwept(b: B.Broker, b': B.Broker) {
    && Swept(b.streams, b'.streams) && Swept(b.probes, b'.probes) && Swept(b.cancels, b'.cancels)
    && b' == b.(streams := b'.streams, probes := b'.probes, cancels := b'.cancels)
  }

  /** `run` continues `run0` with steps of other coroutines only, seen from the dispatcher loop. */
  ghost predicate Passes(run0: seq<Step>, run: seq<Step>) {
    run0 <= run && forall i :: |run0| <= i < |run| ==> !LoopStep(run[i])
  }

  lemma PassesTrans(run0: seq<Step>, run1: seq<Step>, run2: seq<Step>)
    requires Passes(run0, run1) && Passes(run1, run2)
    ensures Passes(run0, run2)
  {
    hide LoopStep;
  }

  /** Why the loop stopped claiming: the table is full, nothing could be claimed, or a claim failed its operation. */
  datatype Stop = Full | Idle | Refused

  /** After `seen`, the last claim transaction of the loop found every waiting operation held by an active one of its
      own flow (`Idle`), or failed the operation it found (`Refused`). */
  ghost predicate StoppedAt(b0: B.Broker, cfg: Settings, stop: Stop, seen: seq<Step>) {
    && ValidRun(b0, cfg, seen)
    && var b := Exec(b0, cfg, seen);
       match stop
       case Full => true
       case Idle => forall k :: k in BT.Waiting(b.db.ops) ==> BT.Held(b.db.ops, k)
       case Refused =>
         && seen != [] && seen[|seen| - 1].TakeClaim?
         && ValidRun(b0, cfg, seen[..|seen| - 1])
         && b.claims == Exec(b0, cfg, seen[..|seen| - 1]).claims
  }

  lemma IdleHeld(cfg: Settings, b: B.Broker)
    requires Sound(cfg, b) && forall k :: k in b.db.ops ==> !Candidate(b.db, k)
    ensures forall k :: k in BT.Waiting(b.db.ops) ==> BT.Held(b.db.ops, k)
  {
    LedgerSound(cfg, b);
    hide Sound, LI.LedgerInv, Candidate, BT.Held;
    forall k | k in BT.Waiting(b.db.ops) ensures BT.Held(b.db.ops, k) { BT.CandidateIsFree(cfg, b.db, k); }
  }

  lemma LedgerSound(cfg: Settings, b: B.Broker)
    requires Sound(cfg, b)
    ensures LI.LedgerInv(cfg, b.db)
  {
  }

  lemma PutReply(db: L.Ledger, cfg: Settings, d: string, content: string, typeOk: bool, textPlain: bool, utf8: bool, now: int, id: nat)
    ensures var r := L.PutArtifact(db, cfg, d, content, content, typeOk, textPlain, utf8, now, id).reply; r.Ok? ==> r.value == id
  {
    hide DropExpired, StoredBytes, Holds;
  }

  lemma ReapingStarts(jobs: map<Key, Job>, done: set<Key>)
    requires forall k :: k in done <==> k in jobs && jobs[k].ended
    ensures Reaping(jobs, done, jobs)
  {
  }

  lemma ReapingFacts(jobs: map<Key, Job>, done: set<Key>, left: map<Key, Job>, k: Key)
    requires Reaping(jobs, done, left) && k in done
    ensures k in left && left[k].ended
  {
  }

  lemma ReapingOn(jobs: map<Key, Job>, done: set<Key>, left: map<Key, Job>, k: Key)
    requires Reaping(jobs, done, left) && k in done
    ensures Reaping(jobs, done - {k}, left - {k})
  {
  }

  lemma ReapingEnds(jobs: map<Key, Job>, left: map<Key, Job>)
    requires Reaping(jobs, {}, left)
    ensures Swept(jobs, left)
  {
  }

  lemma OwnJobs(b: B.Broker, t: Table)
    ensures b == WithJobs(b, t, Jobs(b, t))
  {
  }

  lemma JobsAgain(a: B.Broker, b: B.Broker, t: Table, jobs: map<Key, Job>)
    requires b == WithJobs(a, t, Jobs(b, t))
    ensures WithJobs(b, t, jobs) == WithJobs(a, t, jobs)
  {
  }

  lemma SweptClean(b: B.Broker, b': B.Broker, t: Table, k: Key)
    requires AllSwept(b, b')
    ensures !HasEnded(b', t, k)
  {
  }

  /** These are the rows to poll next: at most 20 that can be reconciled, each once, those polled longest ago first. */
  ghost predicate NextToPoll(ops: map<Key, Row>, keys: seq<Key>) {
    && |keys| <= 20 && Distinct(keys) && (forall k :: k in keys ==> k in ops && Reconcilable(ops[k]))
    && (forall a, b :: 0 <= a < b < |keys| ==> BS.PolledFirst(ops[keys[a]], ops[keys[b]]))
    && (forall k :: k in ops && Reconcilable(ops[k]) && k !in keys ==> |keys| == 20 && forall j :: j in keys ==> BS.PolledFirst(ops[j], ops[k]))
  }

  predicate OldestIntent(ops: map<Key, Row>, k: Key) {
    k in ops && Cancelable(ops[k]) && forall j :: j in ops && Cancelable(ops[j]) ==> ops[k].updated <= ops[j].updated
  }

  /** After this run no cancel intent is open. */
  ghost predicate NoneCancelable(b0: B.Broker, cfg: Settings, run: seq<Step>) {
    ValidRun(b0, cfg, run) && var ops := Exec(b0, cfg, run).db.ops; forall k :: k in ops ==> !Cancelable(ops[k])
  }

  lemma NoIntent(b0: B.Broker, cfg: Settings, run: seq<Step>)
    requires ValidRun(b0, cfg, run) && forall k :: k in Exec(b0, cfg, run).db.ops ==> !Cancelable(Exec(b0, cfg, run).db.ops[k])
    ensures NoneCancelable(b0, cfg, run)
  {
    hide ValidRun, Exec, Cancelable;
  }

  /** Step `at` starts read jobs for the rows to poll next. */
  ghost predicate ReadsAt(b0: B.Broker, cfg: Settings, run: seq<Step>, at: nat, now: int) {
    at < |run| && run[at].TakeReads? && run[at].now == now && ValidRun(b0, cfg, run[..at])
    && NextToPoll(Exec(b0, cfg, run[..at]).db.ops, run[at].keys)
  }

  /** Where one pass of the loop purged, looked for cancel intents last, and started reads, and whether it started any. */
  datatype Looks = Looks(purged: nat, cancelsAt: nat, readsAt: nat, readsTaken: bool)

  /** The pass did all of it; with room left for cancel jobs, no intent was open when it looked last. */
  ghost predicate Took(b0: B.Broker, cfg: Settings, run: seq<Step>, purgeAt: int, readAt: int, looks: Looks, room: bool) {
    && looks.purged < |run| && run[looks.purged] == PurgeTick(purgeAt)
    && looks.cancelsAt <= |run| && (room ==> NoneCancelable(b0, cfg, run[..looks.cancelsAt]))
    && (looks.readsTaken ==> ReadsAt(b0, cfg, run, looks.readsAt, readAt))
  }

  lemma TookThat(b0: B.Broker, cfg: Settings, run1: seq<Step>, run2: seq<Step>, run: seq<Step>, purgeAt: int, readAt: int, looks: Looks, room: bool)
    requires run1 <= run2 <= run && looks.purged < |run1| && run1[looks.purged] == PurgeTick(purgeAt)
    requires looks.cancelsAt <= |run1| && (room ==> NoneCancelable(b0, cfg, run1[..looks.cancelsAt]))
    requires looks.readsTaken ==> ReadsAt(b0, cfg, run2, looks.readsAt, readAt)
    ensures Took(b0, cfg, run, purgeAt, readAt, looks, room)
  {
    hide NoneCancelable, ValidRun, Exec, NextToPoll;
    assert run[..looks.cancelsAt] == run1[..looks.cancelsAt];
    if looks.readsTaken { assert run[..looks.readsAt] == run2[..looks.readsAt]; }
  }

  class BrokerDispatcher {
    const store: BS.BrokerStore
    const settings: Settings
    const codec: ResultCodec
    var streams: map<Key, Job>
    var probes: map<Key, Job>
    var cancels: map<Key, Job>
    var closed: bool
    ghost var up: bool
    ghost var claims: seq<Key>
    ghost var submissions: seq<Key>
    ghost var peerCancels: seq<Key>
    ghost var completions: set<Key>

    /** The state of the machine this object is in. */
    ghost function Abs(): B.Broker
      reads this, store
    {
      B.Broker(store.Db(), up, streams, probes, cancels, claims, submissions, peerCancels, completions)
    }

    ghost predicate Valid()
      reads this, store
    {
      up && store.settings == settings && store.dispatcher && Sound(settings, Abs())
    }

    /** A new process over the ledger an earlier one left; `past` is that earlier state, after its crash. */
    constructor (store: BS.BrokerStore, codec: ResultCodec, ghost past: B.Broker)
      requires !past.up && past.db == store.Db() && Sound(store.settings, past)
      ensures this.store == store && settings == store.settings && this.codec == codec && Abs() == past && !closed
    {
      this.store, settings, this.codec, closed := store, store.settings, codec, false;
      streams, probes, cancels := map[], map[], map[];
      up, claims, submissions, peerCancels, completions := false, past.claims, past.submissions, past.peerCancels, past.completions;
    }

    /** What one transaction of this object is: one step of the machine. */
    twostate predicate Stepped(s: Step)
      reads this, store
    {
      Enabled(old(Abs()), settings, s) && Abs() == Next(old(Abs()), settings, s) && Valid() && closed == old(closed)
    }

    /** Take the dispatcher lock and recover, before anything is dispatched. */
    method Startup(free: bool, now: int, uuids: Key -> nat) returns (ok: bool, ghost s: Step)
      requires !up && store.settings == settings && Sound(settings, Abs())
      modifies this, store
      ensures ok == free
      ensures ok ==> s.Recover? && Stepped(s)
      ensures !ok ==> Abs() == old(Abs())
    {
      hide Sound, ListsRunning, CloseAll, Enabled, Next;
      ghost var before := Abs();
      ok := store.AcquireDispatcher(free);
      s := Crash;
      if ok {
        var _, rows := store.Recover(now, uuids);
        s := Recover(rows, now, uuids);
        RecoverStep(settings, before, rows, now, uuids);
        up := true;
      }
    }

    // -------------------------------------------------------------- one step each

    method ReapOne(t: Table, k: Key) returns (ghost s: Step)
      requires Valid() && k in Jobs(Abs(), t) && Jobs(Abs(), t)[k].ended
      modifies this
      ensures s == Reap(t, k) && Stepped(s)
    {
      hide Sound, Enabled, Next;
      s := Reap(t, k);
      ReapStep(settings, Abs(), t, k);
      match t
      case Streams => streams := streams - {k};
      case Reads => probes := probes - {k};
      case Cancels => cancels := cancels - {k};
    }

    method PurgeNow(now: int) returns (ghost s: Step)
      requires Valid()
      modifies this, store
      ensures s == PurgeTick(now) && Stepped(s) && probes == old(probes)
    {
      hide Sound, L.Purge, Enabled, Next;
      s := PurgeTick(now);
      PurgeStep(settings, Abs(), now);
      store.Purge(now);
    }

    /** `claim_cancel` and the insertion of its job. */
    method TakeOneCancel() returns (taken: bool, ghost s: Step)
      requires Valid() && |cancels| < settings.maxStreams
      modifies this, store
      ensures taken ==> s.TakeCancel? && Stepped(s) && |cancels| == old(|cancels|) + 1 && OldestIntent(old(store.operations), s.k)
      ensures probes == old(probes)
      ensures !taken ==> Abs() == old(Abs()) && Valid() && closed == old(closed)
                         && forall k :: k in store.operations ==> !Cancelable(store.operations[k])
    {
      hide Sound, L.ClaimCancel, Enabled, Next;
      ghost var before := Abs();
      var reply := store.ClaimCancel();
      taken := reply.Ok? && reply.value.Some?;
      s := Crash;
      if taken {
        var (k, handle) := reply.value.value;
        s := TakeCancel(k);
        CancelStep(settings, before, k);
        PutSize(cancels, k, Job(Some(handle), false, None, false));
        cancels := cancels[k := Job(Some(handle), false, None, false)];
      }
    }

    /** `claim` and the insertion of its job; a claim that failed its operation leaves no job. */
    method TakeOneClaim(now: int, uuid: nat) returns (taken: bool, ghost s: Option<Step>)
      requires Valid() && |streams| < settings.maxStreams
      modifies this, store
      ensures taken ==> s.Some? && |streams| == old(|streams|) + 1
      ensures cancels == old(cancels)
      ensures s.Some? ==> s.value.TakeClaim? && Stepped(s.value) && (!taken ==> claims == old(claims))
      ensures s.None? ==> Abs() == old(Abs()) && Valid() && closed == old(closed)
                          && forall k :: k in store.operations ==> !Candidate(store.Db(), k)
    {
      hide Sound, L.Claim, Enabled, Next, FirstCandidate, Candidate;
      ghost var before := Abs();
      var reply, chosen := store.Claim(now, uuid);
      s := if chosen.None? then None else Some(TakeClaim(chosen.value, now, uuid));
      if s.Some? { ClaimStep(settings, before, chosen.value, now, uuid); }
      taken := reply.Ok? && reply.value.Some?;
      if taken {
        var key := reply.value.value.0;
        PutSize(streams, key, Job(None, false, None, false));
        streams := streams[key := Job(None, false, None, false)];
        claims := claims + [key];
      }
    }

    /** `reconcilable` and the loop that starts a read job for every row not already being worked on. */
    method TakeSomeReads(now: int) returns (ghost s: Step)
      requires Valid() && |probes| < settings.maxStreams
      modifies this, store
      ensures s.TakeReads? && s.now == now && Stepped(s) && NextToPoll(old(store.operations), s.keys)
      ensures cancels == old(cancels)
    {
      hide Sound, Enabled, Next, Poll, StartReads;
      ghost var before := Abs();
      var rows := store.Reconcilable(now);
      s := TakeReads(rows, now);
      ReadsStep(settings, before, rows, now);
      ghost var polled := store.Db();
      assert polled == before.db.(ops := Poll(before.db.ops, (set k | k in rows), now));
      PolledHandles(before.db.ops, rows, now);
      StartJobs(rows, before);
    }

    method StartJobs(rows: seq<Key>, ghost b: B.Broker)
      requires b.streams == streams && b.probes == probes && b.cancels == cancels && |probes| < settings.maxStreams
      requires forall k :: k in rows ==> k in b.db.ops && k in store.operations && store.operations[k].handle == b.db.ops[k].handle
      modifies this`probes
      ensures probes == StartReads(b, settings, rows)
    {
      var i := 0;
      while i < |rows| && |probes| < settings.maxStreams
        invariant i <= |rows| && probes == StartReads(b, settings, rows[..i])
      {
        var k := rows[i];
        assert rows[..i + 1][..i] == rows[..i];
        i := i + 1;
        if k in streams || k in probes || k in cancels { continue; }
        probes := probes[k := Job(store.operations[k].handle, false, None, false)];
      }
      ReadsFull(b, settings, rows, i);
    }

    // -------------------------------------------------------------- the loop body

    /** This state is what the machine reaches from `b0` by `run`. */
    ghost predicate Traces(b0: B.Broker, run: seq<Step>)
      reads this, store
    {
      ValidRun(b0, settings, run) && Abs() == Exec(b0, settings, run) && Valid()
    }

    /** The loop awaits a transaction running in its thread: other coroutines go on.  Callers may rely on this contract
        only; `MeanwhileLooping` shows that any run of other coroutines' steps meets it. */
    method Pause(ghost b0: B.Broker, ghost run0: seq<Step>) returns (ghost run: seq<Step>)
      requires Traces(b0, run0)
      modifies this, store
      ensures Traces(b0, run) && Passes(run0, run) && closed == old(closed)
      ensures streams.Keys == old(streams).Keys && probes.Keys == old(probes).Keys && cancels.Keys == old(cancels).Keys
    {
      run := run0;
    }

    /** Drop the finished jobs of one table; there is no await in it. */
    method ReapTable(t: Table, ghost b0: B.Broker, ghost run0: seq<Step>) returns (ghost run: seq<Step>)
      requires Traces(b0, run0)
      modifies this
      ensures Traces(b0, run) && closed == old(closed) && Swept(Jobs(old(Abs()), t), Jobs(Abs(), t))
      ensures Abs() == WithJobs(old(Abs()), t, Jobs(Abs(), t))
    {
      hide Sound, Enabled, Next, Exec, ValidRun, WithJobs, Reaping, Swept;
      run := run0;
      var jobs := match t case Streams => streams case Reads => probes case Cancels => cancels;
      var done := set k | k in jobs && jobs[k].ended;
      OwnJobs(Abs(), t);
      ReapingStarts(jobs, done);
      while done != {}
        invariant Traces(b0, run) && closed == old(closed) && Reaping(jobs, done, Jobs(Abs(), t))
        invariant Abs() == WithJobs(old(Abs()), t, Jobs(Abs(), t))
      {
        var k :| k in done;
        ghost var b := Abs();
        ReapingFacts(jobs, done, Jobs(b, t), k);
        run := ReapTraced(t, k, b0, run);
        JobsAgain(old(Abs()), b, t, Jobs(Abs(), t));
        ReapingOn(jobs, done, Jobs(b, t), k);
        done := done - {k};
      }
      ReapingEnds(jobs, Jobs(Abs(), t));
    }

    method ReapTraced(t: Table, k: Key, ghost b0: B.Broker, ghost run0: seq<Step>) returns (ghost run: seq<Step>)
      requires Traces(b0, run0) && k in Jobs(Abs(), t) && Jobs(Abs(), t)[k].ended
      modifies this
      ensures Traces(b0, run) && closed == old(closed) && Jobs(Abs(), t) == Jobs(old(Abs()), t) - {k}
      ensures Abs() == WithJobs(old(Abs()), t, Jobs(Abs(), t))
    {
      hide Sound, Enabled, Next, Exec, ValidRun;
      ReapStep(settings, Abs(), t, k);
      ghost var s := ReapOne(t, k);
      Snoc(b0, settings, run0, s);
      run := run0 + [s];
    }

    /** The reaping of all three tables. */
    method ReapAll() returns (ghost reaps: seq<Step>)
      requires Valid()
      modifies this
      ensures Traces(old(Abs()), reaps) && closed == old(closed) && AllSwept(old(Abs()), Abs())
    {
      hide Sound, Enabled, Next, Exec, ValidRun;
      ghost var b0 := Abs();
      NoSteps();
      reaps := ReapTable(Streams, b0, []);
      reaps := ReapTable(Reads, b0, reaps);
      reaps := ReapTable(Cancels, b0, reaps);
    }

    /** Claim cancel intents while there is room; when there is room left, no intent was open at the last look. */
    method FillCancels(ghost b0: B.Broker, ghost run0: seq<Step>) returns (ghost run: seq<Step>, ghost looked: nat)
      requires Traces(b0, run0)
      modifies this, store
      ensures Traces(b0, run) && closed == old(closed) && run0 <= run && looked <= |run|
      ensures probes.Keys == old(probes).Keys
      ensures |cancels| < settings.maxStreams ==> NoneCancelable(b0, settings, run[..looked])
    {
      hide Sound, Enabled, Next, Exec, ValidRun, Cancelable, NoneCancelable, OldestIntent;
      run, looked := run0, 0;
      while |cancels| < settings.maxStreams
        invariant Traces(b0, run) && closed == old(closed) && run0 <= run && looked <= |run| && probes.Keys == old(probes).Keys
        decreases settings.maxStreams - |cancels|
      {
        ghost var room := |cancels|;
        assert |cancels| == |cancels.Keys|;
        run := Pause(b0, run);
        assert |cancels| == |cancels.Keys|;
        var taken, s := TakeOneCancel();
        looked := |run|;
        if !taken {
          NoIntent(b0, settings, run);
          ghost var run1 := run;
          run := Pause(b0, run);
          assert run[..looked] == run1;
          return;
        }
        Snoc(b0, settings, run, s);
        assert |cancels| == |cancels.Keys|;
        run := Pause(b0, run + [s]);
        assert |cancels| == |cancels.Keys|;
      }
    }

    /** Claim operations while there is room, and say why that ended. */
    method FillStreams(clock: nat -> int, uuids: nat -> nat, ghost b0: B.Broker, ghost run0: seq<Step>)
      returns (ghost run: seq<Step>, ghost stop: Stop, ghost seen: seq<Step>)
      requires Traces(b0, run0)
      modifies this, store
      ensures Traces(b0, run) && closed == old(closed) && run0 <= run && cancels.Keys == old(cancels).Keys
      ensures stop.Full? ==> |streams| >= settings.maxStreams
      ensures !stop.Full? ==> StoppedAt(b0, settings, stop, seen) && Passes(seen, run)
    {
      hide Sound, Enabled, Next, Exec, ValidRun, Candidate, StoppedAt;
      run, stop, seen := run0, Full, run0;
      var turn := 0;
      while |streams| < settings.maxStreams
        invariant Traces(b0, run) && closed == old(closed) && stop.Full? && run0 <= run && cancels.Keys == old(cancels).Keys
        decreases settings.maxStreams - |streams|
      {
        ghost var room := |streams|;
        assert |streams| == |streams.Keys|;
        run := Pause(b0, run);
        assert |streams| == |streams.Keys|;
        var taken;
        taken, run, stop := ClaimTraced(clock(turn), uuids(turn), b0, run);
        turn := turn + 1;
        seen := run;
        assert |streams| == |streams.Keys|;
        run := Pause(b0, run);
        assert |streams| == |streams.Keys|;
        if !taken { return; }
      }
    }

    method ClaimTraced(now: int, uuid: nat, ghost b0: B.Broker, ghost run0: seq<Step>)
      returns (taken: bool, ghost run: seq<Step>, ghost stop: Stop)
      requires Traces(b0, run0) && |streams| < settings.maxStreams
      modifies this, store
      ensures Traces(b0, run) && closed == old(closed) && run0 <= run && cancels.Keys == old(cancels).Keys
      ensures taken ==> |streams| == old(|streams|) + 1 && stop.Full?
      ensures cancels == old(cancels)
      ensures !taken ==> !stop.Full? && StoppedAt(b0, settings, stop, run)
    {
      hide Sound, Enabled, Next, Exec, ValidRun, Candidate, BT.Waiting, BT.Held;
      ghost var s;
      taken, s := TakeOneClaim(now, uuid);
      run, stop := run0, Full;
      if s.Some? {
        Snoc(b0, settings, run0, s.value);
        run := run0 + [s.value];
        assert run[..|run| - 1] == run0;
        if !taken { stop := Refused; }
      } else {
        IdleHeld(settings, Abs());
        stop := Idle;
      }
    }

    /** `step`: reap, purge, take cancels, reads and claims, with other coroutines running at every await.  The jobs that
        had ended when the tables were reaped are gone, and a job found ended at the end ended since. */
    method Step(purgeAt: int, readAt: int, clock: nat -> int, uuids: nat -> nat)
      returns (ok: bool, ghost reaps: seq<Step>, ghost run: seq<Step>, ghost stop: Stop, ghost seen: seq<Step>, ghost looks: Looks)
      requires Valid()
      modifies this, store
      ensures ok == !old(closed) && closed == old(closed)
      ensures !ok ==> Abs() == old(Abs())
      ensures ok ==> Traces(old(Abs()), reaps + run)
      ensures ok ==> ValidRun(old(Abs()), settings, reaps) && AllSwept(old(Abs()), Exec(old(Abs()), settings, reaps))
      ensures ok ==> forall t, k :: HasEnded(Abs(), t, k) ==> exists s :: s in run && Ends(s, t, k)
      ensures ok ==> Took(Exec(old(Abs()), settings, reaps), settings, run, purgeAt, readAt, looks, |cancels| < settings.maxStreams)
      ensures ok && |Exec(old(Abs()), settings, reaps).probes| < settings.maxStreams ==> looks.readsTaken
      ensures ok && stop.Full? ==> |streams| >= settings.maxStreams
      ensures ok && !stop.Full? ==> StoppedAt(Exec(old(Abs()), settings, reaps), settings, stop, seen) && Passes(seen, run)
    {
      hide Sound, Enabled, Next, Exec, ValidRun, Candidate, StoppedAt, AllSwept, HasEnded, Ends, NoneCancelable, ReadsAt;
      reaps, run, stop, seen, looks := [], [], Full, [], Looks(0, 0, 0, false);
      if closed { return false, [], [], Full, [], looks; }
      ghost var b0 := Abs();
      reaps := ReapAll();
      ghost var b1 := Abs();
      NoSteps();
      ghost var purged, cancelsAt, readsAt, readsTaken;
      run, purged := PurgeTraced(purgeAt, b1, run);
      run, cancelsAt := FillCancels(b1, run);
      ghost var run1 := run;
      assert |cancels| == |cancels.Keys|;
      assert |b1.probes| == |b1.probes.Keys| && |probes| == |probes.Keys|;
      run, readsTaken, readsAt := ReadsTraced(readAt, b1, run);
      ghost var run2 := run;
      run, stop, seen := FillStreams(clock, uuids, b1, run);
      assert |cancels| == |cancels.Keys|;
      looks := Looks(purged, cancelsAt, readsAt, readsTaken);
      TookThat(b1, settings, run1, run2, run, purgeAt, readAt, looks, |cancels| < settings.maxStreams);
      RunAppend(b0, settings, reaps, run);
      forall t, k | HasEnded(Abs(), t, k) ensures exists s :: s in run && Ends(s, t, k) {
        EndedFrom(b1, settings, run, t, k);
        SweptClean(b0, b1, t, k);
      }
      ok := true;
    }

    method PurgeTraced(now: int, ghost b0: B.Broker, ghost run0: seq<Step>) returns (ghost run: seq<Step>, ghost at: nat)
      requires Traces(b0, run0)
      modifies this, store
      ensures Traces(b0, run) && closed == old(closed) && run0 <= run && probes.Keys == old(probes).Keys
      ensures |run0| <= at < |run| && run[at] == PurgeTick(now)
    {
      hide Sound, Enabled, Next, Exec, ValidRun;
      run := Pause(b0, run0);
      ghost var s := PurgeNow(now);
      Snoc(b0, settings, run, s);
      at := |run|;
      run := Pause(b0, run + [s]);
    }

    /** The read jobs, if there is room for one: of the rows due, in the order of their last poll. */
    method ReadsTraced(now: int, ghost b0: B.Broker, ghost run0: seq<Step>) returns (ghost run: seq<Step>, ghost taken: bool, ghost at: nat)
      requires Traces(b0, run0)
      modifies this, store
      ensures Traces(b0, run) && closed == old(closed) && run0 <= run && cancels.Keys == old(cancels).Keys
      ensures taken == (old(|probes|) < settings.maxStreams)
      ensures taken ==> ReadsAt(b0, settings, run, at, now)
    {
      hide Sound, Enabled, Next, Exec, ValidRun, NextToPoll;
      run, at := run0, 0;
      taken := |probes| < settings.maxStreams;
      if |probes| < settings.maxStreams {
        assert |probes| == |probes.Keys|;
        run := Pause(b0, run);
        assert |probes| == |probes.Keys|;
        ghost var run1 := run;
        ghost var s := TakeSomeReads(now);
        Snoc(b0, settings, run, s);
        at := |run|;
        run := Pause(b0, run + [s]);
        assert run[..at] == run1;
      }
    }

    // -------------------------------------------------------------- the submission coroutine

    /** Other coroutines run while this one awaits, and a timeout or cancellation may end the wait.  Callers may
        rely on this contract only; `MeanwhileSubmitting` shows that any run of other steps of the machine meets it. */
    method Await(k: Key, calm: bool, ghost b0: B.Broker, ghost run0: seq<Step>) returns (interrupted: bool, ghost run: seq<Step>)
      requires Traces(b0, run0) && k in streams
      modifies this, store
      ensures Traces(b0, run) && Extends(run0, run, k) && (calm ==> !interrupted)
      ensures k in streams && streams[k] == old(streams)[k] && old(completions) <= completions
    {
      run := run0;
      interrupted := *;
      if calm { interrupted := false; }
    }

    method BeginStream(k: Key, ghost b0: B.Broker, ghost run0: seq<Step>) returns (ghost run: seq<Step>)
      requires Traces(b0, run0) && k in streams && !streams[k].started && !streams[k].ended
      modifies this
      ensures Traces(b0, run) && run == run0 + [Start(Streams, k)]
      ensures k in streams && streams[k] == old(streams)[k].(started := true)
    {
      hide Sound, Enabled, Next, Exec, ValidRun;
      StartStep(settings, Abs(), k);
      Snoc(b0, settings, run0, Start(Streams, k));
      run := run0 + [Start(Streams, k)];
      streams := streams[k := streams[k].(started := true)];
      submissions := submissions + [k];
    }

    method SaveHandle(k: Key, handle: string, terminal: bool, completed: bool, now: int, ghost b0: B.Broker, ghost run0: seq<Step>)
      returns (reply: Result<(), Code>, ghost run: seq<Step>)
      requires Traces(b0, run0) && k in streams && streams[k].started && !streams[k].ended && (completed ==> terminal)
      modifies this, store
      ensures Traces(b0, run) && run == run0 + [Observe(Streams, k, handle, terminal, completed, now)]
      ensures k in streams && streams[k].started && !streams[k].ended
      ensures reply.Err? ==> reply.error == InvalidPeerHandle || reply.error == NotFound || reply.error == PeerHandleConflict
      ensures reply.Ok? && terminal ==> streams[k].observed.Some? && (completed ==> k in completions)
      ensures reply.Ok? ==> HandleKept(store.operations, k, handle)
      ensures reply.Err? ==> StepRefused(b0, settings, run, reply.error)
    {
      hide Sound, Enabled, Next, Exec, ValidRun;
      HandleSaved(store.Db(), settings, k, handle, now);
      ghost var before := store.Db();
      ObserveStep(settings, Abs(), k, handle, terminal, completed, now);
      Snoc(b0, settings, run0, Observe(Streams, k, handle, terminal, completed, now));
      run := run0 + [Observe(Streams, k, handle, terminal, completed, now)];
      HandleErrors(store.Db(), settings, k, handle, now);
      hide L.SaveHandle;
      reply := store.SaveHandle(k, handle, now);
      if reply.Ok? && terminal {
        streams := streams[k := streams[k].(observed := Some(handle))];
        if completed { completions := completions + {k}; }
      }
      assert run[..|run| - 1] == run0;
    }

    /** `finish` from inside the job, which then returns. */
    method Conclude(k: Key, state: OpState, result: Option<OpResult>, code: Option<Code>, now: int, uuid: nat,
                    ghost b0: B.Broker, ghost run0: seq<Step>) returns (ghost run: seq<Step>)
      requires Traces(b0, run0) && k in streams && streams[k].observed.Some? && Final(state)
      requires state.Completed? ==> k in completions
      modifies this, store
      ensures Traces(b0, run) && run == run0 + [Settle(Streams, k, state, result, code, now, uuid)]
      ensures k in streams && streams[k] == old(streams)[k].(ended := true)
    {
      hide Sound, Enabled, Next, Exec, ValidRun, L.Finish;
      SettleStep(settings, Abs(), k, state, result, code, now, uuid);
      Snoc(b0, settings, run0, Settle(Streams, k, state, result, code, now, uuid));
      run := run0 + [Settle(Streams, k, state, result, code, now, uuid)];
      var _ := store.Finish(k, state, result, code, now, uuid);
      streams := streams[k := streams[k].(ended := true)];
    }

    /** `_unknown`. */
    method Unknown(k: Key, now: int, uuid: nat, ghost b0: B.Broker, ghost run0: seq<Step>) returns (ghost run: seq<Step>)
      requires Traces(b0, run0) && k in streams
      modifies this, store
      ensures Traces(b0, run) && run == run0 + [GiveUp(k, now, uuid)]
      ensures k in streams && streams[k] == old(streams)[k].(ended := true)
    {
      hide Sound, Enabled, Next, Exec, ValidRun, L.Finish;
      GiveUpStep(settings, Abs(), k, now, uuid);
      Snoc(b0, settings, run0, GiveUp(k, now, uuid));
      run := run0 + [GiveUp(k, now, uuid)];
      var _ := store.Finish(k, OutcomeUnknown, None, Some(SubmissionUnknown), now, uuid);
      streams := streams[k := streams[k].(ended := true)];
    }

    /** The job returns because its operation was already final. */
    method Return(k: Key, ghost b0: B.Broker, ghost run0: seq<Step>) returns (ghost run: seq<Step>)
      requires Traces(b0, run0) && k in streams && streams[k].observed.Some?
      requires k in store.operations && Final(store.operations[k].state)
      modifies this
      ensures Traces(b0, run) && run == run0 + [EndJob(Streams, k)]
      ensures k in streams && streams[k] == old(streams)[k].(ended := true)
    {
      hide Sound, Enabled, Next, Exec, ValidRun;
      EndStep(settings, Abs(), k);
      Snoc(b0, settings, run0, EndJob(Streams, k));
      run := run0 + [EndJob(Streams, k)];
      streams := streams[k := streams[k].(ended := true)];
    }

    method StoreArtifact(k: Key, content: string, typeOk: bool, u: Upload, ghost b0: B.Broker, ghost run0: seq<Step>)
      returns (reply: Result<nat, Code>, ghost run: seq<Step>)
      requires Traces(b0, run0) && k in streams
      modifies this, store
      ensures Traces(b0, run) && Extends(run0, run, k) && streams == old(streams) && completions == old(completions)
      ensures run == run0 + [UploadRequest(k.device, content, content, typeOk, u.textPlain, u.utf8, u.now, u.id)]
      ensures reply.Ok? ==> reply.value == u.id
      ensures reply.Err? ==> StepRefused(b0, settings, run, reply.error)
    {
      hide Sound, Enabled, Next, Exec, ValidRun;
      PutReply(store.Db(), settings, k.device, content, typeOk, u.textPlain, u.utf8, u.now, u.id);
      hide L.PutArtifact;
      UploadStep(settings, Abs(), k.device, content, typeOk, u.textPlain, u.utf8, u.now, u.id);
      ghost var s := UploadRequest(k.device, content, content, typeOk, u.textPlain, u.utf8, u.now, u.id);
      Snoc(b0, settings, run0, s);
      run := run0 + [s];
      reply := store.PutArtifact(k.device, content, content, typeOk, u.textPlain, u.utf8, u.now, u.id);
      assert run[..|run| - 1] == run0;
    }

    /** One raw part: decoded and stored, as upload number `n`. */
    method StorePart(k: Key, part: Part, n: nat, w: World, ghost b0: B.Broker, ghost run0: seq<Step>)
      returns (r: Observed, ids: seq<nat>, ghost run: seq<Step>)
      requires Traces(b0, run0) && k in streams
      modifies this, store
      ensures Traces(b0, run) && Extends(run0, run, k)
      ensures k in streams && streams[k] == old(streams)[k] && old(completions) <= completions
      ensures var raws := if part.Part? && part.raw.Some? then [part] else [];
        && (r.Handled? ==> PartObstacle(settings, part).None? && AllUploaded(run, |run0|, k.device, raws, w, n) && ids == Ids(w, n, |raws|))
        && (r.Raised? ==> Unstorable(b0, settings, run, k.device, raws, PartObstacle(settings, part), w, r.code))
        && (r.Interrupted? ==> !w.calm)
    {
      hide Sound, Enabled, Next, Exec, ValidRun, StepRefused, Decode, AsContent, TypeOk, Other, ReadOf;
      run, ids, r := run0, [], Handled;
      if part.Junk? { return; }
      if "url" in part.fields { return Raised(UnsupportedPeerArtifact), [], run; }
      if part.raw.None? { return; }
      if |part.raw.value| > (settings.maxArtifactBytes + 2) / 3 * 4 { return Raised(ArtifactTooLarge), [], run; }
      var content := Decode(part.raw.value);
      if content.None? { return Raised(InvalidPeerArtifact), [], run; }
      var interrupted;
      interrupted, run := Await(k, w.calm, b0, run);
      if interrupted { return Interrupted, [], run; }
      ghost var run1 := run;
      var reply;
      reply, run := StoreArtifact(k, AsContent(content.value), TypeOk(part.fields), w.uploads(n), b0, run);
      ExtendsTrans(run0, run1, run, k);
      assert run[|run1|] == UploadOf(k.device, part, w.uploads(n));
      if reply.Err? { return Raised(reply.error), [], run; }
      ids := [reply.value];
    }

    /** The descriptor loop of `_observe`: every raw part is stored, or the first obstacle reported. */
    method StoreParts(k: Key, parts: seq<Part>, n: nat, w: World, ghost b0: B.Broker, ghost run0: seq<Step>)
      returns (r: Observed, ids: seq<nat>, ghost run: seq<Step>)
      requires Traces(b0, run0) && k in streams
      modifies this, store
      ensures Traces(b0, run) && Extends(run0, run, k)
      ensures k in streams && streams[k] == old(streams)[k] && old(completions) <= completions
      ensures r.Handled? ==> PartsObstacle(settings, parts).None? && AllUploaded(run, |run0|, k.device, Raws(parts), w, n) && ids == Ids(w, n, |Raws(parts)|)
      ensures r.Raised? ==> Unstorable(b0, settings, run, k.device, Raws(parts), PartsObstacle(settings, parts), w, r.code)
      ensures r.Interrupted? ==> !w.calm
    {
      hide Sound, Enabled, Next, Exec, ValidRun, Other, AllUploaded, Unstorable, PartObstacle, Ids;
      run, ids, r := run0, [], Handled;
      NothingUploaded(run, |run0|, k.device, w, n);
      var i := 0;
      while i < |parts|
        invariant i <= |parts| && Traces(b0, run) && Extends(run0, run, k) && r.Handled?
        invariant k in streams && streams[k] == old(streams)[k] && old(completions) <= completions
        invariant PartsObstacle(settings, parts[..i]).None? && AllUploaded(run, |run0|, k.device, Raws(parts[..i]), w, n)
        invariant ids == Ids(w, n, |Raws(parts[..i])|)
      {
        ghost var run1, part, done := run, parts[i], Raws(parts[..i]);
        ghost var raws := if part.Part? && part.raw.Some? then [part] else [];
        assert parts[..i + 1][..i] == parts[..i];
        assert Raws(parts[..i + 1]) == done + raws;
        var more;
        r, more, run := StorePart(k, parts[i], n + |ids|, w, b0, run);
        ExtendsTrans(run0, run1, run, k);
        if !r.Handled? {
          if r.Raised? {
            RawsWithin(parts, i);
            if PartObstacle(settings, part).Some? { PartsBlocked(settings, parts, i + 1); }
            UnstorableMore(b0, settings, run, k.device, raws, PartObstacle(settings, part), Raws(parts), PartsObstacle(settings, parts), w, r.code);
          }
          return;
        }
        UploadsStay(run1, run, |run0|, |run0|, k.device, done, w, n);
        UploadsStay(run, run, |run1|, |run0|, k.device, raws, w, n + |done|);
        UploadsMore(run, |run0|, k.device, done, raws, w, n);
        ids := ids + more;
        i := i + 1;
      }
      assert parts[..i] == parts;
    }

    /** The same over all artifacts of a result. */
    method StoreAll(k: Key, artifacts: seq<PeerArtifact>, w: World, ghost b0: B.Broker, ghost run0: seq<Step>)
      returns (r: Observed, ids: seq<nat>, ghost run: seq<Step>)
      requires Traces(b0, run0) && k in streams
      modifies this, store
      ensures Traces(b0, run) && Extends(run0, run, k)
      ensures k in streams && streams[k] == old(streams)[k] && old(completions) <= completions
      ensures r.Handled? ==> Obstacle(settings, artifacts).None? && AllUploaded(run, |run0|, k.device, AllRaws(artifacts), w, 0) && ids == Ids(w, 0, |AllRaws(artifacts)|)
      ensures r.Raised? ==> Unstorable(b0, settings, run, k.device, AllRaws(artifacts), Obstacle(settings, artifacts), w, r.code)
      ensures r.Interrupted? ==> !w.calm
    {
      hide Sound, Enabled, Next, Exec, ValidRun, Other, AllUploaded, Unstorable, PartsObstacle, Ids, Raws;
      run, ids, r := run0, [], Handled;
      NothingUploaded(run, |run0|, k.device, w, 0);
      var i := 0;
      while i < |artifacts|
        invariant i <= |artifacts| && Traces(b0, run) && Extends(run0, run, k) && r.Handled?
        invariant k in streams && streams[k] == old(streams)[k] && old(completions) <= completions
        invariant Obstacle(settings, artifacts[..i]).None? && AllUploaded(run, |run0|, k.device, AllRaws(artifacts[..i]), w, 0)
        invariant ids == Ids(w, 0, |AllRaws(artifacts[..i])|)
      {
        ghost var run1, parts, done := run, artifacts[i].parts, AllRaws(artifacts[..i]);
        assert artifacts[..i + 1][..i] == artifacts[..i];
        var more;
        r, more, run := StoreParts(k, artifacts[i].parts, |ids|, w, b0, run);
        ExtendsTrans(run0, run1, run, k);
        if !r.Handled? {
          if r.Raised? {
            AllRawsWithin(artifacts, i);
            if PartsObstacle(settings, parts).Some? { Blocked(settings, artifacts, i + 1); }
            UnstorableMore(b0, settings, run, k.device, Raws(parts), PartsObstacle(settings, parts), AllRaws(artifacts),
                           Obstacle(settings, artifacts), w, r.code);
          }
          return;
        }
        UploadsStay(run1, run, |run0|, |run0|, k.device, done, w, 0);
        UploadsStay(run, run, |run1|, |run0|, k.device, Raws(parts), w, |done|);
        UploadsMore(run, |run0|, k.device, done, Raws(parts), w, 0);
        ids := ids + more;
        i := i + 1;
      }
      assert artifacts[..i] == artifacts;
    }

    /** The rest of `_observe` for a terminal result of an operation that is not final yet. */
    method SettleResult(k: Key, task: TaskResult, w: World, ghost b0: B.Broker, ghost run0: seq<Step>) returns (r: Observed, ghost run: seq<Step>)
      requires Traces(b0, run0) && k in streams && streams[k].started && !streams[k].ended && streams[k].observed.Some?
      requires PeerTerminal(task.state) && (task.state == "completed" ==> k in completions)
      modifies this, store
      ensures Traces(b0, run) && Adds(run0, run, k, SeenIn(task)) && k in streams && streams[k].started
      ensures (r.Handled? <==> streams[k].ended) && streams[k].observed.Some?
      ensures r.Handled? ==> SettledAs(settings, codec, run, |run0|, k, task, w)
      ensures r.Raised? ==> Hindered(b0, settings, run, k, task, w, r.code)
      ensures r.Interrupted? ==> !w.calm
    {
      hide Sound, Enabled, Next, Exec, ValidRun, Own, AllUploaded, AllRaws, Unstorable, Obstacle, Ids;
      var interrupted;
      interrupted, run := Await(k, w.calm, b0, run0);
      ExtendsAdds(run0, run, k);
      if interrupted { return Interrupted, run; }
      ghost var run1, s := run, SettlingOf(codec, k, task, w);
      if !PeerFinal(task.state) {
        var code := if task.state == "input_required" then PeerRequiresInput else PeerRejected;
        run := Conclude(k, Failed, Some(Diagnostics(codec.details(task), codec.detailsSize(task))), Some(code), w.settledAt, w.uuid, b0, run);
        AddsOne(run0, run1, s, k, SeenIn(task));
        return Handled, run;
      }
      var ids;
      r, ids, run := StoreAll(k, task.artifacts, w, b0, run);
      ExtendsAdds(run1, run, k);
      AddsMore(run0, run1, run, k, SeenIn(task));
      if !r.Handled? { return; }
      ghost var run2 := run;
      run := Conclude(k, OutcomeOf(task.state), Some(Content(task.text, ids, codec.size(task.text, ids))), None, w.settledAt, w.uuid, b0, run);
      AddsOne(run0, run2, s, k, SeenIn(task));
      UploadsStay(run2, run, |run1|, |run0|, k.device, AllRaws(task.artifacts), w, 0);
    }

    /** `_observe` for a result with a handle: the handle is saved first, always; then a terminal result is settled unless the
        operation is final already. */
    method ObserveResult(k: Key, task: TaskResult, w: World, ghost b0: B.Broker, ghost run0: seq<Step>)
      returns (r: Observed, ghost run: seq<Step>)
      requires Traces(b0, run0) && k in streams && streams[k].started && !streams[k].ended
      modifies this, store
      ensures Traces(b0, run) && Adds(run0, run, k, SeenIn(task)) && k in streams && streams[k].started
      ensures r.Handled? && !PeerTerminal(task.state) ==>
        !streams[k].ended && HandleKept(store.operations, k, task.taskId) && run != [] && run[|run| - 1] == Saving(k, task, w)
      ensures r.Handled? && PeerTerminal(task.state) && !streams[k].ended ==>
        streams[k].observed.Some? && k in store.operations && Final(store.operations[k].state)
      ensures !r.Handled? ==> !streams[k].ended
      ensures r.Raised? && Definite(r.code) ==> PeerTerminal(task.state) && streams[k].observed.Some?
      ensures streams[k].ended ==> SettledAs(settings, codec, run, |run0|, k, task, w)
      ensures r.Raised? ==> Hindered(b0, settings, run, k, task, w, r.code)
      ensures r.Interrupted? ==> !w.calm
    {
      hide Sound, Enabled, Next, Exec, ValidRun, SettledAs, Hindered, HandleKept, Adds, Extends;
      r, run := SaveFirst(k, task, w, b0, run0);
      if !r.Handled? || !PeerTerminal(task.state) { return; }
      ghost var run1 := run;
      var interrupted;
      interrupted, run := Await(k, w.calm, b0, run);
      AddsMore(run0, run1, run, k, SeenIn(task));
      if interrupted { return Interrupted, run; }
      var current := store.Get(k, w.savedAt);
      if current.Ok? && Final(current.value.state) { return Handled, run; }
      ghost var run2 := run;
      r, run := SettleResult(k, task, w, b0, run);
      if r.Handled? {
        Continues(run0, run2, k, SeenIn(task));
        SettledSince(settings, codec, run, |run2|, |run0|, k, task, w);
      }
      AddsMore(run0, run2, run, k, SeenIn(task));
    }

    /** The handle of a result is saved, before anything else. */
    method SaveFirst(k: Key, task: TaskResult, w: World, ghost b0: B.Broker, ghost run0: seq<Step>) returns (r: Observed, ghost run: seq<Step>)
      requires Traces(b0, run0) && k in streams && streams[k].started && !streams[k].ended
      modifies this, store
      ensures Traces(b0, run) && Adds(run0, run, k, SeenIn(task)) && k in streams && streams[k].started && !streams[k].ended
      ensures r.Handled? ==> HandleKept(store.operations, k, task.taskId) && run != [] && run[|run| - 1] == Saving(k, task, w)
      ensures r.Handled? && PeerTerminal(task.state) ==> streams[k].observed.Some? && (task.state == "completed" ==> k in completions)
      ensures r.Raised? ==> Hindered(b0, settings, run, k, task, w, r.code) && !Definite(r.code)
      ensures r.Interrupted? ==> !w.calm
    {
      hide Sound, Enabled, Next, Exec, ValidRun, Unstorable, StepRefused, HandleKept, Adds, Extends;
      var interrupted;
      interrupted, run := Await(k, w.calm, b0, run0);
      ExtendsAdds(run0, run, k);
      if interrupted { return Interrupted, run; }
      ghost var run1 := run;
      var saved;
      saved, run := SaveHandle(k, task.taskId, PeerTerminal(task.state), task.state == "completed", w.savedAt, b0, run);
      AddsOne(run0, run1, Saving(k, task, w), k, SeenIn(task));
      r := if saved.Err? then Raised(saved.error) else Handled;
    }

    /** One result of the peer's stream; `stop` tells that the job returned.  A result without a handle is ignored; one that
        is not terminal leaves the job running with its handle saved, unless the handle is refused. */
    method OnResult(k: Key, task: TaskResult, w: World, ghost b0: B.Broker, ghost run0: seq<Step>) returns (stop: bool, ghost run: seq<Step>)
      requires Traces(b0, run0) && k in streams && streams[k].started && !streams[k].ended
      modifies this, store
      ensures Traces(b0, run) && Adds(run0, run, k, SeenIn(task)) && k in streams && streams[k].started
      ensures stop == streams[k].ended
      ensures task.taskId == "" ==> !stop && run == run0
      ensures stop ==> Concluded(b0, settings, codec, run, |run0|, k, task, w)
      ensures Decisive(task) ==> stop
      ensures !stop && task.taskId != "" ==>
        HandleKept(store.operations, k, task.taskId) && run != [] && run[|run| - 1] == Saving(k, task, w)
    {
      hide Sound, Enabled, Next, Exec, ValidRun, Own, SettledAs, Hindered, HandleKept;
      stop, run := false, run0;
      if task.taskId == "" { return; }
      var r;
      r, run := ObserveResult(k, task, w, b0, run);
      if r.Handled? {
        stop := PeerTerminal(task.state);
        if stop && !streams[k].ended { run := Return(k, b0, run); }
      } else {
        stop := true;
        run := OnFailure(k, task, r, w, b0, run0, run);
      }
    }

    /** The handlers of `_submit`: a definite error after a terminal result fails the operation, any other one gives it up. */
    method OnFailure(k: Key, task: TaskResult, r: Observed, w: World, ghost b0: B.Broker, ghost run0: seq<Step>, ghost run1: seq<Step>)
      returns (ghost run: seq<Step>)
      requires Traces(b0, run1) && Adds(run0, run1, k, SeenIn(task)) && k in streams && streams[k].started && !streams[k].ended
      requires r.Raised? ==> Hindered(b0, settings, run1, k, task, w, r.code)
      requires r.Raised? && Definite(r.code) ==> PeerTerminal(task.state) && streams[k].observed.Some?
      requires !r.Handled? && (r.Interrupted? ==> !w.calm)
      modifies this, store
      ensures Traces(b0, run) && Adds(run0, run, k, SeenIn(task)) && k in streams && streams[k].started && streams[k].ended
      ensures Concluded(b0, settings, codec, run, |run0|, k, task, w)
    {
      hide Sound, Enabled, Next, Exec, ValidRun, Own, SettledAs, Hindered;
      if r.Raised? && PeerTerminal(task.state) && Definite(r.code) {
        run := Conclude(k, Failed, None, Some(r.code), w.settledAt, w.uuid, b0, run1);
        AddsOne(run0, run1, run[|run1|], k, SeenIn(task));
        assert run[..|run| - 1] == run1;
        assert FailsFor(b0, settings, run, k, task, w, r.code);
      } else {
        run := Unknown(k, w.settledAt, w.uuid, b0, run1);
        AddsOne(run0, run1, run[|run1|], k, SeenIn(task));
        assert run[..|run| - 1] == run1;
        if r.Raised? { assert Baffled(b0, settings, run, k, task, w, r.code); }
      }
    }

    lemma NoSteps()
      requires Valid()
      ensures Traces(Abs(), [])
    {
      hide Sound;
    }

    /** What holds once the job has ended. */
    lemma Ended(b0: B.Broker, run: seq<Step>, k: Key, seen: Seen)
      requires Traces(b0, run) && Adds([], run, k, seen) && k in streams && streams[k].ended
      ensures k in store.operations && Terminal(store.operations[k].state)
      ensures store.operations[k].state.Completed? && k !in b0.completions ==>
        seen.completed || exists s :: s in run && s.Observe? && s.k == k && s.completed && s.table.Cancels?
      ensures Final(store.operations[k].state) && Open(b0.db.ops, k) ==>
        seen.terminal || exists s :: s in run && s.Settle? && s.k == k && s.table.Cancels?
    {
      hide Sound, Exec, ValidRun;
      ClosedJob(settings, Abs(), k);
      if k in completions && k !in b0.completions { CompletedBacked(settings, b0, run, k, seen); }
      if Open(b0.db.ops, k) && !Open(store.operations, k) { FinalBacked(settings, b0, run, k, seen); }
    }

    /** The interruption of the wait for the next result, or that result. */
    method NextResult(k: Key, task: TaskResult, w: World, ghost b0: B.Broker, ghost run0: seq<Step>, ghost seen: Seen)
      returns (stop: bool, ghost run: seq<Step>)
      requires Traces(b0, run0) && Adds([], run0, k, seen) && k in streams && streams[k].started && !streams[k].ended
      requires (SeenIn(task).completed ==> seen.completed) && (SeenIn(task).terminal ==> seen.terminal)
      modifies this, store
      ensures Traces(b0, run) && Adds([], run, k, seen) && k in streams && streams[k].started && run0 <= run
      ensures stop == streams[k].ended
      ensures stop ==> Concluded(b0, settings, codec, run, |run0|, k, task, w)
      ensures Decisive(task) ==> stop
      ensures !stop && task.taskId != "" ==> HandleKept(store.operations, k, task.taskId)
    {
      hide Sound, Enabled, Next, Exec, ValidRun, Own, Concluded, HandleKept;
      var interrupted;
      interrupted, run := Await(k, w.calm, b0, run0);
      ExtendsAdds(run0, run, k);
      AddsMore([], run0, run, k, seen);
      ghost var run1 := run;
      if interrupted {
        run := Unknown(k, w.settledAt, w.uuid, b0, run);
        AddsOne([], run1, GiveUp(k, w.settledAt, w.uuid), k, seen);
        GivenUp(b0, settings, codec, run, |run0|, k, task, w);
        stop := true;
      } else {
        stop, run := OnResult(k, task, w, b0, run);
        assert Adds(run1, run, k, seen);
        AddsMore([], run1, run, k, seen);
        if stop { ConcludedSince(b0, settings, codec, run, |run1|, |run0|, k, task, w); }
      }
    }

    /** `_submit`: drain the peer's stream.  However it ends, the operation is left terminal.  The results are taken one by
        one, each with its handle saved, up to the first that ends the job: a terminal one always does, and it is concluded
        from `mark` on; if none does, the job is given up at the end of the stream.  The operation is left completed only
        if a result of this stream carried that state, and final only if one carried a terminal state, unless a cancel
        job of the operation saw and settled that meanwhile. */
    method Submit(k: Key, results: seq<TaskResult>, ending: Ending, world: nat -> World)
      returns (cancelled: bool, ghost taken: nat, ghost mark: nat, ghost run: seq<Step>)
      requires Valid() && k in streams && !streams[k].started && !streams[k].ended
      modifies this, store
      ensures Traces(old(Abs()), run) && k in streams && streams[k].ended && run != [] && run[0] == Start(Streams, k)
      ensures k in store.operations && Terminal(store.operations[k].state)
      ensures taken <= |results| && forall i :: 0 <= i < taken ==> !Decisive(results[i])
      ensures forall i :: 0 <= i < taken && results[i].taskId != "" ==> HandleKept(store.operations, k, results[i].taskId)
      ensures taken < |results| ==> Concluded(old(Abs()), settings, codec, run, mark, k, results[taken], world(taken))
      ensures taken == |results| ==> run[|run| - 1] == GiveUp(k, world(taken).settledAt, world(taken).uuid)
      ensures store.operations[k].state.Completed? ==>
        || SawCompleted(results)
        || (exists s :: s in run && s.Observe? && s.k == k && s.completed && s.table.Cancels?)
      ensures Final(store.operations[k].state) ==>
        || SawTerminal(results)
        || (exists s :: s in run && s.Settle? && s.k == k && s.table.Cancels?)
    {
      hide Sound, Enabled, Next, Exec, ValidRun, Own, SawCompleted, SawTerminal, Concluded, HandleKept, Decisive;
      ghost var b0, seen := Abs(), Seen(SawCompleted(results), SawTerminal(results));
      cancelled := false;
      run := [];
      NoSteps();
      NotBegun(settings, b0, k);
      run := BeginStream(k, b0, run);
      assert Adds([], run, k, seen);
      hide Adds;
      var i := 0;
      var stop := false;
      taken, mark := 0, |run|;
      while i < |results| && !stop
        invariant i <= |results| && Traces(b0, run) && Adds([], run, k, seen) && k in streams && streams[k].started
        invariant stop == streams[k].ended && run != [] && run[0] == Start(Streams, k)
        invariant taken == (if stop then i - 1 else i) && 0 <= taken
        invariant forall j :: 0 <= j < taken ==> !Decisive(results[j])
        invariant forall j :: 0 <= j < taken && results[j].taskId != "" ==> HandleKept(store.operations, k, results[j].taskId)
        invariant stop ==> Concluded(b0, settings, codec, run, mark, k, results[taken], world(taken))
      {
        Saw(results, i);
        ghost var run0, ops := run, store.operations;
        stop, run := NextResult(k, results[i], world(i), b0, run, seen);
        mark := |run0|;
        HandlesStay(settings, b0, run0, run, k, results, taken);
        i := i + 1;
        taken := if stop then i - 1 else i;
      }
      if !stop {
        ghost var run0 := run;
        AddsOne([], run, GiveUp(k, world(i).settledAt, world(i).uuid), k, seen);
        run := Unknown(k, world(i).settledAt, world(i).uuid, b0, run);
        HandlesStay(settings, b0, run0, run, k, results, taken);
        cancelled := ending.Cancelled?;
      }
      Ended(b0, run, k, seen);
    }
  }
}
