/** Invariants of every broker run: job tables, at-most-once claims, submissions and peer cancels. */
module BrokerInvariant {
  import opened Common
  import opened Ledger
  import opened LedgerInvariant
  import opened LedgerSteps
  import opened Broker

  /** A job belongs to an operation that has been claimed; what it observed is what the row carries. */
  predicate JobOk(t: Table, k: Key, job: Job, ops: map<Key, Row>) {
    && k in ops && !ops[k].state.Accepted?
    && (job.observed.Some? ==> ops[k].handle == job.observed || Final(ops[k].state))
    && (!t.Streams? ==> job.target.Some? && ops[k].handle == job.target)
    && (t.Cancels? ==> ops[k].cancelClaimed)
    && (t.Streams? && job.ended ==> Terminal(ops[k].state))
  }

  predicate JobsOk(t: Table, jobs: map<Key, Job>, ops: map<Key, Row>) {
    forall k :: k in jobs ==> JobOk(t, k, jobs[k], ops)
  }

  /** Every table is bounded, no operation is both streamed and polled, and a stopped process has no jobs. */
  predicate CapacityOk(streams: map<Key, Job>, probes: map<Key, Job>, cancels: map<Key, Job>, up: bool, cfg: Settings) {
    && |streams| <= cfg.maxStreams && |probes| <= cfg.maxStreams && |cancels| <= cfg.maxStreams
    && streams.Keys !! probes.Keys
    && (!up ==> streams == map[] && probes == map[] && cancels == map[])
  }

  /** No operation is claimed twice, and a claimed operation never waits again. */
  predicate ClaimsOk(claims: seq<Key>, streams: map<Key, Job>, ops: map<Key, Row>) {
    && Distinct(claims)
    && (forall k :: k in claims ==> k in ops && !ops[k].state.Accepted?)
    && (forall k :: k in streams ==> k in claims)
  }

  /** No operation is submitted to the peer twice, and only claimed ones are. */
  predicate SubmissionsOk(submissions: seq<Key>, claims: seq<Key>, streams: map<Key, Job>) {
    && Distinct(submissions)
    && (forall k :: k in submissions ==> k in claims)
    && (forall k :: k in streams && !streams[k].started ==> k !in submissions)
  }

  /** No operation is canceled at the peer twice. */
  predicate PeerCancelsOk(peerCancels: seq<Key>, cancels: map<Key, Job>, ops: map<Key, Row>) {
    && Distinct(peerCancels)
    && (forall k :: k in peerCancels ==> k in ops && ops[k].cancelClaimed)
    && (forall k :: k in cancels && !cancels[k].started ==> k !in peerCancels)
  }

  predicate CompletedOk(ops: map<Key, Row>, completions: set<Key>) {
    forall k :: k in ops && ops[k].state.Completed? ==> k in completions
  }

  ghost predicate BrokerInv(cfg: Settings, b: Broker) {
    && LedgerInv(cfg, b.db)
    && JobsOk(Streams, b.streams, b.db.ops) && JobsOk(Reads, b.probes, b.db.ops) && JobsOk(Cancels, b.cancels, b.db.ops)
    && CapacityOk(b.streams, b.probes, b.cancels, b.up, cfg)
    && ClaimsOk(b.claims, b.streams, b.db.ops)
    && SubmissionsOk(b.submissions, b.claims, b.streams)
    && PeerCancelsOk(b.peerCancels, b.cancels, b.db.ops)
    && CompletedOk(b.db.ops, b.completions)
  }

  // ---------------------------------------------------------------- tables, one fact at a time

  lemma JobsStable(t: Table, jobs: map<Key, Job>, ops: map<Key, Row>, ops': map<Key, Row>)
    requires JobsOk(t, jobs, ops) && OpsEvolve(ops, ops')
    ensures JobsOk(t, jobs, ops')
  {
    forall k | k in jobs ensures JobOk(t, k, jobs[k], ops') {
      assert JobOk(t, k, jobs[k], ops) && RowEvolves(ops[k], ops'[k]);
    }
  }

  lemma JobsPut(t: Table, jobs: map<Key, Job>, k: Key, job: Job, ops: map<Key, Row>)
    requires JobsOk(t, jobs, ops) && JobOk(t, k, job, ops)
    ensures JobsOk(t, jobs[k := job], ops)
  {
  }

  lemma JobsDrop(t: Table, jobs: map<Key, Job>, k: Key, ops: map<Key, Row>)
    requires JobsOk(t, jobs, ops)
    ensures JobsOk(t, jobs - {k}, ops)
    ensures |jobs - {k}| <= |jobs| && (jobs - {k}).Keys == jobs.Keys - {k}
  {
    assert (jobs - {k}).Keys == jobs.Keys - {k};
    SubsetSize((jobs - {k}).Keys, jobs.Keys);
  }

  lemma PutSize(jobs: map<Key, Job>, k: Key, job: Job)
    ensures |jobs[k := job]| == if k in jobs then |jobs| else |jobs| + 1
    ensures (jobs[k := job]).Keys == jobs.Keys + {k}
  {
    assert (jobs[k := job]).Keys == jobs.Keys + {k};
    if k in jobs { assert jobs.Keys + {k} == jobs.Keys; }
  }

  lemma HistoriesStable(b: Broker, ops: map<Key, Row>)
    requires ClaimsOk(b.claims, b.streams, b.db.ops) && PeerCancelsOk(b.peerCancels, b.cancels, b.db.ops)
    requires OpsEvolve(b.db.ops, ops)
    ensures ClaimsOk(b.claims, b.streams, ops) && PeerCancelsOk(b.peerCancels, b.cancels, ops)
  {
    forall k | k in b.claims ensures k in ops && !ops[k].state.Accepted? {
      assert RowEvolves(b.db.ops[k], ops[k]);
    }
    forall k | k in b.peerCancels ensures k in ops && ops[k].cancelClaimed {
      assert RowEvolves(b.db.ops[k], ops[k]);
    }
  }

  lemma OpsOf(a: Ledger, b: Ledger)
    requires LedgerEvolves(a, b)
    ensures OpsEvolve(a.ops, b.ops)
  {
  }

  /** A ledger transaction alone: every table and history still fits the new rows. */
  lemma LedgerOnly(cfg: Settings, b: Broker, db: Ledger, completions: set<Key>)
    requires BrokerInv(cfg, b) && Keeps(cfg, b.db, db) && CompletedOk(db.ops, completions)
    ensures BrokerInv(cfg, b.(db := db, completions := completions))
  {
    hide LedgerInv, LedgerEvolves, JobsOk, CapacityOk, ClaimsOk, SubmissionsOk, PeerCancelsOk, CompletedOk, OpsEvolve;
    OpsOf(b.db, db);
    JobsStable(Streams, b.streams, b.db.ops, db.ops);
    JobsStable(Reads, b.probes, b.db.ops, db.ops);
    JobsStable(Cancels, b.cancels, b.db.ops, db.ops);
    HistoriesStable(b, db.ops);
  }

  predicate NoNewCompleted(ops: map<Key, Row>, ops': map<Key, Row>) {
    forall k :: k in ops' && ops'[k].state.Completed? ==> k in ops && ops[k].state.Completed?
  }

  lemma CompletedStable(ops: map<Key, Row>, ops': map<Key, Row>, completions: set<Key>)
    requires CompletedOk(ops, completions) && NoNewCompleted(ops, ops')
    ensures CompletedOk(ops', completions)
  {
  }

  /** Replacing a live job by one that fits keeps everything. */
  lemma JobChanged(cfg: Settings, b: Broker, t: Table, k: Key, job: Job)
    requires BrokerInv(cfg, b) && b.up && k in Jobs(b, t) && JobOk(t, k, job, b.db.ops)
    requires job.started || !Jobs(b, t)[k].started
    ensures BrokerInv(cfg, WithJob(b, t, k, job))
  {
    hide LedgerInv, JobsOk, CompletedOk, JobOk;
    JobsPut(t, Jobs(b, t), k, job, b.db.ops);
    PutSize(Jobs(b, t), k, job);
  }
}
