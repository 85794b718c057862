/** Which steps can make a claimed operation final: only the settling of an observed terminal result. */
module Finality {
  import opened Common
  import opened Ledger
  import opened Broker
  import opened BrokerSteps

  /** Claimed and not final: running or unknown. */
  predicate Open(ops: map<Key, Row>, k: Key) {
    k in ops && Holding(ops[k].state)
  }

  ghost predicate StaysOpen(ops: map<Key, Row>, ops': map<Key, Row>, except: Option<Key>) {
    forall k :: Open(ops, k) && except != Some(k) ==> Open(ops', k)
  }

  lemma AcceptOpen(db: Ledger, cfg: Settings, d: string, req: Request, now: int)
    ensures StaysOpen(db.ops, Accept(db, cfg, d, req, now).db.ops, None)
  {
    hide InputBytes, Distinct, ActiveKeys;
  }

  lemma CloseOpen(db: Ledger, cfg: Settings, k: Key, state: OpState, result: Option<OpResult>, code: Option<Code>, now: int, uuid: nat)
    requires k in db.ops && Terminal(state)
    ensures var ops := Close(db, cfg, k, state, result, code, now, uuid).ops;
      StaysOpen(db.ops, ops, Some(k)) && (state.OutcomeUnknown? || !Open(db.ops, k) ==> StaysOpen(db.ops, ops, None))
  {
  }

  lemma CancelOpen(db: Ledger, cfg: Settings, k: Key, now: int, uuid: nat)
    ensures StaysOpen(db.ops, CancelIntent(db, cfg, k, now, uuid).db.ops, None)
  {
    if k in db.ops { CloseOpen(Touch(db, k.device), cfg, k, Canceled, None, None, now, uuid); }
  }

  lemma PurgeOpen(db: Ledger, now: int)
    ensures StaysOpen(db.ops, Purge(db, now).ops, None)
  {
    hide PurgeDevice, DropExpired;
  }

  lemma RequestOpen(cfg: Settings, db: Ledger, s: Step)
    requires IsRequest(s)
    ensures StaysOpen(db.ops, Requested(db, cfg, s).ops, None)
  {
    hide Accept, CancelIntent, Purge, Open;
    match s
    case AcceptRequest(d, req, now) => AcceptOpen(db, cfg, d, req, now);
    case CancelRequest(k, now, uuid) => CancelOpen(db, cfg, k, now, uuid);
    case PurgeTick(now) => PurgeOpen(db, now);
    case _ => hide DropExpired, StoredBytes, Holds, PurgeDevice, Page;
  }

  lemma ClaimOpen(db: Ledger, cfg: Settings, k: Key, now: int, uuid: nat)
    requires Candidate(db, k)
    ensures StaysOpen(db.ops, Claim(db, cfg, k, now, uuid).0.ops, None)
  {
    hide Available;
  }

  lemma FinishOpen(db: Ledger, cfg: Settings, k: Key, state: OpState, result: Option<OpResult>, code: Option<Code>, now: int, uuid: nat)
    ensures var ops := Finish(db, cfg, k, state, result, code, now, uuid).db.ops;
      StaysOpen(db.ops, ops, Some(k)) && (state.OutcomeUnknown? && result.None? ==> StaysOpen(db.ops, ops, None))
  {
    if k in db.ops && Terminal(state) {
      CloseOpen(Touch(db, k.device), cfg, k, state, result, code, now, uuid);
      CloseOpen(Touch(db, k.device), cfg, k, Failed, None, Some(ResultTooLarge), now, uuid);
    }
    hide Close;
  }

  lemma SaveHandleOpen(db: Ledger, cfg: Settings, k: Key, handle: string, now: int)
    ensures StaysOpen(db.ops, SaveHandle(db, cfg, k, handle, now).db.ops, None)
  {
  }

  lemma {:induction false} CloseAllOpen(db: Ledger, cfg: Settings, keys: seq<Key>, now: int, uuids: Key -> nat)
    requires forall k :: k in keys ==> k in db.ops
    ensures StaysOpen(db.ops, CloseAll(db, cfg, keys, now, uuids).ops, None)
  {
    if keys != [] {
      var before := CloseAll(db, cfg, keys[..|keys| - 1], now, uuids);
      CloseAllOpen(db, cfg, keys[..|keys| - 1], now, uuids);
      CloseOpen(before, cfg, keys[|keys| - 1], OutcomeUnknown, None, Some(RestartUnknown), now, uuids(keys[|keys| - 1]));
      hide Close, Open;
    }
  }

  lemma PollOpen(ops: map<Key, Row>, keys: set<Key>, now: int)
    ensures StaysOpen(ops, Poll(ops, keys, now), None)
  {
  }

  lemma StepOpen(cfg: Settings, b: Broker, s: Step)
    requires Enabled(b, cfg, s)
    ensures StaysOpen(b.db.ops, Next(b, cfg, s).db.ops, if s.Settle? then Some(s.k) else None)
  {
    hide Open, Requested, Accept, CancelIntent, Events, AddReceipt, PutArtifact, Purge, Claim, Finish, SaveHandle, CloseAll, Poll,
      StartReads, Cancelable, Reconcilable, ListsRunning;
    if IsRequest(s) {
      RequestNext(cfg, b, s);
      RequestOpen(cfg, b.db, s);
    } else {
      JobOpen(cfg, b, s);
    }
  }

  lemma JobOpen(cfg: Settings, b: Broker, s: Step)
    requires Enabled(b, cfg, s) && !IsRequest(s)
    ensures StaysOpen(b.db.ops, Next(b, cfg, s).db.ops, if s.Settle? then Some(s.k) else None)
  {
    hide Open, Claim, Finish, SaveHandle, CloseAll, Poll, StartReads, Cancelable, Reconcilable, ListsRunning, Candidate;
    match s
    case TakeCancel(k) => CancelClaimOpen(b.db, k);
    case TakeReads(keys, now) => PollOpen(b.db.ops, (set k | k in keys), now);
    case TakeClaim(k, now, uuid) => ClaimOpen(b.db, cfg, k, now, uuid);
    case Observe(t, k, handle, terminal, completed, now) => SaveHandleOpen(b.db, cfg, k, handle, now);
    case Settle(t, k, state, result, code, now, uuid) => FinishOpen(b.db, cfg, k, state, result, code, now, uuid);
    case GiveUp(k, now, uuid) => FinishOpen(b.db, cfg, k, OutcomeUnknown, None, Some(SubmissionUnknown), now, uuid);
    case Recover(keys, now, uuids) => RecoverOpen(b.db, cfg, keys, now, uuids);
    case _ =>
  }

  lemma CancelClaimOpen(db: Ledger, k: Key)
    requires k in db.ops
    ensures StaysOpen(db.ops, ClaimCancel(db, k).ops, None)
  {
  }

  lemma RecoverOpen(db: Ledger, cfg: Settings, keys: seq<Key>, now: int, uuids: Key -> nat)
    requires ListsRunning(db, keys)
    ensures StaysOpen(db.ops, CloseAll(db, cfg, keys, now, uuids).ops, None)
  {
    CloseAllOpen(db, cfg, keys, now, uuids);
  }

  /** Over any run, a claimed operation becomes final only by a settling step of one of its own jobs. */
  lemma {:induction false} FinalFrom(b: Broker, cfg: Settings, run: seq<Step>, k: Key)
    requires ValidRun(b, cfg, run) && Open(b.db.ops, k)
    ensures Open(Exec(b, cfg, run).db.ops, k) || exists s :: s in run && s.Settle? && s.k == k
    decreases |run|
  {
    hide Enabled, Next, Open;
    if run != [] {
      var b1 := Next(b, cfg, run[0]);
      StepOpen(cfg, b, run[0]);
      assert run[0] in run;
      if Open(b1.db.ops, k) {
        FinalFrom(b1, cfg, run[1..], k);
        if s :| s in run[1..] && s.Settle? && s.k == k { assert s in run; }
      }
    }
  }
}
