/** What the broker's transactions mean to those who use the ledger: what is shown and for how long, what is kept and
    what is deleted, when an operation is admitted, dispatched or canceled. */
module Transactions {
  import opened Common
  import opened Ledger

  /** What a reader is shown of an operation, whatever the time: who it is, how far it is, and where its result stands. */
  lemma GetShows(db: Ledger, k: Key, t: int)
    ensures Get(db, k, t).Ok? <==> k in db.ops
    ensures k in db.ops ==>
      var s, row := Get(db, k, t).value, db.ops[k];
      && s.op == k.op && s.flow == row.flow && s.state == row.state && s.resultId == row.resultId && s.handle == row.handle
      && s.created == row.created && s.updated == row.updated && (s.result.Some? ==> s.result == row.result && s.error.None? == row.error.None?)
  {
  }

  // ---------------------------------------------------------------- finishing

  /** From now on every reader sees this outcome, at any time: `result` and `error` until `until`, and that the result
      has expired from then on. */
  ghost predicate ShownUntil(db: Ledger, k: Key, state: OpState, result: Option<OpResult>, error: Option<SnapError>, until: int) {
    forall t: int :: Get(db, k, t).Ok? &&
      var s := Get(db, k, t).value;
      && s.op == k.op && s.state == state && s.resultId.Some?
      && (t < until ==> s.result == result && s.error == error)
      && (t >= until ==> s.result.None? && s.error == Some(SnapError(ResultExpired, None)))
  }

  ghost predicate ShownForever(db: Ledger, k: Key, state: OpState, error: Option<SnapError>) {
    forall t: int :: Get(db, k, t).Ok? &&
      var s := Get(db, k, t).value;
      s.op == k.op && s.state == state && s.resultId.Some? && s.result.None? && s.error == error
  }

  /** A running or unknown operation finished with a result within the limit shows exactly that result for its time to
      live, and then that it has expired. */
  lemma FinishShows(db: Ledger, cfg: Settings, k: Key, state: OpState, result: OpResult, now: int, uuid: nat)
    requires k in db.ops && !Final(db.ops[k].state) && Terminal(state) && result.size <= cfg.maxResultBytes
    ensures ShownUntil(Finish(db, cfg, k, state, Some(result), None, now, uuid).db, k, state, Some(result), None, now + cfg.resultTtl)
  {
  }

  /** A refusal keeps the peer's details for the same time. */
  lemma FinishDiagnoses(db: Ledger, cfg: Settings, k: Key, state: OpState, details: string, size: nat, code: Code, now: int, uuid: nat)
    requires k in db.ops && !Final(db.ops[k].state) && Terminal(state) && size <= cfg.maxResultBytes
    ensures ShownUntil(Finish(db, cfg, k, state, Some(Diagnostics(details, size)), Some(code), now, uuid).db,
                       k, state, None, Some(SnapError(code, Some(details))), now + cfg.resultTtl)
  {
  }

  /** An outcome without result never expires; one that is too large becomes a failure. */
  lemma FinishFails(db: Ledger, cfg: Settings, k: Key, state: OpState, result: Option<OpResult>, code: Option<Code>, now: int, uuid: nat)
    requires k in db.ops && !Final(db.ops[k].state) && Terminal(state)
    requires result.None? || result.value.size > cfg.maxResultBytes
    ensures var db' := Finish(db, cfg, k, state, result, code, now, uuid).db;
      if result.Some? then ShownForever(db', k, Failed, Some(SnapError(ResultTooLarge, None)))
      else ShownForever(db', k, state, if code.Some? then Some(SnapError(code.value, None)) else None)
  {
  }

  /** Finishing closes the row with the outcome, or with the failure of one that is too large. */
  lemma FinishIs(db: Ledger, cfg: Settings, k: Key, state: OpState, result: Option<OpResult>, code: Option<Code>, now: int, uuid: nat)
    requires k in db.ops && Terminal(state)
    ensures var r := Finish(db, cfg, k, state, result, code, now, uuid);
      && r.reply == Get(r.db, k, now)
      && exists st, res, cd :: Terminal(st) && r.db == Close(Touch(db, k.device), cfg, k, st, res, cd, now, uuid)
  {
    hide Close, SnapshotOf;
  }

  lemma CloseLogs(db: Ledger, cfg: Settings, k: Key, state: OpState, result: Option<OpResult>, code: Option<Code>, now: int, uuid: nat)
    requires k in db.ops && k in db.outbox && !Final(db.ops[k].state)
    ensures var db' := Close(Touch(db, k.device), cfg, k, state, result, code, now, uuid);
      && Log(db'.log, k.device) == Log(db.log, k.device) + [SnapshotOf(k.op, db'.ops[k], now)]
      && db'.ops - {k} == db.ops - {k} && db'.payloads == db.payloads - {k} && db'.outbox == db.outbox[k := Done]
      && db'.artifacts == db.artifacts && db'.receipts == db.receipts
  {
    hide SnapshotOf, FinishedRow;
  }

  lemma CloseKeeps(db: Ledger, cfg: Settings, k: Key, state: OpState, result: Option<OpResult>, code: Option<Code>, now: int, uuid: nat)
    requires k in db.ops && !Final(db.ops[k].state)
    ensures var a, b := db.ops[k], Close(Touch(db, k.device), cfg, k, state, result, code, now, uuid).ops[k];
      && (if a.resultId.Some? then b.resultId == a.resultId else b.resultId == Some(uuid)) && b.updated == now
      && b.handle == a.handle && b.flow == a.flow && b.digest == a.digest && b.created == a.created && b.polled == a.polled
      && b.cancelClaimed == a.cancelClaimed && b.cancelRequested == a.cancelRequested
  {
    hide SnapshotOf;
  }

  /** What else finishing does: it is logged once and answered, the payload is erased, and no other operation changes. */
  lemma FinishLogs(db: Ledger, cfg: Settings, k: Key, state: OpState, result: Option<OpResult>, code: Option<Code>, now: int, uuid: nat)
    requires k in db.ops && k in db.outbox && Terminal(state) && !Final(db.ops[k].state)
    ensures var r := Finish(db, cfg, k, state, result, code, now, uuid);
      && r.reply == Get(r.db, k, now) && r.reply.Ok? && Log(r.db.log, k.device) == Log(db.log, k.device) + [r.reply.value]
      && r.db.ops - {k} == db.ops - {k} && r.db.payloads == db.payloads - {k} && r.db.outbox == db.outbox[k := Done]
      && r.db.artifacts == db.artifacts && r.db.receipts == db.receipts
  {
    hide Close, SnapshotOf, Finish;
    FinishIs(db, cfg, k, state, result, code, now, uuid);
    var r := Finish(db, cfg, k, state, result, code, now, uuid);
    var st, res, cd :| Terminal(st) && r.db == Close(Touch(db, k.device), cfg, k, st, res, cd, now, uuid);
    CloseLogs(db, cfg, k, st, res, cd, now, uuid);
  }

  /** Result id and handle, once there, stay, and so does everything that identifies the operation. */
  lemma FinishKeeps(db: Ledger, cfg: Settings, k: Key, state: OpState, result: Option<OpResult>, code: Option<Code>, now: int, uuid: nat)
    requires k in db.ops && Terminal(state) && !Final(db.ops[k].state)
    ensures var a, b := db.ops[k], Finish(db, cfg, k, state, result, code, now, uuid).db.ops[k];
      && (if a.resultId.Some? then b.resultId == a.resultId else b.resultId == Some(uuid)) && b.updated == now
      && b.handle == a.handle && b.flow == a.flow && b.digest == a.digest && b.created == a.created && b.polled == a.polled
      && b.cancelClaimed == a.cancelClaimed && b.cancelRequested == a.cancelRequested
  {
    hide Close, SnapshotOf, Finish;
    FinishIs(db, cfg, k, state, result, code, now, uuid);
    var r := Finish(db, cfg, k, state, result, code, now, uuid);
    var st, res, cd :| Terminal(st) && r.db == Close(Touch(db, k.device), cfg, k, st, res, cd, now, uuid);
    CloseKeeps(db, cfg, k, st, res, cd, now, uuid);
  }

  /** The first final outcome wins: finishing again changes nothing and is answered with what is there. */
  lemma FinishedOnce(db: Ledger, cfg: Settings, k: Key, state: OpState, result: Option<OpResult>, code: Option<Code>, now: int, uuid: nat)
    requires k in db.ops && Terminal(state) && Final(db.ops[k].state)
    ensures var r := Finish(db, cfg, k, state, result, code, now, uuid);
      r.reply == Get(db, k, now) && r.db == db.(devices := r.db.devices) && Dev(r.db.devices, k.device) == Dev(db.devices, k.device)
  {
  }

  // ---------------------------------------------------------------- events

  /** The event a transaction logs can be read exactly until its time to live is over. */
  lemma EventLifetime(db: Ledger, cfg: Settings, k: Key, row: Row, now: int, t: int)
    requires forall n :: n in Dev(db.devices, k.device).events ==> n <= Dev(db.devices, k.device).sequence
    ensures var dev := Dev(Publish(db, cfg, k, row, now).devices, k.device);
      dev.sequence in PurgeDevice(dev, t).events <==> t < now + cfg.eventTtl && t < now + cfg.resultTtl
  {
    var dev := Dev(Publish(db, cfg, k, row, now).devices, k.device);
    hide SnapshotOf;
    assert LastExpired(dev.events, dev.sequence, t) == dev.sequence <==> dev.sequence > 0 && dev.events[dev.sequence].expires <= t;
  }

  /** A purge keeps an event exactly if neither it nor a later one has expired, and the floor is the last number gone. */
  lemma EventsKept(dev: Device, now: int)
    requires forall n :: n in dev.events ==> 0 < n <= dev.sequence
    ensures var kept := PurgeDevice(dev, now);
      && (forall n :: n in kept.events <==> n in dev.events && forall m :: m in dev.events && m >= n ==> dev.events[m].expires > now)
      && (forall n :: n in kept.events ==> kept.events[n] == dev.events[n])
      && kept.sequence == dev.sequence && kept.floor >= dev.floor
      && (forall n :: n in dev.events && n !in kept.events ==> n <= kept.floor)
      && (kept.floor > dev.floor ==> kept.floor in dev.events && dev.events[kept.floor].expires <= now)
  {
  }

  // ---------------------------------------------------------------- retention

  /** Artifacts in their order, without those whose time has come. */
  predicate KeptInOrder(all: seq<Artifact>, kept: seq<Artifact>, now: int)
    decreases |all|
  {
    if all == [] then kept == []
    else if all[0].expires > now then kept != [] && kept[0] == all[0] && KeptInOrder(all[1..], kept[1..], now)
    else KeptInOrder(all[1..], kept, now)
  }

  lemma {:induction false} KeptMore(all: seq<Artifact>, kept: seq<Artifact>, last: Artifact, now: int)
    requires KeptInOrder(all, kept, now)
    ensures KeptInOrder(all + [last], if last.expires > now then kept + [last] else kept, now)
    decreases |all|
  {
    if all == [] {
      assert [] + [last] == [last] && [last][1..] == [];
    } else {
      assert (all + [last])[0] == all[0] && (all + [last])[1..] == all[1..] + [last];
      if all[0].expires > now {
        KeptMore(all[1..], kept[1..], last, now);
        assert (kept + [last])[1..] == kept[1..] + [last];
      } else {
        KeptMore(all[1..], kept, last, now);
      }
    }
  }

  lemma {:induction false} DropsInOrder(artifacts: seq<Artifact>, now: int)
    ensures KeptInOrder(artifacts, DropExpired(artifacts, None, now), now)
    decreases |artifacts|
  {
    if artifacts != [] {
      var before, last := artifacts[..|artifacts| - 1], artifacts[|artifacts| - 1];
      DropsInOrder(before, now);
      KeptMore(before, DropExpired(before, None, now), last, now);
      assert before + [last] == artifacts;
      assert DropExpired(before, None, now) + [] == DropExpired(before, None, now);
    }
  }

  lemma {:induction false} DropExact(artifacts: seq<Artifact>, d: Option<string>, now: int)
    ensures forall a :: a in DropExpired(artifacts, d, now) <==>
      a in artifacts && (a.expires > now || (d.Some? && d.value != a.device))
    decreases |artifacts|
  {
    if artifacts != [] {
      var before, last := artifacts[..|artifacts| - 1], artifacts[|artifacts| - 1];
      DropExact(before, d, now);
      assert artifacts == before + [last];
    }
  }

  /** A purge deletes exactly what has expired: payloads, artifacts, and the results of operations, of which nothing else
      changes.  What is kept is kept as it was. */
  lemma PurgeExact(db: Ledger, now: int)
    ensures var db' := Purge(db, now);
      && (forall k :: k in db'.payloads <==> k in db.payloads && db.payloads[k].expires > now)
      && (forall k :: k in db'.payloads ==> db'.payloads[k] == db.payloads[k])
      && KeptInOrder(db.artifacts, db'.artifacts, now)
      && (forall a :: a in db'.artifacts <==> a in db.artifacts && a.expires > now)
      && db'.ops.Keys == db.ops.Keys
      && (forall k :: k in db.ops ==> db'.ops[k].(result := db.ops[k].result) == db.ops[k])
      && (forall k :: k in db.ops ==>
            db'.ops[k].result == if db.ops[k].resultExpires.Some? && now >= db.ops[k].resultExpires.value then None else db.ops[k].result)
      && db'.outbox == db.outbox && db'.receipts == db.receipts && db'.log == db.log && db'.devices.Keys == db.devices.Keys
  {
    DropsInOrder(db.artifacts, now);
    DropExact(db.artifacts, None, now);
    hide PurgeDevice, DropExpired, KeptInOrder;
  }

  /** What readers are shown is the same before and after a purge, at its time and later. */
  lemma PurgeUnseen(db: Ledger, now: int, k: Key, t: int)
    requires now <= t
    ensures Get(Purge(db, now), k, t) == Get(db, k, t)
  {
    hide PurgeDevice, DropExpired;
  }

  // ---------------------------------------------------------------- artifacts

  /** The device holds an artifact with this id that can still be read. */
  predicate Readable(artifacts: seq<Artifact>, d: string, id: nat, now: int) {
    exists a :: a in artifacts && a.device == d && a.id == id && a.expires > now
  }

  lemma {:induction false} FindExact(artifacts: seq<Artifact>, d: string, id: nat, now: int)
    ensures Find(artifacts, d, id, now).Some? <==> Readable(artifacts, d, id, now)
    ensures var r := Find(artifacts, d, id, now);
      r.Some? ==> r.value in artifacts && r.value.device == d && r.value.id == id && r.value.expires > now
    decreases |artifacts|
  {
    if artifacts != [] {
      var before, last := artifacts[..|artifacts| - 1], artifacts[|artifacts| - 1];
      assert artifacts == before + [last];
      FindExact(before, d, id, now);
    }
  }

  /** A stored artifact is read back, with its content and checks, exactly until its time to live is over. */
  lemma ArtifactLifetime(db: Ledger, cfg: Settings, d: string, content: string, digest: string, typeOk: bool, textPlain: bool,
                         utf8: bool, now: int, id: nat, t: int)
    requires PutArtifact(db, cfg, d, content, digest, typeOk, textPlain, utf8, now, id).reply.Ok?
    ensures var r := PutArtifact(db, cfg, d, content, digest, typeOk, textPlain, utf8, now, id);
      var found := Find(r.db.artifacts, d, id, t);
      && r.reply == Ok(id) && digest == content && typeOk
      && (t < now + cfg.artifactTtl ==>
            found.Some? && found.value.content == content && found.value.textPlain == textPlain && found.value.utf8 == utf8)
      && (t >= now + cfg.artifactTtl ==> found.None?)
  {
    var live := DropExpired(db.artifacts, Some(d), now);
    var r := PutArtifact(db, cfg, d, content, digest, typeOk, textPlain, utf8, now, id);
    var last := r.db.artifacts[|r.db.artifacts| - 1];
    assert r.db.artifacts[..|live|] == live;
    FindExact(live, d, id, t);
    hide DropExpired, StoredBytes, Find;
    if Find(live, d, id, t).Some? { HoldsThat(live, d, id, Find(live, d, id, t).value); }
    FindLast(live, last, d, id, t);
  }

  lemma HoldsThat(artifacts: seq<Artifact>, d: string, id: nat, a: Artifact)
    requires a in artifacts && a.device == d && a.id == id
    ensures Holds(artifacts, d, id)
  {
  }

  lemma FindLast(artifacts: seq<Artifact>, last: Artifact, d: string, id: nat, now: int)
    ensures Find(artifacts + [last], d, id, now) ==
      if last.device == d && last.id == id && last.expires > now then Some(last) else Find(artifacts, d, id, now)
  {
    assert (artifacts + [last])[..|artifacts|] == artifacts;
  }

  /** The bytes of the device's artifacts that can still be read. */
  function LiveBytes(artifacts: seq<Artifact>, d: string, now: int): nat {
    if artifacts == [] then 0
    else
      var last := artifacts[|artifacts| - 1];
      LiveBytes(artifacts[..|artifacts| - 1], d, now) + if last.device == d && last.expires > now then |last.content| else 0
  }

  lemma {:induction false} LiveAreStored(artifacts: seq<Artifact>, d: string, now: int)
    ensures StoredBytes(DropExpired(artifacts, Some(d), now), d) == LiveBytes(artifacts, d, now)
    decreases |artifacts|
  {
    if artifacts != [] {
      var before, last := artifacts[..|artifacts| - 1], artifacts[|artifacts| - 1];
      var kept := DropExpired(before, Some(d), now);
      LiveAreStored(before, d, now);
      assert kept + [] == kept && (kept + [last])[..|kept|] == kept;
    }
  }

  /** An upload is taken exactly if it is within the size limit, intact, properly typed, within what is left of the
      device's quota, and its id is free.  What other devices hold does not change; of its own, only what has expired goes. */
  lemma UploadOutcome(db: Ledger, cfg: Settings, d: string, content: string, digest: string, typeOk: bool, textPlain: bool,
                      utf8: bool, now: int, id: nat)
    ensures var r := PutArtifact(db, cfg, d, content, digest, typeOk, textPlain, utf8, now, id);
      && (r.reply.Ok? <==>
            && |content| <= cfg.maxArtifactBytes && digest == content && typeOk
            && LiveBytes(db.artifacts, d, now) + |content| <= cfg.deviceQuota && !Readable(db.artifacts, d, id, now))
      && (r.reply.Err? ==> r.db == db)
      && r.db == db.(devices := r.db.devices, artifacts := r.db.artifacts)
      && (r.reply.Ok? ==> forall a :: a in r.db.artifacts <==>
            || (a in db.artifacts && (a.expires > now || a.device != d))
            || a == Artifact(d, id, content, textPlain, utf8, now + cfg.artifactTtl))
  {
    LiveAreStored(db.artifacts, d, now);
    DropExact(db.artifacts, Some(d), now);
    HeldIsReadable(db.artifacts, d, id, now);
    hide DropExpired, StoredBytes, LiveBytes, Holds, Readable;
  }

  lemma HeldIsReadable(artifacts: seq<Artifact>, d: string, id: nat, now: int)
    ensures Holds(DropExpired(artifacts, Some(d), now), d, id) <==> Readable(artifacts, d, id, now)
  {
    DropExact(artifacts, Some(d), now);
    hide DropExpired;
    var live := DropExpired(artifacts, Some(d), now);
    if Holds(live, d, id) {
      var i :| 0 <= i < |live| && live[i].device == d && live[i].id == id;
      assert live[i] in live;
    }
    if Readable(artifacts, d, id, now) {
      var a :| a in artifacts && a.device == d && a.id == id && a.expires > now;
      HoldsThat(live, d, id, a);
    }
  }

  // ---------------------------------------------------------------- dispatch

  predicate AllReadable(artifacts: seq<Artifact>, d: string, ids: seq<nat>, now: int) {
    forall id :: id in ids ==> Readable(artifacts, d, id, now)
  }

  lemma AvailableExact(artifacts: seq<Artifact>, d: string, ids: seq<nat>, now: int)
    ensures Available(artifacts, d, ids, now) <==> AllReadable(artifacts, d, ids, now)
  {
    hide Find, Readable;
    forall id ensures Find(artifacts, d, id, now).Some? <==> Readable(artifacts, d, id, now) { FindExact(artifacts, d, id, now); }
    if Available(artifacts, d, ids, now) {
      forall id | id in ids ensures Readable(artifacts, d, id, now) {
        var i :| 0 <= i < |ids| && ids[i] == id;
        assert Find(artifacts, d, ids[i], now).Some?;
      }
    } else {
      var i :| 0 <= i < |ids| && Find(artifacts, d, ids[i], now).None?;
      assert ids[i] in ids;
    }
  }

  /** The operation is shown as failed for this reason, for good, and no request is handed out. */
  ghost predicate FailedWith(db: Ledger, k: Key, code: Code) {
    ShownForever(db, k, Failed, Some(SnapError(code, None))) && k !in db.payloads
  }

  /** A claim hands out the stored request exactly if the payload has not expired and every attachment can be read;
      otherwise the operation fails for the first of the two reasons. */
  lemma ClaimOutcome(db: Ledger, cfg: Settings, k: Key, now: int, uuid: nat)
    requires Candidate(db, k)
    ensures var (db', request) := Claim(db, cfg, k, now, uuid);
      var usable := k in db.payloads && now < db.payloads[k].expires;
      && (!usable ==> request.None? && FailedWith(db', k, PayloadExpired))
      && (usable && !AllReadable(db.artifacts, k.device, db.payloads[k].request.artifacts, now) ==>
            request.None? && FailedWith(db', k, ArtifactExpired))
      && (usable && AllReadable(db.artifacts, k.device, db.payloads[k].request.artifacts, now) ==>
            && request == Some(db.payloads[k].request) && db'.ops[k].state.Running? && db'.ops[k].updated == now
            && db'.ops[k].(state := Accepted, updated := db.ops[k].updated) == db.ops[k]
            && k in db'.outbox && db'.outbox[k].Claimed? && db'.payloads == db.payloads && db'.artifacts == db.artifacts
            && Log(db'.log, k.device) == Log(db.log, k.device) + [Get(db', k, now).value])
      && db'.ops - {k} == db.ops - {k}
  {
    if k in db.payloads { AvailableExact(db.artifacts, k.device, db.payloads[k].request.artifacts, now); }
    hide Available, AllReadable;
  }

  /** A purge at or before the claim takes away nothing the claim could have used. */
  lemma PurgeThenClaim(db: Ledger, cfg: Settings, k: Key, purgeAt: int, now: int, uuid: nat)
    requires Candidate(db, k) && purgeAt <= now
    requires k in db.payloads && now < db.payloads[k].expires
    requires AllReadable(db.artifacts, k.device, db.payloads[k].request.artifacts, now)
    ensures Candidate(Purge(db, purgeAt), k)
    ensures var (db', request) := Claim(Purge(db, purgeAt), cfg, k, now, uuid);
      request == Some(db.payloads[k].request) && db'.ops[k].state.Running?
  {
    hide Claim, Purge, Candidate, AllReadable;
    PurgeExact(db, purgeAt);
    PurgedCandidate(db, purgeAt, k);
    var artifacts := Purge(db, purgeAt).artifacts;
    StillReadable(db.artifacts, artifacts, k.device, db.payloads[k].request.artifacts, purgeAt, now);
    ClaimOutcome(Purge(db, purgeAt), cfg, k, now, uuid);
  }

  lemma PurgedCandidate(db: Ledger, now: int, k: Key)
    requires Candidate(db, k)
    ensures Candidate(Purge(db, now), k)
  {
    hide PurgeDevice, DropExpired;
  }

  lemma StillReadable(all: seq<Artifact>, kept: seq<Artifact>, d: string, ids: seq<nat>, purgeAt: int, now: int)
    requires purgeAt <= now && AllReadable(all, d, ids, now) && forall a :: a in kept <==> a in all && a.expires > purgeAt
    ensures AllReadable(kept, d, ids, now)
  {
    forall id | id in ids ensures Readable(kept, d, id, now) {
      var a :| a in all && a.device == d && a.id == id && a.expires > now;
      assert a in kept;
    }
  }

  // ---------------------------------------------------------------- cancel

  /** Somebody asked for cancellation and the peer can be told as soon as the operation has a handle and nobody has yet. */
  predicate Intended(row: Row) {
    row.cancelRequested && Holding(row.state) && (Cancelable(row) <==> row.handle.Some? && !row.cancelClaimed)
  }

  /** A cancel request for a running or unknown operation is recorded, logged once, and shown as unconfirmed; asked
      again, it changes and logs nothing. */
  lemma CancelRecorded(db: Ledger, cfg: Settings, k: Key, now: int, uuid: nat)
    requires k in db.ops && Holding(db.ops[k].state)
    ensures var r := CancelIntent(db, cfg, k, now, uuid); var log, log' := Log(db.log, k.device), Log(r.db.log, k.device);
      && k in r.db.ops && Intended(r.db.ops[k]) && r.db.ops - {k} == db.ops - {k} && r.reply == Get(r.db, k, now)
      && r.db.ops[k].state == db.ops[k].state && r.db.ops[k].handle == db.ops[k].handle && r.db.ops[k].cancelClaimed == db.ops[k].cancelClaimed
      && (if db.ops[k].cancelRequested then r.db.ops == db.ops && log' == log
          else log' == log + [r.reply.value] && r.db.ops[k].error == Some(CancelUnconfirmed) && r.db.ops[k].updated == now)
      && r.db.payloads == db.payloads && r.db.outbox == db.outbox && r.db.artifacts == db.artifacts
  {
    hide SnapshotOf;
  }

  lemma CancelTwice(db: Ledger, cfg: Settings, k: Key, now: int, uuid: nat, later: int, uuid': nat)
    requires k in db.ops && Holding(db.ops[k].state)
    ensures var r := CancelIntent(db, cfg, k, now, uuid);
      var again := CancelIntent(r.db, cfg, k, later, uuid');
      again.db.ops == r.db.ops && Log(again.db.log, k.device) == Log(r.db.log, k.device) && again.reply == Get(r.db, k, later)
  {
    hide SnapshotOf, Publish;
    CancelRecorded(db, cfg, k, now, uuid);
    CancelRecorded(CancelIntent(db, cfg, k, now, uuid).db, cfg, k, later, uuid');
  }

  /** An operation nobody has claimed is canceled at once and can no longer be dispatched; a final one is only shown. */
  lemma CancelSettles(db: Ledger, cfg: Settings, k: Key, now: int, uuid: nat)
    requires k in db.ops && k in db.outbox
    ensures var r := CancelIntent(db, cfg, k, now, uuid);
      && (db.ops[k].state.Accepted? ==>
            && ShownForever(r.db, k, Canceled, None) && k !in r.db.payloads && r.db.outbox[k].Done? && !Candidate(r.db, k)
            && r.reply == Get(r.db, k, now) && Log(r.db.log, k.device) == Log(db.log, k.device) + [r.reply.value])
      && (Final(db.ops[k].state) ==> r.reply == Get(db, k, now) && r.db == db.(devices := r.db.devices))
  {
    CanceledRow(db, cfg, k, now, uuid);
    hide SnapshotOf;
  }

  lemma CanceledRow(db: Ledger, cfg: Settings, k: Key, now: int, uuid: nat)
    requires k in db.ops
    ensures db.ops[k].state.Accepted? ==> ShownForever(CancelIntent(db, cfg, k, now, uuid).db, k, Canceled, None)
  {
  }

  /** The claimed intent is never claimed again; nothing else changes. */
  lemma CancelClaimed(db: Ledger, k: Key)
    requires k in db.ops && Cancelable(db.ops[k])
    ensures var db' := ClaimCancel(db, k);
      && !Cancelable(db'.ops[k]) && db'.ops[k].(cancelClaimed := false) == db.ops[k]
      && db' == db.(devices := db'.devices, ops := db'.ops) && db'.ops - {k} == db.ops - {k}
  {
  }

  // ---------------------------------------------------------------- admission

  /** The bytes of the attachments. */
  function SizeOf(artifacts: seq<Artifact>, d: string, ids: seq<nat>, now: int): nat {
    if ids == [] then 0
    else
      var found := Find(artifacts, d, ids[|ids| - 1], now);
      SizeOf(artifacts, d, ids[..|ids| - 1], now) + if found.Some? then |found.value.content| else 0
  }

  /** Each attachment can be read and is valid plain text. */
  predicate Texts(artifacts: seq<Artifact>, d: string, ids: seq<nat>, now: int) {
    forall id :: id in ids ==> Find(artifacts, d, id, now).Some? && Find(artifacts, d, id, now).value.textPlain && Find(artifacts, d, id, now).value.utf8
  }

  lemma {:induction false} InputsExact(artifacts: seq<Artifact>, d: string, ids: seq<nat>, now: int)
    ensures InputBytes(artifacts, d, ids, now).Ok? <==> Texts(artifacts, d, ids, now)
    ensures InputBytes(artifacts, d, ids, now).Ok? ==> InputBytes(artifacts, d, ids, now).value == SizeOf(artifacts, d, ids, now)
    decreases |ids|
  {
    hide Find;
    if ids != [] {
      var before, last := ids[..|ids| - 1], ids[|ids| - 1];
      InputsExact(artifacts, d, before, now);
      assert ids == before + [last];
      assert forall id :: id in ids <==> id in before || id == last;
    }
  }

  /** An operation counts against the device's limit until it is final. */
  lemma CountsUntilFinal(ops: map<Key, Row>, d: string)
    ensures forall k :: k in ActiveKeys(ops, d) <==> k in ops && k.device == d && !Final(ops[k].state)
  {
  }

  predicate Admissible(db: Ledger, cfg: Settings, d: string, req: Request, now: int) {
    && |ActiveKeys(db.ops, d)| < cfg.maxPending && Distinct(req.artifacts) && Texts(db.artifacts, d, req.artifacts, now)
    && |req.prompt| + SizeOf(db.artifacts, d, req.artifacts, now) <= cfg.maxArtifactBytes
  }

  /** An id seen before is answered with its operation if the request is the same one, and refused otherwise; nothing is
      stored or logged either way. */
  lemma AcceptAgain(db: Ledger, cfg: Settings, d: string, req: Request, now: int)
    requires Key(d, req.op) in db.ops
    ensures var r := Accept(db, cfg, d, req, now); var k := Key(d, req.op);
      && r.db == db.(devices := r.db.devices) && Dev(r.db.devices, d) == Dev(db.devices, d)
      && (if db.ops[k].digest == req then Get(db, k, now).Ok? && r.reply == Ok((Get(db, k, now).value, false))
          else r.reply == Err(IdConflict))
  {
    hide InputBytes, ActiveKeys, Distinct;
  }

  /** A new request is admitted exactly when it is admissible.  Then it waits, with its payload until the time to live is
      over, is logged once, and can be claimed as soon as its flow is free. */
  lemma AcceptNew(db: Ledger, cfg: Settings, d: string, req: Request, now: int)
    requires Key(d, req.op) !in db.ops
    ensures var r := Accept(db, cfg, d, req, now); var k := Key(d, req.op);
      && (r.reply.Ok? <==> Admissible(db, cfg, d, req, now)) && (r.reply.Err? ==> r.db == db)
      && (r.reply.Ok? ==>
            && k in r.db.ops && r.db.ops[k].state.Accepted? && r.db.ops[k].digest == req && r.db.ops[k].flow == req.flow
            && r.db.ops[k].created == now && r.db.ops[k].handle.None? && !r.db.ops[k].cancelRequested
            && k in r.db.payloads && r.db.payloads[k].request == req && k in r.db.outbox && r.db.outbox[k].Pending?
            && r.db.payloads[k].expires == now + cfg.payloadTtl
            && r.db.artifacts == db.artifacts && Get(r.db, k, now).Ok? && r.reply == Ok((Get(r.db, k, now).value, true))
            && Log(r.db.log, d) == Log(db.log, d) + [r.reply.value.0]
            && r.db.ops - {k} == db.ops && r.db.payloads - {k} == db.payloads - {k} && r.db.outbox - {k} == db.outbox - {k})
  {
    InputsExact(db.artifacts, d, req.artifacts, now);
    hide InputBytes, ActiveKeys, Distinct, Texts, SizeOf, SnapshotOf;
  }

  /** Polling stamps exactly the rows it was given. */
  lemma PollOutcome(ops: map<Key, Row>, keys: set<Key>, now: int, k: Key)
    requires k in ops
    ensures var row := Poll(ops, keys, now)[k];
      row.(polled := ops[k].polled) == ops[k] && row.polled == if k in keys then Some(now) else ops[k].polled
  {
  }

  // ---------------------------------------------------------------- handles, receipts, restart

  /** The first valid handle is saved, shown and logged; the same one again changes nothing, another one is refused, and
      a final operation keeps what it has. */
  lemma HandleOutcome(db: Ledger, cfg: Settings, k: Key, handle: string, now: int)
    requires k in db.ops
    ensures var r := SaveHandle(db, cfg, k, handle, now); var row := db.ops[k];
      && (r.reply.Err? <==> !(1 <= |handle| <= 512) || (row.handle.Some? && row.handle != Some(handle)))
      && (r.reply.Err? ==> r.db == db && r.reply.error == if 1 <= |handle| <= 512 then PeerHandleConflict else InvalidPeerHandle)
      && (r.reply.Ok? && (row.handle == Some(handle) || Final(row.state)) ==> r.db == db.(devices := r.db.devices))
      && (r.reply.Ok? && row.handle.None? && !Final(row.state) ==>
            && r.db.ops[k].handle == Some(handle) && r.db.ops[k].(handle := None, updated := row.updated) == row
            && r.db.ops[k].updated == now && r.db.ops - {k} == db.ops - {k}
            && Log(r.db.log, k.device) == Log(db.log, k.device) + [Get(r.db, k, now).value])
  {
    hide SnapshotOf;
  }

  /** A receipt is taken exactly for the result id the operation has, and then it is there. */
  lemma ReceiptOutcome(db: Ledger, d: string, receipt: Receipt)
    ensures var r := AddReceipt(db, d, receipt); var k := Key(d, receipt.op);
      && (r.reply.Ok? <==> k in db.ops && db.ops[k].resultId == Some(receipt.resultId))
      && (forall x :: x in r.db.receipts <==> x in db.receipts || (r.reply.Ok? && x == (d, receipt)))
      && r.db == db.(devices := r.db.devices, receipts := r.db.receipts)
  {
  }

  /** What restart recovery does to one row. */
  ghost predicate Restarted(db: Ledger, db': Ledger, k: Key) {
    k in db.ops && k in db'.ops &&
    if db.ops[k].state.Running? then
      && ShownForever(db', k, OutcomeUnknown, Some(SnapError(RestartUnknown, None))) && k !in db'.payloads
      && db'.ops[k].handle == db.ops[k].handle && db'.ops[k].digest == db.ops[k].digest && db'.ops[k].flow == db.ops[k].flow
      && db'.ops[k].cancelRequested == db.ops[k].cancelRequested && db'.ops[k].cancelClaimed == db.ops[k].cancelClaimed
    else db'.ops[k] == db.ops[k] && (k in db'.payloads <==> k in db.payloads) && (k in db.payloads ==> db'.payloads[k] == db.payloads[k])
  }

  lemma {:induction false} CloseAllRestarts(db: Ledger, cfg: Settings, keys: seq<Key>, now: int, uuids: Key -> nat, k: Key)
    requires Distinct(keys) && (forall j :: j in keys ==> j in db.ops && db.ops[j].state.Running?) && k in db.ops
    ensures var db' := CloseAll(db, cfg, keys, now, uuids);
      if k in keys then db.ops[k].state.Running? && Restarted(db, db', k)
      else db'.ops[k] == db.ops[k] && (k in db'.payloads <==> k in db.payloads) && (k in db.payloads ==> db'.payloads[k] == db.payloads[k])
    decreases |keys|
  {
    if keys != [] {
      var before, last := keys[..|keys| - 1], keys[|keys| - 1];
      assert keys == before + [last];
      CloseAllRestarts(db, cfg, before, now, uuids, k);
      CloseAllRestarts(db, cfg, before, now, uuids, last);
      var mid := CloseAll(db, cfg, before, now, uuids);
      hide CloseAll, Restarted;
      RestartOne(mid, cfg, last, now, uuids(last), k);
      if k != last && k in before { RestartedKept(db, mid, Close(mid, cfg, last, OutcomeUnknown, None, Some(RestartUnknown), now, uuids(last)), k); }
      if k == last { RestartedThen(db, mid, Close(mid, cfg, last, OutcomeUnknown, None, Some(RestartUnknown), now, uuids(last)), k); }
    }
  }

  predicate SameRow(a: Ledger, b: Ledger, k: Key) {
    k in a.ops && k in b.ops && b.ops[k] == a.ops[k] && (k in b.payloads <==> k in a.payloads) && (k in a.payloads ==> b.payloads[k] == a.payloads[k])
  }

  lemma RestartOne(db: Ledger, cfg: Settings, j: Key, now: int, uuid: nat, k: Key)
    requires j in db.ops && k in db.ops && db.ops[j].state.Running?
    ensures var db' := Close(db, cfg, j, OutcomeUnknown, None, Some(RestartUnknown), now, uuid);
      if k == j then Restarted(db, db', k) else SameRow(db, db', k)
  {
  }

  lemma RestartedKept(db: Ledger, mid: Ledger, db': Ledger, k: Key)
    requires Restarted(db, mid, k) && SameRow(mid, db', k)
    ensures Restarted(db, db', k)
  {
    hide SnapshotOf;
    assert forall t: int :: Get(db', k, t) == Get(mid, k, t);
  }

  lemma RestartedThen(db: Ledger, mid: Ledger, db': Ledger, k: Key)
    requires SameRow(db, mid, k) && Restarted(mid, db', k)
    ensures Restarted(db, db', k)
  {
  }

  /** After a restart every operation found running is shown as unknown because of it, and keeps its handle and cancel
      intent; every other one is as it was, its payload included. */
  lemma RecoverOutcome(db: Ledger, cfg: Settings, keys: seq<Key>, now: int, uuids: Key -> nat)
    requires ListsRunning(db, keys)
    ensures forall k :: k in db.ops ==> Restarted(db, CloseAll(db, cfg, keys, now, uuids), k)
  {
    hide CloseAll, ShownForever;
    forall k | k in db.ops ensures Restarted(db, CloseAll(db, cfg, keys, now, uuids), k) {
      CloseAllRestarts(db, cfg, keys, now, uuids, k);
    }
  }
}
