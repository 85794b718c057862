/** `BrokerStore`: the tables as fields, every public method one transaction proved against `Ledger`. */
module BrokerStore {
  import opened Common
  import opened L = Ledger

  /** Lexicographic order of the sort keys. */
  predicate Leq(a: (int, int, int), b: (int, int, int)) {
    a.0 < b.0 || (a.0 == b.0 && (a.1 < b.1 || (a.1 == b.1 && a.2 <= b.2)))
  }

  /** `ORDER BY ... LIMIT 1` over the rows that satisfied the WHERE clause. */
  method SelectFirst(ranks: map<Key, (int, int, int)>) returns (first: Key)
    requires ranks != map[]
    ensures first in ranks && forall k :: k in ranks ==> Leq(ranks[first], ranks[k])
  {
    first :| first in ranks;
    var rest := ranks.Keys - {first};
    while rest != {}
      invariant rest <= ranks.Keys && first in ranks
      invariant forall k :: k in ranks && k !in rest ==> Leq(ranks[first], ranks[k])
    {
      var k :| k in rest;
      if !Leq(ranks[first], ranks[k]) { first := k; }
      rest := rest - {k};
    }
  }

  /** `keys` are chosen from `ranks` and `left` is the rest. */
  predicate Split(ranks: map<Key, (int, int, int)>, left: map<Key, (int, int, int)>, keys: seq<Key>) {
    && Distinct(keys) && |keys| + |left| == |ranks|
    && (forall k :: k in left ==> k in ranks && left[k] == ranks[k] && k !in keys)
    && (forall k :: k in keys ==> k in ranks)
    && (forall k :: k in ranks ==> k in left || k in keys)
  }

  /** The chosen ones are in order, and before the rest. */
  predicate InOrder(ranks: map<Key, (int, int, int)>, left: map<Key, (int, int, int)>, keys: seq<Key>)
    requires Split(ranks, left, keys)
  {
    && (forall a, b :: 0 <= a < b < |keys| ==> Leq(ranks[keys[a]], ranks[keys[b]]))
    && (forall a, j :: 0 <= a < |keys| && j in left ==> Leq(ranks[keys[a]], ranks[j]))
  }

  lemma SplitOne(ranks: map<Key, (int, int, int)>, left: map<Key, (int, int, int)>, keys: seq<Key>, k: Key)
    requires Split(ranks, left, keys) && k in left
    ensures Split(ranks, left - {k}, keys + [k])
  {
    assert (left - {k}).Keys == left.Keys - {k};
  }

  lemma OrderOne(ranks: map<Key, (int, int, int)>, left: map<Key, (int, int, int)>, keys: seq<Key>, k: Key)
    requires Split(ranks, left, keys) && InOrder(ranks, left, keys) && k in left && forall j :: j in left ==> Leq(left[k], left[j])
    requires Split(ranks, left - {k}, keys + [k])
    ensures InOrder(ranks, left - {k}, keys + [k])
  {
    hide Leq;
    var more := keys + [k];
    forall a, b | 0 <= a < b < |more| ensures Leq(ranks[more[a]], ranks[more[b]]) {
      assert more[a] == keys[a];
    }
  }

  /** `ORDER BY ... LIMIT n`. */
  method SelectUpTo(ranks: map<Key, (int, int, int)>, n: nat) returns (keys: seq<Key>)
    ensures |keys| == Min(n, |ranks|) && Distinct(keys) && forall k :: k in keys ==> k in ranks
    ensures forall a, b :: 0 <= a < b < |keys| ==> Leq(ranks[keys[a]], ranks[keys[b]])
    ensures forall k, j :: k in keys && j in ranks && j !in keys ==> Leq(ranks[k], ranks[j])
  {
    keys := [];
    var left := ranks;
    while left != map[] && |keys| < n
      invariant |keys| <= n && Split(ranks, left, keys) && InOrder(ranks, left, keys)
      decreases |left|
    {
      hide Leq, Split, InOrder;
      var k := SelectFirst(left);
      SplitOne(ranks, left, keys, k);
      OrderOne(ranks, left, keys, k);
      assert (left - {k}).Keys == left.Keys - {k};
      keys := keys + [k];
      left := left - {k};
    }
    hide Leq;
    assert |left| == 0 ==> left == map[];
  }

  class BrokerStore {
    const settings: Settings
    var dispatcher: bool
    var devices: map<string, Device>
    var operations: map<Key, Row>
    var payloads: map<Key, Payload>
    var outbox: map<Key, OutboxState>
    var artifacts: seq<Artifact>
    var receipts: set<(string, Receipt)>
    ghost var log: map<string, seq<Snapshot>>

    ghost function Db(): Ledger
      reads this
    {
      Ledger(devices, operations, payloads, outbox, artifacts, receipts, log)
    }

    constructor (settings: Settings)
      ensures this.settings == settings && Db() == EMPTY && !dispatcher
    {
      this.settings := settings;
      dispatcher := false;
      devices, operations, payloads, outbox, artifacts, receipts, log := map[], map[], map[], map[], [], {}, map[];
    }

    method AcquireDispatcher(free: bool) returns (ok: bool)
      modifies this`dispatcher
      ensures ok == free && dispatcher == (old(dispatcher) || free) && Db() == old(Db())
    {
      if free { dispatcher := true; }
      ok := free;
    }

    // -------------------------------------------------------------- building blocks

    /** `_device`: create the device row if it is missing. */
    method TouchDevice(d: string)
      modifies this`devices
      ensures Db() == Touch(old(Db()), d)
    {
      if d !in devices { devices := devices[d := NO_DEVICE]; }
      assert devices == old(devices)[d := Dev(old(devices), d)];
    }

    /** An UPDATE or INSERT of one operation followed by `_event`. */
    method WriteAndPublish(k: Key, row: Row, now: int) returns (snapshot: Snapshot)
      modifies this`devices, this`operations, this`log
      ensures Db() == Publish(old(Db()), settings, k, row, now) && operations == old(operations)[k := row]
      ensures snapshot == SnapshotOf(k.op, row, now)
    {
      operations := operations[k := row];
      snapshot := SnapshotOf(k.op, row, now);
      var dev := Dev(devices, k.device);
      var n := dev.sequence + 1;
      var ttl := if settings.eventTtl < settings.resultTtl then settings.eventTtl else settings.resultTtl;
      devices := devices[k.device := Device(n, dev.floor, dev.events[n := Event(snapshot, now + ttl)])];
      log := log[k.device := Log(log, k.device) + [snapshot]];
    }

    /** `_finish`. */
    method CloseRow(k: Key, state: OpState, result: Option<OpResult>, code: Option<Code>, now: int, uuid: nat)
      returns (snapshot: Snapshot)
      requires k in operations
      modifies this`devices, this`operations, this`payloads, this`outbox, this`log
      ensures Db() == Close(old(Db()), settings, k, state, result, code, now, uuid)
      ensures k in operations && snapshot == SnapshotOf(k.op, operations[k], now)
    {
      hide Publish, SnapshotOf;
      var row := operations[k];
      if Final(row.state) { return SnapshotOf(k.op, row, now); }
      var expires := None;
      if result.Some? { expires := Some(now + settings.resultTtl); }
      var resultId := row.resultId;
      if resultId.None? { resultId := Some(uuid); }
      var closed := row.(state := state, resultId := resultId, result := result,
                         resultExpires := expires, error := code, updated := now);
      assert closed == FinishedRow(row, settings, state, result, code, now, uuid);
      hide FinishedRow;
      if k in outbox { outbox := outbox[k := Done]; }
      payloads := payloads - {k};
      snapshot := WriteAndPublish(k, closed, now);
    }

    /** `_artifact`: newest matching row that has not expired. */
    method FindArtifact(d: string, id: nat, now: int) returns (found: Option<Artifact>)
      ensures found == Find(artifacts, d, id, now)
    {
      var n := |artifacts|;
      assert artifacts[..n] == artifacts;
      while n > 0
        invariant n <= |artifacts| && Find(artifacts[..n], d, id, now) == Find(artifacts, d, id, now)
      {
        var row := artifacts[n - 1];
        assert artifacts[..n][..n - 1] == artifacts[..n - 1];
        if row.device == d && row.id == id && row.expires > now { return Some(row); }
        n := n - 1;
      }
      found := None;
    }

    // -------------------------------------------------------------- admission

    /** The attachment loop of `accept`. */
    method CheckInputs(d: string, ids: seq<nat>, now: int) returns (total: Result<nat, Code>)
      ensures total == InputBytes(artifacts, d, ids, now)
    {
      var bytes := 0;
      var i := 0;
      while i < |ids|
        invariant i <= |ids| && InputBytes(artifacts, d, ids[..i], now) == Ok(bytes)
      {
        var found := FindArtifact(d, ids[i], now);
        assert ids[..i + 1][..i] == ids[..i];
        if found.None? {
          InputsStop(artifacts, d, ids, i + 1, now);
          return Err(NotFound);
        }
        if !found.value.textPlain || !found.value.utf8 {
          InputsStop(artifacts, d, ids, i + 1, now);
          return Err(UnsupportedArtifact);
        }
        bytes := bytes + |found.value.content|;
        i := i + 1;
      }
      assert ids[..i] == ids;
      total := Ok(bytes);
    }

    method Accept(d: string, req: Request, now: int) returns (reply: Result<(Snapshot, bool), Code>)
      modifies this
      ensures Outcome(Db(), reply) == L.Accept(old(Db()), settings, d, req, now) && dispatcher == old(dispatcher)
    {
      var k := Key(d, req.op);
      if k in operations {
        if operations[k].digest != req { return Err(IdConflict); }
        TouchDevice(d);
        return Ok((SnapshotOf(k.op, operations[k], now), false));
      }
      var active := set j | j in operations && j.device == d && Active(operations[j].state);
      if |active| >= settings.maxPending { return Err(AdmissionFull); }
      if !Distinct(req.artifacts) { return Err(InvalidArtifacts); }
      var inputs := CheckInputs(d, req.artifacts, now);
      if inputs.Err? { return Err(inputs.error); }
      if |req.prompt| + inputs.value > settings.maxArtifactBytes { return Err(ArtifactsTooLarge); }
      payloads := payloads[k := Payload(req, now + settings.payloadTtl)];
      outbox := outbox[k := Pending];
      var snapshot := WriteAndPublish(k, NewRow(req, now), now);
      reply := Ok((snapshot, true));
    }

    method Get(k: Key, now: int) returns (reply: Result<Snapshot, Code>)
      ensures reply == L.Get(Db(), k, now)
    {
      if k !in operations { return Err(NotFound); }
      reply := Ok(SnapshotOf(k.op, operations[k], now));
    }

    // -------------------------------------------------------------- lifecycle

    /** No operation of the candidate's flow is running or unknown. */
    predicate FlowFree(k: Key)
      requires k in operations
      reads this
    {
      forall a :: a in operations && a.device == k.device && operations[a].flow == operations[k].flow
        ==> !Holding(operations[a].state)
    }

    method Claim(now: int, uuid: nat) returns (reply: Result<Option<(Key, Request)>, Code>, ghost chosen: Option<Key>)
      modifies this
      ensures dispatcher == old(dispatcher)
      ensures !dispatcher ==> reply == Err(DispatcherRequired) && Db() == old(Db())
      ensures dispatcher ==> reply.Ok?
      ensures dispatcher && chosen.None? ==>
        reply == Ok(None) && Db() == old(Db()) && forall k :: k in old(operations) ==> !Candidate(old(Db()), k)
      ensures dispatcher && chosen.Some? ==>
        && FirstCandidate(old(Db()), chosen.value)
        && var r := L.Claim(old(Db()), settings, chosen.value, now, uuid);
           Db() == r.0 && reply == Ok(if r.1.Some? then Some((chosen.value, r.1.value)) else None)
    {
      chosen := None;
      if !dispatcher { return Err(DispatcherRequired), None; }
      var ranks := map k | k in operations && k in outbox && outbox[k] == Pending && operations[k].state == Accepted && FlowFree(k)
        :: (0, operations[k].created, k.op);
      assert forall k :: k in operations ==> (Candidate(Db(), k) <==> k in ranks);
      if ranks == map[] { return Ok(None), None; }
      var k := SelectFirst(ranks);
      chosen := Some(k);
      var request := Dispatch(k, now, uuid);
      reply := Ok(if request.Some? then Some((k, request.value)) else None);
    }

    /** The rest of `claim`, for the row it selected. */
    method Dispatch(k: Key, now: int, uuid: nat) returns (request: Option<Request>)
      requires k in operations
      modifies this
      ensures (Db(), request) == L.Claim(old(Db()), settings, k, now, uuid) && dispatcher == old(dispatcher)
    {
      TouchDevice(k.device);
      if k !in payloads || payloads[k].expires <= now {
        var _ := CloseRow(k, Failed, None, Some(PayloadExpired), now, uuid);
        return None;
      }
      var wanted := payloads[k].request.artifacts;
      request := Some(payloads[k].request);
      var i := 0;
      while i < |wanted|
        invariant i <= |wanted| && Db() == Touch(old(Db()), k.device) && dispatcher == old(dispatcher)
        invariant forall j :: 0 <= j < i ==> Find(artifacts, k.device, wanted[j], now).Some?
      {
        var found := FindArtifact(k.device, wanted[i], now);
        if found.None? {
          var _ := CloseRow(k, Failed, None, Some(ArtifactExpired), now, uuid);
          return None;
        }
        i := i + 1;
      }
      outbox := outbox[k := Claimed];
      var _ := WriteAndPublish(k, operations[k].(state := Running, updated := now), now);
    }

    method Finish(k: Key, state: OpState, result: Option<OpResult>, code: Option<Code>, now: int, uuid: nat)
      returns (reply: Result<Snapshot, Code>)
      modifies this
      ensures Outcome(Db(), reply) == L.Finish(old(Db()), settings, k, state, result, code, now, uuid)
      ensures dispatcher == old(dispatcher)
    {
      if !Terminal(state) { return Err(InvalidTerminalState); }
      var st, res, cd := state, result, code;
      if result.Some? && result.value.size > settings.maxResultBytes {
        st, res, cd := Failed, None, Some(ResultTooLarge);
      }
      if k !in operations { return Err(NotFound); }
      TouchDevice(k.device);
      var snapshot := CloseRow(k, st, res, cd, now, uuid);
      reply := Ok(snapshot);
    }

    method SaveHandle(k: Key, handle: string, now: int) returns (reply: Result<(), Code>)
      modifies this
      ensures Outcome(Db(), reply) == L.SaveHandle(old(Db()), settings, k, handle, now)
      ensures dispatcher == old(dispatcher)
    {
      if |handle| == 0 || |handle| > 512 { return Err(InvalidPeerHandle); }
      if k !in operations { return Err(NotFound); }
      var row := operations[k];
      if row.handle.Some? && row.handle.value != handle { return Err(PeerHandleConflict); }
      if row.handle == Some(handle) || Final(row.state) {
        TouchDevice(k.device);
        return Ok(());
      }
      var _ := WriteAndPublish(k, row.(handle := Some(handle), updated := now), now);
      reply := Ok(());
    }

    /** Close every operation found running, one row after the other. */
    method Recover(now: int, uuids: Key -> nat) returns (reply: Result<(), Code>, ghost rows: seq<Key>)
      modifies this
      ensures dispatcher == old(dispatcher)
      ensures !dispatcher ==> reply == Err(DispatcherRequired) && Db() == old(Db())
      ensures dispatcher ==> reply == Ok(()) && ListsRunning(old(Db()), rows)
                             && Db() == CloseAll(old(Db()), settings, rows, now, uuids)
    {
      rows := [];
      if !dispatcher { return Err(DispatcherRequired), []; }
      var todo := set k | k in operations && operations[k].state == Running;
      while todo != {}
        invariant dispatcher == old(dispatcher)
        invariant Distinct(rows) && (forall k :: k in rows ==> k in old(operations) && k !in todo)
        invariant forall k :: k in old(operations) ==> (k in todo || k in rows <==> old(operations)[k].state.Running?)
        invariant todo <= old(operations).Keys && operations.Keys == old(operations).Keys
        invariant Db() == CloseAll(old(Db()), settings, rows, now, uuids)
      {
        var k :| k in todo;
        var _ := CloseRow(k, OutcomeUnknown, None, Some(RestartUnknown), now, uuids(k));
        assert (rows + [k])[..|rows|] == rows;
        rows := rows + [k];
        todo := todo - {k};
      }
      reply := Ok(());
    }

    /** The first rows by (polled_at with nulls first, updated_at), at most 20 of them, stamped as polled. */
    method Reconcilable(now: int) returns (rows: seq<Key>)
      modifies this`operations
      ensures |rows| <= 20 && Distinct(rows)
      ensures forall k :: k in rows ==> k in old(operations) && L.Reconcilable(old(operations)[k])
      ensures forall a, b :: 0 <= a < b < |rows| ==> PolledFirst(old(operations)[rows[a]], old(operations)[rows[b]])
      ensures forall k :: k in old(operations) && L.Reconcilable(old(operations)[k]) && k !in rows ==>
        |rows| == 20 && forall j :: j in rows ==> PolledFirst(old(operations)[j], old(operations)[k])
      ensures operations == Poll(old(operations), (set k | k in rows), now)
    {
      var ranks := map k | k in operations && L.Reconcilable(operations[k]) :: PollRank(operations[k]);
      assert forall k :: k in operations && L.Reconcilable(operations[k]) ==> k in ranks;
      rows := SelectUpTo(ranks, 20);
      assert |rows| < 20 ==> forall k :: k in ranks ==> k in rows by {
        if |rows| < 20 { AllSelected(rows, ranks.Keys); }
      }
      operations := map k | k in operations :: if k in rows then operations[k].(polled := Some(now)) else operations[k];
    }

    method CancelIntent(k: Key, now: int, uuid: nat) returns (reply: Result<Snapshot, Code>)
      modifies this
      ensures Outcome(Db(), reply) == L.CancelIntent(old(Db()), settings, k, now, uuid)
      ensures dispatcher == old(dispatcher)
    {
      if k !in operations { return Err(NotFound); }
      TouchDevice(k.device);
      var row := operations[k];
      var snapshot;
      if row.state == Accepted {
        snapshot := CloseRow(k, Canceled, None, None, now, uuid);
      } else if Final(row.state) || row.cancelRequested {
        snapshot := SnapshotOf(k.op, row, now);
      } else {
        snapshot := WriteAndPublish(k, row.(cancelRequested := true, error := Some(CancelUnconfirmed), updated := now), now);
      }
      reply := Ok(snapshot);
    }

    method ClaimCancel() returns (reply: Result<Option<(Key, string)>, Code>)
      modifies this
      ensures dispatcher == old(dispatcher)
      ensures !dispatcher ==> reply == Err(DispatcherRequired) && Db() == old(Db())
      ensures dispatcher ==> reply.Ok?
      ensures dispatcher && reply == Ok(None) ==>
        Db() == old(Db()) && forall k :: k in old(operations) ==> !Cancelable(old(operations)[k])
      ensures dispatcher && reply.Ok? && reply.value.Some? ==>
        var (k, handle) := reply.value.value;
        && k in old(operations) && Cancelable(old(operations)[k]) && old(operations)[k].handle == Some(handle)
        && (forall j :: j in old(operations) && Cancelable(old(operations)[j]) ==> old(operations)[k].updated <= old(operations)[j].updated)
        && Db() == L.ClaimCancel(old(Db()), k)
    {
      if !dispatcher { return Err(DispatcherRequired); }
      var ranks := map k | k in operations && Cancelable(operations[k]) :: (0, operations[k].updated, 0);
      assert forall k :: k in operations && Cancelable(operations[k]) ==> k in ranks;
      if ranks == map[] { return Ok(None); }
      var k := SelectFirst(ranks);
      TouchDevice(k.device);
      var handle := operations[k].handle.value;
      operations := operations[k := operations[k].(cancelClaimed := true)];
      reply := Ok(Some((k, handle)));
    }

    // -------------------------------------------------------------- events, receipts, retention

    /** `_purge_events`: drop the prefix up to the last expired event and raise the floor over it. */
    method PurgeEvents(d: string, now: int)
      requires d in devices
      modifies this`devices
      ensures devices == old(devices)[d := PurgeDevice(old(devices)[d], now)]
    {
      var dev := devices[d];
      var n: nat := dev.sequence;
      while n > 0 && !(n in dev.events && dev.events[n].expires <= now)
        invariant LastExpired(dev.events, dev.sequence, now) == LastExpired(dev.events, n, now)
      {
        n := n - 1;
      }
      if n > 0 {
        var floor := if dev.floor < n then n else dev.floor;
        devices := devices[d := Device(dev.sequence, floor, map m | m in dev.events && m > n :: dev.events[m])];
      }
    }

    method Events(d: string, after: nat, now: int) returns (reply: Result<seq<(nat, Snapshot)>, Code>)
      modifies this`devices
      ensures Outcome(Db(), reply) == L.Events(old(Db()), d, after, now)
    {
      var saved := devices;
      TouchDevice(d);
      PurgeEvents(d, now);
      var dev := devices[d];
      if after < dev.floor {
        devices := saved;
        return Err(RetentionGap(dev.sequence));
      }
      if after > dev.sequence {
        devices := saved;
        return Err(InvalidCursor);
      }
      var page: seq<(nat, Snapshot)> := [];
      var n := after;
      while n < dev.sequence && |page| < PAGE_LIMIT
        invariant after <= n <= dev.sequence && |page| <= PAGE_LIMIT
        invariant Page(dev, after, PAGE_LIMIT) == page + Page(dev, n, PAGE_LIMIT - |page|)
      {
        n := n + 1;
        if n in dev.events { page := page + [(n, dev.events[n].snapshot)]; }
      }
      assert page == Page(dev, after, PAGE_LIMIT);
      assert devices == old(devices)[d := dev];
      reply := Ok(page);
    }

    method AddReceipt(d: string, receipt: Receipt) returns (reply: Result<(), Code>)
      modifies this`devices, this`receipts
      ensures Outcome(Db(), reply) == L.AddReceipt(old(Db()), d, receipt)
    {
      var k := Key(d, receipt.op);
      if k !in operations { return Err(NotFound); }
      if operations[k].resultId.None? || operations[k].resultId.value != receipt.resultId { return Err(ResultConflict); }
      TouchDevice(d);
      receipts := receipts + {(d, receipt)};
      reply := Ok(());
    }

    /** `DELETE FROM broker_v06_artifacts WHERE expires_at <= now`, optionally for one device. */
    method DeleteExpired(only: Option<string>, now: int)
      modifies this`artifacts
      ensures artifacts == DropExpired(old(artifacts), only, now)
    {
      var kept := [];
      var i := 0;
      while i < |artifacts|
        invariant i <= |artifacts| && artifacts == old(artifacts) && kept == DropExpired(artifacts[..i], only, now)
      {
        var row := artifacts[i];
        assert artifacts[..i + 1][..i] == artifacts[..i];
        if !(row.expires <= now && (only.None? || only.value == row.device)) { kept := kept + [row]; }
        i := i + 1;
      }
      assert artifacts[..i] == artifacts;
      artifacts := kept;
    }

    /** `SELECT COALESCE(sum(size), 0)` for one device. */
    method SumSizes(d: string) returns (total: nat)
      ensures total == StoredBytes(artifacts, d)
    {
      total := 0;
      var i := 0;
      while i < |artifacts|
        invariant i <= |artifacts| && total == StoredBytes(artifacts[..i], d)
      {
        assert artifacts[..i + 1][..i] == artifacts[..i];
        if artifacts[i].device == d { total := total + |artifacts[i].content|; }
        i := i + 1;
      }
      assert artifacts[..i] == artifacts;
    }

    method PutArtifact(d: string, content: string, digest: string, typeOk: bool, textPlain: bool, utf8: bool,
                       now: int, id: nat) returns (reply: Result<nat, Code>)
      modifies this
      ensures Outcome(Db(), reply) == L.PutArtifact(old(Db()), settings, d, content, digest, typeOk, textPlain, utf8, now, id)
      ensures dispatcher == old(dispatcher)
    {
      if |content| > settings.maxArtifactBytes { return Err(ArtifactTooLarge); }
      if digest != content { return Err(DigestMismatch); }
      if !typeOk { return Err(InvalidContentType); }
      var saved := artifacts;
      DeleteExpired(Some(d), now);
      var total := SumSizes(d);
      if total + |content| > settings.deviceQuota {
        artifacts := saved;
        return Err(ArtifactQuota);
      }
      if Holds(artifacts, d, id) {
        artifacts := saved;
        return Err(LedgerUnavailable);
      }
      TouchDevice(d);
      artifacts := artifacts + [Artifact(d, id, content, textPlain, utf8, now + settings.artifactTtl)];
      reply := Ok(id);
    }

    method Purge(now: int)
      modifies this
      ensures Db() == L.Purge(old(Db()), now) && dispatcher == old(dispatcher)
    {
      var todo := devices.Keys;
      while todo != {}
        invariant todo <= devices.Keys == old(devices).Keys
        invariant forall d :: d in devices ==>
          devices[d] == if d in todo then old(devices)[d] else PurgeDevice(old(devices)[d], now)
        invariant unchanged(this`operations, this`payloads, this`outbox, this`artifacts, this`receipts, this`log, this`dispatcher)
      {
        var d :| d in todo;
        PurgeEvents(d, now);
        todo := todo - {d};
      }
      payloads := map k | k in payloads && payloads[k].expires > now :: payloads[k];
      DeleteExpired(None, now);
      operations := map k | k in operations :: if Expired(operations[k], now) then operations[k].(result := None) else operations[k];
      assert devices == L.Purge(old(Db()), now).devices;
    }
  }

  lemma {:induction false} DistinctSize<T>(s: seq<T>)
    requires Distinct(s)
    ensures |set x | x in s| == |s|
  {
    if s != [] {
      var rest, last := s[..|s| - 1], s[|s| - 1];
      DistinctSize(rest);
      assert (set x | x in s) == (set x | x in rest) + {last};
    }
  }

  lemma AllSelected<T>(s: seq<T>, all: set<T>)
    requires Distinct(s) && |s| == |all| && forall x :: x in s ==> x in all
    ensures forall x :: x in all ==> x in s
  {
    DistinctSize(s);
    var chosen := set x | x in s;
    assert all == chosen + (all - chosen);
  }

  lemma {:induction false} InputsStop(artifacts: seq<Artifact>, d: string, ids: seq<nat>, n: nat, now: int)
    requires n <= |ids| && InputBytes(artifacts, d, ids[..n], now).Err?
    ensures InputBytes(artifacts, d, ids, now) == InputBytes(artifacts, d, ids[..n], now)
    decreases |ids| - n
  {
    if n < |ids| {
      assert ids[..n + 1][..n] == ids[..n];
      InputsStop(artifacts, d, ids, n + 1, now);
    } else {
      assert ids[..n] == ids;
    }
  }

  /** `polled_at NULLS FIRST`, then `updated_at`. */
  function PollRank(row: Row): (int, int, int) {
    if row.polled.None? then (0, 0, row.updated) else (1, row.polled.value, row.updated)
  }

  predicate PolledFirst(a: Row, b: Row) {
    Leq(PollRank(a), PollRank(b))
  }
}
