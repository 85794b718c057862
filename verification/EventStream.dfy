/** The server-sent event stream of one request: it repeats the device's log from the cursor on, without hole or repeat. */
module EventStream {
  import opened Common
  import opened L = Ledger
  import opened LedgerInvariant
  import opened LedgerSteps
  import opened Broker
  import opened BrokerInvariant
  import opened BrokerSteps
  import opened BrokerTheorems
  import BS = BrokerStore
  import opened SseFrames
  import opened Deliveries

  /** How snapshots and errors are written as JSON. */
  datatype Codec = Codec(canonical: Snapshot -> string, errorText: Code -> string)

  /** The generator's variables and everything it has yielded. */
  datatype Stream = Stream(start: nat, cursor: nat, batch: seq<(nat, Snapshot)>, sent: seq<Frame>, open: bool)

  function Opened(after: nat, initial: seq<(nat, Snapshot)>): Stream {
    Stream(after, after, initial, [], true)
  }

  /** Yield the whole batch. */
  function Drain(s: Stream, codec: Codec): (r: Stream)
    ensures r.batch == [] && r.start == s.start && r.open == s.open
    decreases |s.batch|
  {
    if s.batch == [] then s
    else
      var (n, snapshot) := s.batch[0];
      Drain(s.(cursor := n, batch := s.batch[1..], sent := s.sent + [Operation(n, codec.canonical(snapshot))]), codec)
  }

  /** One poll, given what `events` answered. */
  function Polled(s: Stream, codec: Codec, reply: Result<seq<(nat, Snapshot)>, Code>): Stream {
    match reply
    case Err(code) => s.(sent := s.sent + [Failure(codec.errorText(code))], open := false)
    case Ok(page) => s.(batch := page, sent := if page == [] then s.sent + [Keepalive] else s.sent)
  }

  /** Why the generator woke up: the client left, the ledger failed, or it polled the ledger at `now`. */
  datatype Wake = Disconnected | LedgerFailed | Tick(now: int)

  class EventSource {
    const store: BS.BrokerStore
    const device: string
    const codec: Codec
    const start: nat
    var cursor: nat
    var batch: seq<(nat, Snapshot)>
    var sent: seq<Frame>
    var open: bool

    ghost function State(): Stream
      reads this
    {
      Stream(start, cursor, batch, sent, open)
    }

    constructor (store: BS.BrokerStore, device: string, codec: Codec, after: nat, initial: seq<(nat, Snapshot)>)
      ensures this.store == store && this.device == device && this.codec == codec
      ensures State() == Opened(after, initial)
    {
      this.store, this.device, this.codec, start := store, device, codec, after;
      cursor, batch, sent, open := after, initial, [], true;
    }

    method YieldBatch()
      modifies this
      ensures State() == Drain(old(State()), codec)
    {
      while batch != []
        invariant Drain(State(), codec) == Drain(old(State()), codec)
        decreases |batch|
      {
        var (n, snapshot) := batch[0];
        sent := sent + [Operation(n, codec.canonical(snapshot))];
        cursor := n;
        batch := batch[1..];
      }
    }

    /** Everything between two batches. */
    method Wait(wake: Wake)
      modifies this, store`devices
      ensures !wake.Tick? ==> State() == old(State()).(open := false) && store.Db() == old(store.Db())
      ensures wake.Tick? ==>
        var r := L.Events(old(store.Db()), device, old(cursor), wake.now);
        State() == Polled(old(State()), codec, r.reply) && store.Db() == r.db
    {
      match wake
      case Disconnected => open := false;
      case LedgerFailed => open := false;
      case Tick(now) =>
        var reply := store.Events(device, cursor, now);
        match reply {
          case Err(code) =>
            sent := sent + [Failure(codec.errorText(code))];
            open := false;
          case Ok(page) =>
            batch := page;
            if page == [] { sent := sent + [Keepalive]; }
        }
    }
  }

  // ---------------------------------------------------------------- what the stream has said

  /** The entry of the log that carries number `n`. */
  function Entry(log: seq<Snapshot>, codec: Codec, n: nat): (nat, string)
    requires 1 <= n <= |log|
  {
    (n, codec.canonical(log[n - 1]))
  }

  /** The operation frames sent so far are the log from `start` to `cursor`, in order; the batch continues it. */
  predicate StreamOk(s: Stream, codec: Codec, log: seq<Snapshot>) {
    && s.start <= s.cursor <= s.cursor + |s.batch| <= |log|
    && |Above(s.sent, s.start)| == s.cursor - s.start
    && (forall i :: 0 <= i < s.cursor - s.start ==> Above(s.sent, s.start)[i] == Entry(log, codec, s.start + 1 + i))
    && (forall f :: f in s.sent && f.Operation? ==> s.start < f.id <= s.cursor)
    && Ascending(s.sent)
    && (forall i :: 0 <= i < |s.batch| ==> s.batch[i] == (s.cursor + 1 + i, log[s.cursor + i]))
  }

  /** A page of a gap-free device: consecutive numbers right after the cursor, as many as fit. */
  lemma {:induction false} PageContiguous(dev: Device, log: seq<Snapshot>, after: nat, limit: nat)
    requires DeviceOk(dev, log) && dev.floor <= after <= dev.sequence
    ensures var page := Page(dev, after, limit);
      && |page| == Min(limit, dev.sequence - after)
      && forall i :: 0 <= i < |page| ==> page[i] == (after + 1 + i, log[after + i])
    decreases dev.sequence - after
  {
    if limit > 0 && after < dev.sequence {
      PageContiguous(dev, log, after + 1, limit - 1);
      var rest := Page(dev, after + 1, limit - 1);
      assert after + 1 in dev.events;
    }
  }

  lemma {:induction false} AboveAppend(frames: seq<Frame>, f: Frame, cursor: nat)
    ensures Above(frames + [f], cursor) == Above(frames, cursor) + Above([f], cursor)
  {
    if frames == [] {
      assert frames + [f] == [f];
    } else {
      assert (frames + [f])[1..] == frames[1..] + [f];
      AboveAppend(frames[1..], f, cursor);
    }
  }

  lemma StreamStable(s: Stream, codec: Codec, log: seq<Snapshot>, log': seq<Snapshot>)
    requires StreamOk(s, codec, log) && log <= log'
    ensures StreamOk(s, codec, log')
  {
  }

  lemma OtherFrame(s: Stream, codec: Codec, log: seq<Snapshot>, f: Frame)
    requires StreamOk(s, codec, log) && !f.Operation?
    ensures StreamOk(s.(sent := s.sent + [f]), codec, log)
  {
    AboveAppend(s.sent, f, s.start);
    assert [f][1..] == [];
    assert Above(s.sent, s.start) + [] == Above(s.sent, s.start);
  }

  lemma OneMore(s: Stream, codec: Codec, log: seq<Snapshot>)
    requires StreamOk(s, codec, log) && s.batch != []
    ensures var (n, t) := s.batch[0];
      StreamOk(s.(cursor := n, batch := s.batch[1..], sent := s.sent + [Operation(n, codec.canonical(t))]), codec, log)
  {
    hide Above, Ascending;
    var (n, t) := s.batch[0];
    var f := Operation(n, codec.canonical(t));
    AboveAppend(s.sent, f, s.start);
    AboveOne(f, s.start);
    AscendingMore(s.sent, f);
  }

  lemma AboveOne(f: Frame, cursor: nat)
    requires f.Operation? && f.id > cursor
    ensures Above([f], cursor) == [(f.id, f.data)]
  {
    assert [f][1..] == [];
  }

  lemma AscendingMore(frames: seq<Frame>, f: Frame)
    requires Ascending(frames) && f.Operation? && forall g :: g in frames && g.Operation? ==> g.id < f.id
    ensures Ascending(frames + [f])
  {
  }

  lemma {:induction false} DrainOk(s: Stream, codec: Codec, log: seq<Snapshot>)
    requires StreamOk(s, codec, log)
    ensures StreamOk(Drain(s, codec), codec, log) && Drain(s, codec).cursor == s.cursor + |s.batch|
    decreases |s.batch|
  {
    if s.batch != [] {
      OneMore(s, codec, log);
      var (n, t) := s.batch[0];
      DrainOk(s.(cursor := n, batch := s.batch[1..], sent := s.sent + [Operation(n, codec.canonical(t))]), codec, log);
    }
  }

  /** What `events` answers inside a gap-free ledger: the next page, or a gap exactly when the cursor fell below
      the floor; a cursor the log has reached is never called invalid. */
  lemma PageOrGap(cfg: Settings, db: L.Ledger, d: string, after: nat, now: int)
    requires LedgerInv(cfg, db)
    ensures var reply := L.Events(db, d, after, now).reply; var log := Log(db.log, d);
      && (reply.Ok? ==> after <= |log| && |reply.value| == Min(PAGE_LIMIT, |log| - after))
      && (reply.Ok? ==> forall i :: 0 <= i < |reply.value| ==> reply.value[i] == (after + 1 + i, log[after + i]))
      && (reply.Err? && after <= |log| ==> reply.error == RetentionGap(|log|))
  {
    hide LedgerInv, PurgeDevice, Page, Log, DeviceOk;
    DeviceFits(cfg, db, d);
    PurgeDeviceKeeps(Dev(db.devices, d), Log(db.log, d), now);
    Reaches(PurgeDevice(Dev(db.devices, d), now), Log(db.log, d));
    var dev := PurgeDevice(Dev(db.devices, d), now);
    if dev.floor <= after <= dev.sequence { PageContiguous(dev, Log(db.log, d), after, PAGE_LIMIT); }
  }

  lemma Reaches(dev: Device, log: seq<Snapshot>)
    requires DeviceOk(dev, log)
    ensures dev.floor <= dev.sequence == |log|
  {
  }

  lemma DeviceFits(cfg: Settings, db: L.Ledger, d: string)
    requires LedgerInv(cfg, db)
    ensures DeviceOk(Dev(db.devices, d), Log(db.log, d))
  {
    hide FoldAgrees, HistoryOk, PendingOk, QuotaOk, Tables, FlowsOk;
  }

  /** The stream with the page it just read. */
  lemma NextBatch(s: Stream, codec: Codec, log: seq<Snapshot>, page: seq<(nat, Snapshot)>)
    requires StreamOk(s, codec, log) && s.cursor + |page| <= |log|
    requires forall i :: 0 <= i < |page| ==> page[i] == (s.cursor + 1 + i, log[s.cursor + i])
    ensures StreamOk(s.(batch := page), codec, log)
  {
    hide Above, Ascending, Entry;
  }

  lemma PollOk(cfg: Settings, db: L.Ledger, d: string, s: Stream, codec: Codec, now: int)
    requires LedgerInv(cfg, db) && StreamOk(s, codec, Log(db.log, d)) && s.cursor <= |Log(db.log, d)|
    ensures StreamOk(Polled(s, codec, L.Events(db, d, s.cursor, now).reply), codec, Log(db.log, d))
  {
    PageOrGap(cfg, db, d, s.cursor, now);
    hide LedgerInv, L.Events, StreamOk, Log;
    var reply := L.Events(db, d, s.cursor, now).reply;
    match reply
    case Err(code) =>
      OtherFrame(s, codec, Log(db.log, d), Failure(codec.errorText(code)));
      StaysOk(s.(sent := s.sent + [Failure(codec.errorText(code))]), codec, Log(db.log, d));
    case Ok(page) =>
      NextBatch(s, codec, Log(db.log, d), page);
      if page == [] { OtherFrame(s.(batch := page), codec, Log(db.log, d), Keepalive); }
  }

  /** A poll inside retention brings the stream up to date, a page at a time: once its batch is drained, everything up to the
      end of the log or the page has been sent; the stream stays open, and a keepalive is sent exactly if there is nothing
      new.  After a gap an error frame is the last thing sent. */
  lemma PollCatchesUp(cfg: Settings, db: L.Ledger, d: string, s: Stream, codec: Codec, now: int)
    requires LedgerInv(cfg, db) && StreamOk(s, codec, Log(db.log, d)) && s.batch == [] && s.open
    ensures var log := Log(db.log, d); var reply := L.Events(db, d, s.cursor, now).reply; var s' := Drain(Polled(s, codec, reply), codec);
      && (reply.Ok? ==> s'.open && s'.cursor == Min(s.cursor + PAGE_LIMIT, |log|) && StreamOk(s', codec, log))
      && (reply.Ok? && s.cursor == |log| ==> s'.sent == s.sent + [Keepalive])
      && (reply.Err? ==> !s'.open && s'.cursor == s.cursor && s'.sent == s.sent + [Failure(codec.errorText(RetentionGap(|log|)))])
  {
    hide LedgerInv, L.Events, StreamOk, Log;
    StaysOk(s, codec, Log(db.log, d));
    PageOrGap(cfg, db, d, s.cursor, now);
    PollOk(cfg, db, d, s, codec, now);
    DrainOk(Polled(s, codec, L.Events(db, d, s.cursor, now).reply), codec, Log(db.log, d));
  }

  lemma StaysOk(s: Stream, codec: Codec, log: seq<Snapshot>)
    requires StreamOk(s, codec, log)
    ensures StreamOk(s.(open := false), codec, log) && s.cursor <= |log|
  {
    hide Above, Ascending, Entry;
  }

  // ---------------------------------------------------------------- over whole runs

  /** The stream's polls at the given times, with any broker steps before each of them. */
  predicate Followable(b: Broker, cfg: Settings, d: string, s: Stream, codec: Codec, polls: seq<(seq<Step>, int)>)
    decreases |polls|
  {
    polls == [] || !s.open ||
      (&& ValidRun(b, cfg, polls[0].0)
       && var b1 := Exec(b, cfg, polls[0].0); var s1 := Drain(s, codec); var e := EventsRequest(d, s1.cursor, polls[0].1);
          && Enabled(b1, cfg, e)
          && Followable(Next(b1, cfg, e), cfg, d, Polled(s1, codec, L.Events(b1.db, d, s1.cursor, polls[0].1).reply), codec, polls[1..]))
  }

  function Follow(b: Broker, cfg: Settings, d: string, s: Stream, codec: Codec, polls: seq<(seq<Step>, int)>): (Broker, Stream)
    requires Followable(b, cfg, d, s, codec, polls)
    decreases |polls|
  {
    if polls == [] || !s.open then (b, Drain(s, codec))
    else
      var b1 := Exec(b, cfg, polls[0].0); var s1 := Drain(s, codec); var e := EventsRequest(d, s1.cursor, polls[0].1);
      Follow(Next(b1, cfg, e), cfg, d, Polled(s1, codec, L.Events(b1.db, d, s1.cursor, polls[0].1).reply), codec, polls[1..])
  }

  lemma {:induction false} FollowOk(b: Broker, cfg: Settings, d: string, s: Stream, codec: Codec, polls: seq<(seq<Step>, int)>)
    requires BrokerInv(cfg, b) && Followable(b, cfg, d, s, codec, polls) && StreamOk(s, codec, Log(b.db.log, d))
    ensures var (b', s') := Follow(b, cfg, d, s, codec, polls); StreamOk(s', codec, Log(b'.db.log, d))
    decreases |polls|
  {
    hide BrokerInv, StreamOk, Enabled, Next, L.Events, Polled;
    DrainOk(s, codec, Log(b.db.log, d));
    if polls != [] && s.open {
      var b1 := Exec(b, cfg, polls[0].0);
      var s1, now := Drain(s, codec), polls[0].1;
      RunKeeps(cfg, b, polls[0].0);
      GrownLog(b.db, b1.db, d);
      StreamStable(s1, codec, Log(b.db.log, d), Log(b1.db.log, d));
      InnerLedger(cfg, b1);
      StaysOk(s1, codec, Log(b1.db.log, d));
      PollOk(cfg, b1.db, d, s1, codec, now);
      PollStep(cfg, b1, d, s1.cursor, now);
      FollowOk(Next(b1, cfg, EventsRequest(d, s1.cursor, now)), cfg, d, Polled(s1, codec, L.Events(b1.db, d, s1.cursor, now).reply), codec, polls[1..]);
    }
  }

  lemma GrownLog(a: L.Ledger, b: L.Ledger, d: string)
    requires LedgerEvolves(a, b)
    ensures Log(a.log, d) <= Log(b.log, d)
  {
  }

  lemma InnerLedger(cfg: Settings, b: Broker)
    requires BrokerInv(cfg, b)
    ensures LedgerInv(cfg, b.db)
  {
  }

  lemma PollStep(cfg: Settings, b: Broker, d: string, after: nat, now: int)
    requires BrokerInv(cfg, b) && Enabled(b, cfg, EventsRequest(d, after, now))
    ensures BrokerInv(cfg, Next(b, cfg, EventsRequest(d, after, now)))
    ensures Log(Next(b, cfg, EventsRequest(d, after, now)).db.log, d) == Log(b.db.log, d)
  {
    hide BrokerInv, LedgerEvolves, PurgeDevice, Page;
    EveryStep(cfg, b, EventsRequest(d, after, now));
    EventsLog(b.db, d, after, now);
  }

  lemma EventsLog(db: L.Ledger, d: string, after: nat, now: int)
    ensures L.Events(db, d, after, now).db.log == db.log
  {
  }

  lemma OpenedOk(codec: Codec, log: seq<Snapshot>, after: nat, page: seq<(nat, Snapshot)>)
    requires after + |page| <= |log| && forall i :: 0 <= i < |page| ==> page[i] == (after + 1 + i, log[after + i])
    ensures StreamOk(Opened(after, page), codec, log)
  {
  }

  /** A stream opened at cursor `after` emits exactly the log entries after + 1, after + 2, ... in order, however
      pages, other broker steps, purges and clock changes fall between its polls. */
  lemma GapFree(cfg: Settings, before: seq<Step>, d: string, after: nat, now: int, codec: Codec, polls: seq<(seq<Step>, int)>)
    requires ValidRun(INITIAL, cfg, before) && Enabled(Exec(INITIAL, cfg, before), cfg, EventsRequest(d, after, now))
    requires L.Events(Exec(INITIAL, cfg, before).db, d, after, now).reply.Ok?
    requires var b := Exec(INITIAL, cfg, before);
      Followable(Next(b, cfg, EventsRequest(d, after, now)), cfg, d, Opened(after, L.Events(b.db, d, after, now).reply.value), codec, polls)
    ensures var b := Exec(INITIAL, cfg, before);
      var (b', s) := Follow(Next(b, cfg, EventsRequest(d, after, now)), cfg, d,
                            Opened(after, L.Events(b.db, d, after, now).reply.value), codec, polls);
      s.start == after && StreamOk(s, codec, Log(b'.db.log, d))
  {
    var b := Exec(INITIAL, cfg, before);
    Reachable(cfg, before);
    hide BrokerInv, Enabled, Next, L.Events, Exec, ValidRun, StreamOk, Follow, Followable, Log;
    InnerLedger(cfg, b);
    PageOrGap(cfg, b.db, d, after, now);
    PollStep(cfg, b, d, after, now);
    var page := L.Events(b.db, d, after, now).reply.value;
    OpenedOk(codec, Log(b.db.log, d), after, page);
    FollowOk(Next(b, cfg, EventsRequest(d, after, now)), cfg, d, Opened(after, page), codec, polls);
    FollowStart(Next(b, cfg, EventsRequest(d, after, now)), cfg, d, Opened(after, page), codec, polls);
  }

  lemma {:induction false} FollowStart(b: Broker, cfg: Settings, d: string, s: Stream, codec: Codec, polls: seq<(seq<Step>, int)>)
    requires Followable(b, cfg, d, s, codec, polls)
    ensures Follow(b, cfg, d, s, codec, polls).1.start == s.start
    decreases |polls|
  {
    hide Enabled, Next, L.Events, Exec, ValidRun;
    if polls != [] && s.open {
      var b1 := Exec(b, cfg, polls[0].0);
      var s1, now := Drain(s, codec), polls[0].1;
      FollowStart(Next(b1, cfg, EventsRequest(d, s1.cursor, now)), cfg, d, Polled(s1, codec, L.Events(b1.db, d, s1.cursor, now).reply), codec, polls[1..]);
    }
  }

  /** End to end: a client whose durable cursor is where the stream started ingests the log from there on, entry
      by entry, as long as payloads are one line, within the bound and accepted. */
  lemma ClientSeesLog(s: Stream, codec: Codec, log: seq<Snapshot>, accepts: (nat, string) -> bool)
    requires StreamOk(s, codec, log)
    requires forall f :: f in s.sent ==> WellFormed(f) && SseFrames.Fits(f) && (f.Operation? ==> accepts(f.id, f.data))
    ensures var r := Read(RenderAll(s.sent), s.start, accepts);
      && !r.failed && r.cursor == s.cursor && |r.ingested| == s.cursor - s.start
      && forall i :: 0 <= i < |r.ingested| ==> r.ingested[i] == Entry(log, codec, s.start + 1 + i)
  {
    hide StreamOk, WellFormed, SseFrames.Fits, Read, RenderAll, Deliver, Ascending, Above, Unbroken, GoesOn, Clean, Legible;
    CleanFrames(s.sent, s.start, accepts);
    SentFrames(s, codec, log);
    StreamRoundTrip(s.sent, s.start, accepts);
    DeliverAll(s.sent, s.start, accepts);
    AllUnbroken(s.sent, s.start);
    DeliverOnce(s.sent, s.start, accepts);
    Everything(s, codec, log, Deliver(s.sent, s.start, accepts), accepts);
  }

  lemma CleanFrames(frames: seq<Frame>, cursor: nat, accepts: (nat, string) -> bool)
    requires forall f :: f in frames ==> WellFormed(f) && SseFrames.Fits(f) && (f.Operation? ==> accepts(f.id, f.data))
    ensures forall f :: f in frames ==> Legible(f, accepts) && Clean(f) && GoesOn(f, cursor, accepts)
  {
    hide OneLine, SseFrames.Fits;
  }

  lemma SentFrames(s: Stream, codec: Codec, log: seq<Snapshot>)
    requires StreamOk(s, codec, log)
    ensures Ascending(s.sent)
  {
  }

  lemma Everything(s: Stream, codec: Codec, log: seq<Snapshot>, d: Delivery, accepts: (nat, string) -> bool)
    requires StreamOk(s, codec, log) && d.ingested == Above(s.sent, s.start) && Once(d, s.sent, s.start, accepts)
    ensures d.cursor == s.cursor && |d.ingested| == s.cursor - s.start
    ensures forall i :: 0 <= i < |d.ingested| ==> s.start + 1 + i <= |log| && d.ingested[i] == Entry(log, codec, s.start + 1 + i)
  {
    hide Above, Ascending;
  }
}
