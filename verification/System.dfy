/** One client and its broker over a network that loses, delays, repeats and reorders.

    The client's device is `cfg.device`.  Every snapshot the broker ever answered stays available for
    delivery, with the length of the device's event log when it was produced; the client may ingest any of them, in any
    order, any number of times, or never.  Events reach the client as text: one whose text is a single line is ingested,
    one that the line reader passes is skipped, and at any other the stream closes.  Other devices act on the broker
    without restriction. */
module System {
  import opened Common
  import opened Ledger
  import opened LedgerInvariant
  import B = Broker
  import opened ClientLedger
  import opened Client
  import S = SseFrames
  import F = PayloadFates

  /** `text` is the JSON text the broker writes for a snapshot. */
  datatype Config = Config(device: string, broker: Settings, client: ClientSettings, text: Snapshot -> string)

  /** The event comes through the client's line reader in one piece. */
  predicate Whole(cfg: Config, e: Snapshot) {
    S.OneLine(cfg.text(e))
  }

  /** The line reader passes event number `n` without ingesting it when the cursor is here. */
  predicate Passes(cfg: Config, n: nat, e: Snapshot, cursor: nat) {
    F.SilentlyPassed(n, cfg.text(e), cursor)
  }

  /** The text of event number `n` lets the reader pass it with the cursor below it. */
  predicate Passable(cfg: Config, n: nat, e: Snapshot) {
    n > 0 && Passes(cfg, n, e, n - 1)
  }

  /** A snapshot without result text and details is written on one line if its handle is: ids, times and codes hold
      no line break. */
  ghost predicate PlainWriter(cfg: Config) {
    forall e: Snapshot ::
      e.result.None? && (e.error.Some? ==> e.error.value.details.None?) && (e.handle.Some? ==> S.OneLine(e.handle.value)) ==>
        Whole(cfg, e)
  }

  /** An answer carrying a snapshot, produced when the device's log had `at` entries. */
  datatype Answer = Answer(s: Snapshot, at: nat)

  /** A 404 answer. */
  datatype Absence = Absence(op: nat, at: nat)

  datatype System = System(broker: B.Broker, client: Client, answers: set<Answer>, absences: set<Absence>)

  datatype SysStep = OnBroker(b: B.Step) | OnClient(c: CStep)

  const START := System(B.INITIAL, NEW_CLIENT, {}, {})

  function LogOf(y: System, cfg: Config): seq<Snapshot> {
    Log(y.broker.db.log, cfg.device)
  }

  /** What the broker answers a request with, once the transaction is done. */
  function Reply(b: B.Broker, cfg: Settings, s: B.Step): Option<Snapshot> {
    match s
    case AcceptRequest(d, req, now) =>
      var r := Accept(b.db, cfg, d, req, now).reply; if r.Ok? then Some(r.value.0) else None
    case GetRequest(k, now) => var r := Get(b.db, k, now); if r.Ok? then Some(r.value) else None
    case CancelRequest(k, now, uuid) =>
      var r := CancelIntent(b.db, cfg, k, now, uuid).reply; if r.Ok? then Some(r.value) else None
    case _ => None
  }

  predicate ForDevice(s: B.Step, d: string) {
    || (s.AcceptRequest? && s.device == d) || ((s.GetRequest? || s.CancelRequest?) && s.k.device == d)
  }

  ghost predicate Allowed(y: System, cfg: Config, s: SysStep) {
    match s
    case OnBroker(b) =>
      && B.Enabled(y.broker, cfg.broker, b)
      && (b.AcceptRequest? && b.device == cfg.device ==> b.request in y.client.posts)
    case OnClient(c) =>
      && CEnabled(y.client, c)
      && match c {
           case Ingest(t, _) => exists a :: a in y.answers && a.s == t
           case StreamEvent(n, t, _) => 1 <= n <= |LogOf(y, cfg)| && t == LogOf(y, cfg)[n - 1] && Whole(cfg, t)
           case PassEvent(n) => 1 <= n <= |LogOf(y, cfg)| && Passes(cfg, n, LogOf(y, cfg)[n - 1], y.client.db.cursor)
           case Gap(resume) => resume <= |LogOf(y, cfg)|
           case Fetched(t, _) => exists a :: a in y.answers && a.s == t && a.at >= y.client.recovery.resume
           case Missing(op) => exists a :: a in y.absences && a.op == op && a.at >= y.client.recovery.resume
           case Sent(r) => (cfg.device, r) in y.broker.db.receipts
           case _ => true
         }
  }

  function After(y: System, cfg: Config, s: SysStep): System
    requires s.OnBroker? ==> B.Enabled(y.broker, cfg.broker, s.b)
    requires s.OnClient? ==> CEnabled(y.client, s.c)
  {
    match s
    case OnClient(c) => y.(client := CNext(y.client, cfg.client, c))
    case OnBroker(b) =>
      var broker := B.Next(y.broker, cfg.broker, b);
      var at := |Log(broker.db.log, cfg.device)|;
      var reply := Reply(y.broker, cfg.broker, b);
      y.(broker := broker,
         answers := if ForDevice(b, cfg.device) && reply.Some? then y.answers + {Answer(reply.value, at)} else y.answers,
         absences := if b.GetRequest? && b.k.device == cfg.device && reply.None?
                     then y.absences + {Absence(b.k.op, at)} else y.absences)
  }

  ghost predicate ValidHistory(y: System, cfg: Config, run: seq<SysStep>)
    decreases |run|
  {
    run == [] || (Allowed(y, cfg, run[0]) && ValidHistory(After(y, cfg, run[0]), cfg, run[1..]))
  }

  ghost function Reached(y: System, cfg: Config, run: seq<SysStep>): System
    requires ValidHistory(y, cfg, run)
    decreases |run|
  {
    if run == [] then y else Reached(After(y, cfg, run[0]), cfg, run[1..])
  }
}
