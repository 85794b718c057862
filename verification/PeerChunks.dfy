/** `HermesBrokerPeer.submit`: folding a stream of task events into growing artifacts. */
module PeerChunks {
  import opened Common
  import opened L = Ledger
  import opened Decimal
  import opened Base64

  /** A part is a dictionary with optional text and raw entries; `Junk` is anything that is not a dictionary. */
  datatype Part = Part(text: Option<string>, raw: Option<string>, fields: map<string, string>) | Junk

  datatype PeerArtifact = PeerArtifact(id: Option<string>, parts: seq<Part>, fields: map<string, string>)

  /** A parsed stream event: `task` marks a whole-task event, `append` an appending artifact update. */
  datatype PeerEvent =
    | Unparsed
    | PeerEvent(taskId: string, state: string, text: string, artifacts: seq<PeerArtifact>, task: bool, append: bool)

  datatype TaskResult = TaskResult(taskId: string, state: string, text: string, artifacts: seq<PeerArtifact>)

  /** The size limit, the serialized size of a snapshot, and the text of an artifact. */
  datatype Shape = Shape(max: nat, measure: (seq<PeerArtifact>, string) -> nat, textOf: PeerArtifact -> string)

  /** A dictionary that remembers insertion order. */
  type Dict = seq<(string, PeerArtifact)>

  function Lookup(d: Dict, key: string): Option<PeerArtifact> {
    if d == [] then None else if d[|d| - 1].0 == key then Some(d[|d| - 1].1) else Lookup(d[..|d| - 1], key)
  }

  function Put(d: Dict, key: string, a: PeerArtifact): Dict {
    if d == [] then [(key, a)]
    else if d[|d| - 1].0 == key then d[..|d| - 1] + [(key, a)]
    else if Lookup(d, key).None? then d + [(key, a)]
    else Put(d[..|d| - 1], key, a) + [d[|d| - 1]]
  }

  function Values(d: Dict): seq<PeerArtifact> {
    seq(|d|, i requires 0 <= i < |d| => d[i].1)
  }

  function Override<T>(prior: Option<T>, later: Option<T>): Option<T> {
    if later.Some? then later else prior
  }

  /** Add one part to the parts so far: a chunk continues the preceding part of its kind. */
  function AppendPart(parts: seq<Part>, part: Part, max: nat): Result<seq<Part>, Code> {
    if parts == [] || part.Junk? || parts[|parts| - 1].Junk? then Ok(parts + [part])
    else
      var before, prior := parts[..|parts| - 1], parts[|parts| - 1];
      if prior.text.Some? && part.text.Some? then
        Ok(before + [Part(Some(prior.text.value + part.text.value), Override(prior.raw, part.raw), prior.fields + part.fields)])
      else if prior.raw.Some? && part.raw.Some? then
        if |prior.raw.value| + |part.raw.value| > max then Err(ResultTooLarge)
        else
          var a, b := Decode(prior.raw.value), Decode(part.raw.value);
          if a.None? || b.None? then Err(InvalidPeerArtifact)
          else Ok(before + [Part(Override(prior.text, part.text), Some(Encode(a.value + b.value)), prior.fields + part.fields)])
      else Ok(parts + [part])
  }

  function AppendParts(parts: seq<Part>, more: seq<Part>, max: nat): Result<seq<Part>, Code> {
    if more == [] then Ok(parts)
    else
      var sofar := AppendParts(parts, more[..|more| - 1], max);
      if sofar.Err? then sofar else AppendPart(sofar.value, more[|more| - 1], max)
  }

  function KeyOf(a: PeerArtifact, index: nat): string {
    if a.id.Some? && a.id.value != "" then a.id.value else "part-" + ToDecimal(index)
  }

  /** One artifact of an event: appended to the one it continues, or stored as it came. */
  function AddArtifact(d: Dict, a: PeerArtifact, index: nat, append: bool, max: nat): Result<Dict, Code> {
    var previous := Lookup(d, KeyOf(a, index));
    if !append || previous.None? then Ok(Put(d, KeyOf(a, index), a))
    else
      var parts := AppendParts(previous.value.parts, a.parts, max);
      if parts.Err? then Err(parts.error)
      else Ok(Put(d, KeyOf(a, index), PeerArtifact(Override(previous.value.id, a.id), parts.value, previous.value.fields + a.fields)))
  }

  function AddArtifacts(d: Dict, arts: seq<PeerArtifact>, append: bool, max: nat): Result<Dict, Code> {
    if arts == [] then Ok(d)
    else
      var sofar := AddArtifacts(d, arts[..|arts| - 1], append, max);
      if sofar.Err? then sofar else AddArtifact(sofar.value, arts[|arts| - 1], |arts| - 1, append, max)
  }

  function JoinTexts(arts: seq<PeerArtifact>, shape: Shape): string {
    if arts == [] then ""
    else
      var sofar, last := JoinTexts(arts[..|arts| - 1], shape), shape.textOf(arts[|arts| - 1]);
      if last == "" then sofar else if sofar == "" then last else sofar + "\n" + last
  }

  datatype Acc = Acc(artifacts: Dict, handle: Option<string>, results: seq<TaskResult>, failure: Option<Code>)

  const START := Acc([], None, [], None)

  /** One event: the handle check, the artifact fold, the size check, the yield. */
  function OnEvent(acc: Acc, e: PeerEvent, shape: Shape): Acc {
    if acc.failure.Some? || e.Unparsed? then acc
    else if e.taskId == "" || (acc.handle.Some? && acc.handle.value != e.taskId) then acc.(failure := Some(PeerHandleConflict))
    else
      var base := if e.task && e.artifacts != [] then [] else acc.artifacts;
      var d := AddArtifacts(base, e.artifacts, e.append, shape.max);
      if d.Err? then acc.(handle := Some(e.taskId), failure := Some(d.error))
      else if shape.measure(Values(d.value), e.text) > shape.max then
        acc.(artifacts := d.value, handle := Some(e.taskId), failure := Some(ResultTooLarge))
      else
        var joined := JoinTexts(Values(d.value), shape);
        Acc(d.value, Some(e.taskId),
            acc.results + [TaskResult(e.taskId, e.state, if joined != "" then joined else e.text, Values(d.value))], None)
  }

  function Run(events: seq<PeerEvent>, shape: Shape): Acc {
    if events == [] then START else OnEvent(Run(events[..|events| - 1], shape), events[|events| - 1], shape)
  }

  // ---------------------------------------------------------------- the loops

  /** The inner loop over the parts of an appended artifact. */
  method ExtendParts(previous: seq<Part>, more: seq<Part>, max: nat) returns (r: Result<seq<Part>, Code>)
    ensures r == AppendParts(previous, more, max)
  {
    var parts := previous;
    var i := 0;
    while i < |more|
      invariant i <= |more| && AppendParts(previous, more[..i], max) == Ok(parts)
    {
      var part := more[i];
      assert more[..i + 1][..i] == more[..i];
      assert AppendParts(previous, more[..i + 1], max) == AppendPart(parts, part, max);
      i := i + 1;
      if parts != [] && !part.Junk? && !parts[|parts| - 1].Junk? {
        var n, prior := |parts| - 1, parts[|parts| - 1];
        if prior.text.Some? && part.text.Some? {
          parts := parts[..n] + [Part(Some(prior.text.value + part.text.value), Override(prior.raw, part.raw), prior.fields + part.fields)];
          continue;
        }
        if prior.raw.Some? && part.raw.Some? {
          if |prior.raw.value| + |part.raw.value| > max {
            PartsStop(previous, more, i, max);
            return Err(ResultTooLarge);
          }
          var a, b := Decode(prior.raw.value), Decode(part.raw.value);
          if a.None? || b.None? {
            PartsStop(previous, more, i, max);
            return Err(InvalidPeerArtifact);
          }
          parts := parts[..n] + [Part(Override(prior.text, part.text), Some(Encode(a.value + b.value)), prior.fields + part.fields)];
          continue;
        }
      }
      parts := parts + [part];
    }
    assert more[..i] == more;
    r := Ok(parts);
  }

  lemma {:induction false} PartsStop(previous: seq<Part>, more: seq<Part>, n: nat, max: nat)
    requires n <= |more| && AppendParts(previous, more[..n], max).Err?
    ensures AppendParts(previous, more, max) == AppendParts(previous, more[..n], max)
    decreases |more| - n
  {
    if n < |more| {
      assert more[..n + 1][..n] == more[..n];
      PartsStop(previous, more, n + 1, max);
    } else {
      assert more[..n] == more;
    }
  }

  /** The loop over the artifacts of one event. */
  method Accumulate(start: Dict, arts: seq<PeerArtifact>, append: bool, max: nat) returns (r: Result<Dict, Code>)
    ensures r == AddArtifacts(start, arts, append, max)
  {
    var artifacts := start;
    var i := 0;
    while i < |arts|
      invariant i <= |arts| && AddArtifacts(start, arts[..i], append, max) == Ok(artifacts)
    {
      var artifact := arts[i];
      assert arts[..i + 1][..i] == arts[..i];
      assert AddArtifacts(start, arts[..i + 1], append, max) == AddArtifact(artifacts, artifact, i, append, max);
      var identity := KeyOf(artifact, i);
      var previous := Lookup(artifacts, identity);
      if append && previous.Some? {
        var parts := ExtendParts(previous.value.parts, artifact.parts, max);
        if parts.Err? {
          ArtifactsStop(start, arts, i + 1, append, max);
          return Err(parts.error);
        }
        artifact := PeerArtifact(Override(previous.value.id, artifact.id), parts.value, previous.value.fields + artifact.fields);
      }
      artifacts := Put(artifacts, identity, artifact);
      i := i + 1;
    }
    assert arts[..i] == arts;
    r := Ok(artifacts);
  }

  lemma {:induction false} ArtifactsStop(start: Dict, arts: seq<PeerArtifact>, n: nat, append: bool, max: nat)
    requires n <= |arts| && AddArtifacts(start, arts[..n], append, max).Err?
    ensures AddArtifacts(start, arts, append, max) == AddArtifacts(start, arts[..n], append, max)
    decreases |arts| - n
  {
    if n < |arts| {
      assert arts[..n + 1][..n] == arts[..n];
      ArtifactsStop(start, arts, n + 1, append, max);
    } else {
      assert arts[..n] == arts;
    }
  }

  /** The generator: what it yields and how it fails.  All results of a stream share one non-empty handle. */
  method Submit(events: seq<PeerEvent>, shape: Shape) returns (results: seq<TaskResult>, failure: Option<Code>)
    ensures results == Run(events, shape).results && failure == Run(events, shape).failure
    ensures forall y :: y in results ==> y.taskId != "" && y.taskId == results[0].taskId
  {
    hide AddArtifacts, Values, JoinTexts;
    var artifacts: Dict := [];
    var handle: Option<string> := None;
    results, failure := [], None;
    var i := 0;
    while i < |events| && failure.None?
      invariant i <= |events| && Run(events[..i], shape) == Acc(artifacts, handle, results, failure)
      invariant handle.Some? ==> handle.value != ""
      invariant forall y :: y in results ==> handle == Some(y.taskId)
    {
      var e := events[i];
      assert events[..i + 1][..i] == events[..i];
      i := i + 1;
      if e.Unparsed? { continue; }
      if e.taskId == "" || (handle.Some? && handle.value != e.taskId) {
        failure := Some(PeerHandleConflict);
        break;
      }
      handle := Some(e.taskId);
      var start := if e.task && e.artifacts != [] then [] else artifacts;
      var folded := Accumulate(start, e.artifacts, e.append, shape.max);
      if folded.Err? {
        failure := Some(folded.error);
        break;
      }
      artifacts := folded.value;
      var retained := Values(artifacts);
      if shape.measure(retained, e.text) > shape.max {
        failure := Some(ResultTooLarge);
        break;
      }
      var joined := JoinTexts(retained, shape);
      results := results + [TaskResult(e.taskId, e.state, if joined != "" then joined else e.text, retained)];
    }
    RunStops(events, i, shape);
  }

  lemma {:induction false} RunStops(events: seq<PeerEvent>, n: nat, shape: Shape)
    requires n <= |events| && (n == |events| || Run(events[..n], shape).failure.Some?)
    ensures Run(events, shape) == Run(events[..n], shape)
    decreases |events| - n
  {
    if n < |events| {
      assert events[..n + 1][..n] == events[..n];
      RunStops(events, n + 1, shape);
    } else {
      assert events[..n] == events;
    }
  }

  // ---------------------------------------------------------------- chunks keep their content

  /** What a chunk carries. */
  datatype Content = Bytes(bytes: seq<byte>) | Words(words: string)

  function PartOf(c: Content, fields: map<string, string>): Part {
    match c
    case Bytes(b) => Part(None, Some(Encode(b)), fields)
    case Words(w) => Part(Some(w), None, fields)
  }

  function Cat(c: Content, d: Content): Content
    requires c.Bytes? == d.Bytes?
  {
    if c.Bytes? then Bytes(c.bytes + d.bytes) else Words(c.words + d.words)
  }

  /** Appending a chunk joins the contents and overrides the fields, or reports the size limit, and nothing else. */
  lemma JoinExact(c: Content, f: map<string, string>, d: Content, g: map<string, string>, max: nat)
    requires c.Bytes? == d.Bytes?
    ensures AppendParts([PartOf(c, f)], [PartOf(d, g)], max)
         == if c.Bytes? && |Encode(c.bytes)| + |Encode(d.bytes)| > max then Err(ResultTooLarge)
            else Ok([PartOf(Cat(c, d), f + g)])
  {
    var p, q := PartOf(c, f), PartOf(d, g);
    assert [q][..0] == [] && AppendParts([p], [q], max) == AppendPart([p], q, max);
    assert [p][..0] + [PartOf(Cat(c, d), f + g)] == [PartOf(Cat(c, d), f + g)];
    if c.Bytes? {
      RoundTrip(c.bytes);
      RoundTrip(d.bytes);
    }
  }

  lemma {:induction false} PutLooked(d: Dict, key: string, a: PeerArtifact, other: string)
    ensures Lookup(Put(d, key, a), key) == Some(a)
    ensures other != key ==> Lookup(Put(d, key, a), other) == Lookup(d, other)
  {
    if d != [] {
      var start, last := d[..|d| - 1], d[|d| - 1];
      PutLooked(start, key, a, other);
      assert Put(d, key, a)[..|Put(d, key, a)| - 1]
          == if last.0 == key then start else if Lookup(d, key).None? then d else Put(start, key, a);
    }
  }

  /** An event of the stream: a chunk of the artifact in question, with its own part and artifact fields, or any event
      about other artifacts. */
  datatype Item =
    | Chunk(content: Content, fields: map<string, string>, about: map<string, string>, append: bool, state: string, text: string)
    | Foreign(event: PeerEvent)

  function EventOf(item: Item, handle: string, key: string): PeerEvent {
    match item
    case Foreign(e) => e
    case Chunk(c, fields, about, append, state, text) =>
      PeerEvent(handle, state, text, [PeerArtifact(Some(key), [PartOf(c, fields)], about)], false, append)
  }

  function EventsOf(script: seq<Item>, handle: string, key: string): seq<PeerEvent> {
    seq(|script|, i requires 0 <= i < |script| => EventOf(script[i], handle, key))
  }

  predicate LeavesAlone(e: PeerEvent, key: string) {
    e.Unparsed? || (!(e.task && e.artifacts != []) && forall i :: 0 <= i < |e.artifacts| ==> KeyOf(e.artifacts[i], i) != key)
  }

  /** What the chunks amount to: one content, and the fields with later ones overriding. */
  datatype Sum = Sum(content: Content, fields: map<string, string>, about: map<string, string>)

  function Extended(sofar: Option<Sum>, item: Item): Sum
    requires item.Chunk? && (sofar.Some? ==> sofar.value.content.Bytes? == item.content.Bytes?)
  {
    if sofar.None? then Sum(item.content, item.fields, item.about)
    else Sum(Cat(sofar.value.content, item.content), sofar.value.fields + item.fields, sofar.value.about + item.about)
  }

  /** The chunks of a script, joined; `None` before the first one. */
  function Joined(script: seq<Item>, binary: bool): Option<Sum>
    requires forall x :: x in script && x.Chunk? ==> x.content.Bytes? == binary
    ensures Joined(script, binary).Some? ==> Joined(script, binary).value.content.Bytes? == binary
  {
    if script == [] then None
    else
      var sofar, last := Joined(script[..|script| - 1], binary), script[|script| - 1];
      if last.Foreign? then sofar else Some(Extended(sofar, last))
  }

  /** Every chunk appends, except that the first may also start the artifact. */
  predicate Appending(script: seq<Item>) {
    forall i, j :: 0 <= i < j < |script| && script[i].Chunk? && script[j].Chunk? ==> script[j].append
  }

  predicate ScriptOk(script: seq<Item>, key: string, binary: bool) {
    && Appending(script)
    && (forall x :: x in script && x.Chunk? ==> x.content.Bytes? == binary)
    && (forall x :: x in script && x.Foreign? ==> LeavesAlone(x.event, key))
  }

  function Stored(key: string, s: Sum): PeerArtifact {
    PeerArtifact(Some(key), [PartOf(s.content, s.fields)], s.about)
  }

  function Whole(script: seq<Item>, key: string, binary: bool): Option<PeerArtifact>
    requires ScriptOk(script, key, binary)
  {
    var s := Joined(script, binary);
    if s.None? then None else Some(Stored(key, s.value))
  }

  lemma {:induction false} AddForeign(d: Dict, arts: seq<PeerArtifact>, append: bool, max: nat, key: string)
    requires forall i :: 0 <= i < |arts| ==> KeyOf(arts[i], i) != key
    ensures var r := AddArtifacts(d, arts, append, max); r.Ok? ==> Lookup(r.value, key) == Lookup(d, key)
  {
    hide AppendParts, Put, Lookup, KeyOf;
    if arts != [] {
      var start, last := arts[..|arts| - 1], arts[|arts| - 1];
      AddForeign(d, start, append, max, key);
      var sofar := AddArtifacts(d, start, append, max);
      var r := AddArtifacts(d, arts, append, max);
      if r.Ok? {
        var k := KeyOf(last, |arts| - 1);
        var stored :| r.value == Put(sofar.value, k, stored);
        PutLooked(sofar.value, k, stored, key);
      }
    }
  }

  lemma AddChunk(d: Dict, item: Item, max: nat, key: string, sofar: Option<Sum>)
    requires key != "" && item.Chunk?
    requires sofar.Some? ==> sofar.value.content.Bytes? == item.content.Bytes? && item.append
    requires Lookup(d, key) == if sofar.None? then None else Some(Stored(key, sofar.value))
    ensures var r := AddArtifacts(d, [PeerArtifact(Some(key), [PartOf(item.content, item.fields)], item.about)], item.append, max);
      && (r.Err? ==> r.error == ResultTooLarge)
      && (r.Ok? ==> r.value == Put(d, key, Stored(key, Extended(sofar, item))))
  {
    hide PartOf, AppendParts, Put, Lookup;
    var a := PeerArtifact(Some(key), [PartOf(item.content, item.fields)], item.about);
    assert [a][..0] == [] && AddArtifacts(d, [a], item.append, max) == AddArtifact(d, a, 0, item.append, max);
    if sofar.Some? { JoinExact(sofar.value.content, sofar.value.fields, item.content, item.fields, max); }
  }

  lemma ForeignStep(acc: Acc, e: PeerEvent, key: string, shape: Shape)
    requires LeavesAlone(e, key)
    ensures var r := OnEvent(acc, e, shape);
      r.failure.None? ==> acc.failure.None? && Lookup(r.artifacts, key) == Lookup(acc.artifacts, key)
  {
    hide AddArtifacts, Values, JoinTexts, Lookup, KeyOf;
    if e.PeerEvent? { AddForeign(acc.artifacts, e.artifacts, e.append, shape.max, key); }
  }

  /** Nothing but the size limit has gone wrong, and the stream has kept its handle. */
  predicate OnlyTooLarge(acc: Acc, handle: string) {
    (acc.handle.Some? ==> acc.handle.value == handle) && (acc.failure.Some? ==> acc.failure.value == ResultTooLarge)
  }

  lemma ChunkStep(acc: Acc, item: Item, handle: string, key: string, sofar: Option<Sum>, shape: Shape)
    requires key != "" && handle != "" && item.Chunk?
    requires sofar.Some? ==> sofar.value.content.Bytes? == item.content.Bytes? && item.append
    requires acc.failure.None? ==> Lookup(acc.artifacts, key) == if sofar.None? then None else Some(Stored(key, sofar.value))
    ensures var r := OnEvent(acc, EventOf(item, handle, key), shape);
      && (r.failure.None? ==> r.artifacts == Put(acc.artifacts, key, Stored(key, Extended(sofar, item))))
      && (r.failure.None? ==> Lookup(r.artifacts, key) == Some(Stored(key, Extended(sofar, item))))
      && (OnlyTooLarge(acc, handle) ==> OnlyTooLarge(r, handle))
  {
    hide AddArtifacts, Values, JoinTexts, Lookup, PartOf, Cat, Put;
    if acc.failure.None? {
      AddChunk(acc.artifacts, item, shape.max, key, sofar);
      PutLooked(acc.artifacts, key, Stored(key, Extended(sofar, item)), key);
    }
  }

  lemma ScriptStart(script: seq<Item>, key: string, binary: bool)
    requires script != [] && ScriptOk(script, key, binary)
    ensures ScriptOk(script[..|script| - 1], key, binary)
    ensures var last := script[|script| - 1];
      && (last.Foreign? ==> LeavesAlone(last.event, key))
      && (last.Chunk? ==> last.content.Bytes? == binary)
  {
    hide LeavesAlone;
    assert script[|script| - 1] in script;
    assert forall x :: x in script[..|script| - 1] ==> x in script;
  }

  lemma {:induction false} JoinedSome(script: seq<Item>, key: string, binary: bool)
    requires ScriptOk(script, key, binary)
    ensures Joined(script, binary).Some? ==> exists i :: 0 <= i < |script| && script[i].Chunk?
  {
    if script != [] {
      hide LeavesAlone;
      ScriptStart(script, key, binary);
      JoinedSome(script[..|script| - 1], key, binary);
      assert script[|script| - 1].Chunk? || forall i :: 0 <= i < |script| - 1 ==> script[i] == script[..|script| - 1][i];
    }
  }

  lemma LastAppends(script: seq<Item>, key: string, binary: bool)
    requires script != [] && ScriptOk(script, key, binary) && ScriptOk(script[..|script| - 1], key, binary)
    requires script[|script| - 1].Chunk? && Joined(script[..|script| - 1], binary).Some?
    ensures script[|script| - 1].append
  {
    var start := script[..|script| - 1];
    JoinedSome(start, key, binary);
    var i :| 0 <= i < |start| && start[i].Chunk?;
    assert script[i].Chunk?;
  }

  /** The accumulator after every prefix of the stream. */
  lemma {:induction false} ChunksGathered(script: seq<Item>, handle: string, key: string, binary: bool, shape: Shape)
    requires key != "" && handle != "" && ScriptOk(script, key, binary)
    ensures var acc := Run(EventsOf(script, handle, key), shape);
      && (acc.failure.None? ==> Lookup(acc.artifacts, key) == Whole(script, key, binary))
      && ((forall x :: x in script ==> x.Chunk?) ==> OnlyTooLarge(acc, handle))
  {
    var events := EventsOf(script, handle, key);
    if script != [] {
      var start, last := script[..|script| - 1], script[|script| - 1];
      assert events[..|events| - 1] == EventsOf(start, handle, key);
      ScriptStart(script, key, binary);
      ChunksGathered(start, handle, key, binary, shape);
      var acc := Run(EventsOf(start, handle, key), shape);
      assert Run(events, shape) == OnEvent(acc, EventOf(last, handle, key), shape);
      if last.Chunk? && Joined(start, binary).Some? { LastAppends(script, key, binary); }
      hide Run, OnEvent, LeavesAlone, Lookup, EventsOf, PartOf, Put;
      if last.Foreign? {
        ForeignStep(acc, last.event, key, shape);
        assert last in script;
      } else {
        ChunkStep(acc, last, handle, key, Joined(start, binary), shape);
      }
    }
  }

  /** What is yielded for an event is the accumulated artifacts. */
  lemma Yielded(events: seq<PeerEvent>, shape: Shape)
    requires events != [] && events[|events| - 1].PeerEvent? && Run(events, shape).failure.None?
    ensures var acc := Run(events, shape);
      acc.results != [] && acc.results[|acc.results| - 1].artifacts == Values(acc.artifacts)
      && acc.results[|acc.results| - 1].taskId == events[|events| - 1].taskId
  {
    hide AddArtifacts, JoinTexts, Values;
  }

  lemma {:induction false} Position(d: Dict, key: string) returns (i: nat)
    requires Lookup(d, key).Some?
    ensures i < |d| && d[i].0 == key && d[i].1 == Lookup(d, key).value
  {
    if d[|d| - 1].0 == key {
      i := |d| - 1;
    } else {
      i := Position(d[..|d| - 1], key);
    }
  }

  /** However a content is cut into chunks, and whatever other events fall between or after them: every result yielded
      once the chunks have begun carries the artifact as one part with the whole content so far; and chunks by
      themselves fail only on the size limit. */
  lemma ChunksPreserved(script: seq<Item>, handle: string, key: string, binary: bool, shape: Shape)
    requires key != "" && handle != "" && ScriptOk(script, key, binary)
    requires script != [] && EventOf(script[|script| - 1], handle, key).PeerEvent? && Joined(script, binary).Some?
    ensures var acc := Run(EventsOf(script, handle, key), shape);
      && (acc.failure.None? ==>
            && acc.results != []
            && acc.results[|acc.results| - 1].taskId == EventOf(script[|script| - 1], handle, key).taskId
            && Stored(key, Joined(script, binary).value) in acc.results[|acc.results| - 1].artifacts)
      && ((forall x :: x in script ==> x.Chunk?) ==> OnlyTooLarge(acc, handle))
  {
    var events := EventsOf(script, handle, key);
    ChunksGathered(script, handle, key, binary, shape);
    var acc := Run(events, shape);
    if acc.failure.None? {
      Yielded(events, shape);
      hide Run, Stored, EventsOf;
      var i := Position(acc.artifacts, key);
      assert Values(acc.artifacts)[i] == Stored(key, Joined(script, binary).value);
    }
  }

  /** The binary case, decoded: the one part of the yielded artifact is the whole byte string. */
  lemma BytesPreserved(script: seq<Item>, handle: string, key: string, shape: Shape) returns (a: PeerArtifact)
    requires key != "" && handle != "" && ScriptOk(script, key, true)
    requires script != [] && EventOf(script[|script| - 1], handle, key).PeerEvent? && Joined(script, true).Some?
    requires Run(EventsOf(script, handle, key), shape).failure.None?
    ensures var acc := Run(EventsOf(script, handle, key), shape);
      && acc.results != [] && a in acc.results[|acc.results| - 1].artifacts
      && a.id == Some(key) && |a.parts| == 1 && a.parts[0].Part? && a.parts[0].raw.Some?
      && Decode(a.parts[0].raw.value) == Some(Joined(script, true).value.content.bytes)
  {
    ChunksPreserved(script, handle, key, true, shape);
    hide Run, EventsOf;
    RoundTrip(Joined(script, true).value.content.bytes);
    a := Stored(key, Joined(script, true).value);
  }
}
