/** `TaskStore`: in-memory tasks with watchers, and trimming that never loses a watcher. */
module TaskStore {
  import opened Common

  datatype State = Submitted | Working | InputRequired | Completed | Failed | Canceled | Rejected

  /** `TERMINAL_STATES`; input-required is not one of them. */
  predicate Terminal(s: State) {
    s.Completed? || s.Failed? || s.Canceled? || s.Rejected?
  }

  datatype Rec = Rec(id: string, slug: string, tenant: string, state: State, reply: string, created: int)

  const MAX_TERMINAL := 500

  // ---------------------------------------------------------------- the ordered dictionary

  predicate Unique(tasks: seq<Rec>) {
    forall i, j :: 0 <= i < j < |tasks| ==> tasks[i].id != tasks[j].id
  }

  predicate Has(tasks: seq<Rec>, id: string) {
    exists i :: 0 <= i < |tasks| && tasks[i].id == id
  }

  predicate HasLive(tasks: seq<Rec>, id: string) {
    exists i :: 0 <= i < |tasks| && tasks[i].id == id && !Terminal(tasks[i].state)
  }

  function Terminals(tasks: seq<Rec>): nat {
    if tasks == [] then 0 else (if Terminal(tasks[0].state) then 1 else 0) + Terminals(tasks[1..])
  }

  /** Remove the first `n` terminal records, keeping everything else in place. */
  function DropTerminals(tasks: seq<Rec>, n: nat): seq<Rec> {
    if n == 0 || tasks == [] then tasks
    else if Terminal(tasks[0].state) then DropTerminals(tasks[1..], n - 1)
    else [tasks[0]] + DropTerminals(tasks[1..], n)
  }

  function Live(tasks: seq<Rec>): seq<Rec> {
    if tasks == [] then [] else (if Terminal(tasks[0].state) then [] else [tasks[0]]) + Live(tasks[1..])
  }

  function Trimmed(tasks: seq<Rec>): seq<Rec> {
    DropTerminals(tasks, Max(0, Terminals(tasks) - MAX_TERMINAL))
  }

  /** Trimming removes terminal records only, and the oldest of them: what is left is the live records of some
      prefix followed by the untouched rest. */
  lemma {:induction false} DropsOldest(tasks: seq<Rec>, n: nat) returns (cut: nat)
    ensures cut <= |tasks| && DropTerminals(tasks, n) == Live(tasks[..cut]) + tasks[cut..]
    ensures Terminals(tasks[..cut]) == Min(n, Terminals(tasks))
  {
    if n == 0 || tasks == [] {
      cut := 0;
    } else {
      var rest := DropsOldest(tasks[1..], if Terminal(tasks[0].state) then n - 1 else n);
      cut := rest + 1;
      assert tasks[..cut][1..] == tasks[1..][..rest] && tasks[cut..] == tasks[1..][rest..];
    }
  }

  lemma {:induction false} DropCount(tasks: seq<Rec>, n: nat)
    ensures Terminals(DropTerminals(tasks, n)) == Max(0, Terminals(tasks) - n)
  {
    if n != 0 && tasks != [] {
      if Terminal(tasks[0].state) {
        DropCount(tasks[1..], n - 1);
      } else {
        DropCount(tasks[1..], n);
        assert ([tasks[0]] + DropTerminals(tasks[1..], n))[1..] == DropTerminals(tasks[1..], n);
      }
    }
  }

  lemma {:induction false} DropKeeps(tasks: seq<Rec>, n: nat)
    requires Unique(tasks)
    ensures Unique(DropTerminals(tasks, n))
    ensures forall r :: r in DropTerminals(tasks, n) ==> r in tasks
    ensures forall r :: r in tasks && !Terminal(r.state) ==> r in DropTerminals(tasks, n)
  {
    if n != 0 && tasks != [] {
      var head, rest := tasks[0], tasks[1..];
      assert tasks == [head] + rest;
      DropKeeps(rest, if Terminal(head.state) then n - 1 else n);
      var kept := DropTerminals(rest, if Terminal(head.state) then n - 1 else n);
      assert forall r :: r in rest ==> r.id != head.id;
      assert forall i :: 0 <= i < |kept| ==> kept[i] in rest;
    }
  }

  /** A trimmed store keeps its live records and at most 500 terminal ones. */
  lemma TrimKeeps(tasks: seq<Rec>)
    requires Unique(tasks)
    ensures Unique(Trimmed(tasks)) && Terminals(Trimmed(tasks)) <= MAX_TERMINAL
    ensures forall r :: r in Trimmed(tasks) ==> r in tasks
    ensures forall id :: HasLive(tasks, id) <==> HasLive(Trimmed(tasks), id)
  {
    var n := Max(0, Terminals(tasks) - MAX_TERMINAL);
    DropCount(tasks, n);
    DropKeeps(tasks, n);
    forall id ensures HasLive(tasks, id) <==> HasLive(Trimmed(tasks), id) {
      if HasLive(tasks, id) {
        var i :| 0 <= i < |tasks| && tasks[i].id == id && !Terminal(tasks[i].state);
        assert tasks[i] in Trimmed(tasks);
      }
      if HasLive(Trimmed(tasks), id) {
        var i :| 0 <= i < |Trimmed(tasks)| && Trimmed(tasks)[i].id == id && !Terminal(Trimmed(tasks)[i].state);
        assert Trimmed(tasks)[i] in tasks;
      }
    }
  }

  // ---------------------------------------------------------------- the store

  predicate Watched(tasks: seq<Rec>, watchers: map<string, seq<nat>>) {
    forall id :: id in watchers ==> HasLive(tasks, id)
  }

  predicate Accounted(f: nat, resolved: map<nat, (State, string)>, watchers: map<string, seq<nat>>) {
    f in resolved || exists id :: id in watchers && f in watchers[id]
  }

  /** Only futures that were handed out are registered or resolved. */
  predicate Numbered(watchers: map<string, seq<nat>>, resolved: map<nat, (State, string)>, handedOut: nat) {
    && (forall f :: f in resolved ==> f < handedOut)
    && (forall id :: id in watchers ==> forall f :: f in watchers[id] ==> f < handedOut)
  }

  ghost predicate StoreOk(tasks: seq<Rec>, watchers: map<string, seq<nat>>, resolved: map<nat, (State, string)>, handedOut: nat) {
    && Unique(tasks) && Watched(tasks, watchers) && Numbered(watchers, resolved, handedOut)
    && forall f :: 0 <= f < handedOut ==> Accounted(f, resolved, watchers)
  }

  /** The calls the adapter makes; it sets no state but working this way. */
  datatype Call =
    | Creates(id: string, slug: string, tenant: string, at: int)
    | SetsWorking(id: string)
    | Completes(id: string, state: State, reply: string)
    | Watches(id: string, slug: string, tenant: string)
    | FailsOrphans(timeout: int, exclude: set<string>, at: int)

  /** The calls create no id that is already there. */
  predicate FreshIds(calls: seq<Call>, tasks: seq<Rec>) {
    forall i :: 0 <= i < |calls| && calls[i].Creates? ==> !Has(tasks, calls[i].id)
  }

  /** Every record in `b` whose id had a terminal record in `a` is that record. */
  predicate TerminalsKept(a: seq<Rec>, b: seq<Rec>) {
    forall x, y :: x in a && y in b && x.id == y.id && Terminal(x.state) ==> y == x
  }

  /** Every record in `b` comes from `a` unchanged, from a live record of its id, or was created as `id`. */
  predicate ComesFrom(a: seq<Rec>, b: seq<Rec>, id: Option<string>) {
    forall y :: y in b ==> y in a || HasLive(a, y.id) || id == Some(y.id)
  }

  lemma KeptOn(first: seq<Rec>, a: seq<Rec>, b: seq<Rec>, id: Option<string>)
    requires TerminalsKept(first, a) && Unique(a) && ComesFrom(a, b, id) && (id.Some? ==> !Has(first, id.value))
    ensures TerminalsKept(first, b)
  {
    forall x, y | x in first && y in b && x.id == y.id && Terminal(x.state) ensures y == x {
      assert Has(first, x.id) by { IsThere(first, x); }
      if HasLive(a, y.id) { OnlyLive(a, y.id); }
    }
  }

  lemma IsThere(tasks: seq<Rec>, x: Rec)
    requires x in tasks
    ensures Has(tasks, x.id)
  {
  }

  lemma OnlyLive(tasks: seq<Rec>, id: string)
    requires HasLive(tasks, id)
    ensures exists r :: r in tasks && r.id == id && !Terminal(r.state)
  {
    var i :| 0 <= i < |tasks| && tasks[i].id == id && !Terminal(tasks[i].state);
    assert tasks[i] in tasks;
  }

  class TaskStore {
    var tasks: seq<Rec>
    var watchers: map<string, seq<nat>>
    var resolved: map<nat, (State, string)>   // futures that have a result
    var handedOut: nat                        // futures are numbered 0, 1, ...

    /** Every future handed out is resolved, or registered under a task that is present and not terminal. */
    ghost predicate Valid()
      reads this
    {
      StoreOk(tasks, watchers, resolved, handedOut)
    }

    constructor ()
      ensures Valid() && tasks == [] && handedOut == 0
    {
      tasks, watchers, resolved, handedOut := [], map[], map[], 0;
    }

    method IndexOf(id: string) returns (i: nat)
      ensures i <= |tasks| && (i < |tasks| ==> tasks[i].id == id) && (i == |tasks| ==> !Has(tasks, id))
    {
      i := 0;
      while i < |tasks| && tasks[i].id != id
        invariant i <= |tasks| && forall j :: 0 <= j < i ==> tasks[j].id != id
      {
        i := i + 1;
      }
    }

    method Create(id: string, slug: string, tenant: string, now: int)
      requires Valid()
      modifies this`tasks
      ensures Valid()
      ensures !Has(old(tasks), id) ==> tasks == old(tasks) + [Rec(id, slug, tenant, Submitted, "", now)]
      ensures Has(old(tasks), id) ==> |tasks| == |old(tasks)| && forall i :: 0 <= i < |tasks| ==>
        tasks[i] == if old(tasks)[i].id == id then Rec(id, slug, tenant, Submitted, "", now) else old(tasks)[i]
    {
      var rec := Rec(id, slug, tenant, Submitted, "", now);
      var i := IndexOf(id);
      if i == |tasks| {
        tasks := tasks + [rec];
      } else {
        tasks := tasks[i := rec];
      }
      LiveStays(old(tasks), tasks, watchers.Keys, id);
    }

    /** Changing the state keeps the store valid, except when a watched task is made terminal without being
        completed: nothing would ever resolve its watchers. */
    method SetState(id: string, state: State)
      requires Valid()
      modifies this`tasks
      ensures Valid() <==> !(Terminal(state) && id in watchers)
      ensures |tasks| == |old(tasks)| && forall i :: 0 <= i < |tasks| ==>
        tasks[i] == if old(tasks)[i].id == id && !Terminal(old(tasks)[i].state) then old(tasks)[i].(state := state) else old(tasks)[i]
    {
      var i := IndexOf(id);
      if i < |tasks| && !Terminal(tasks[i].state) {
        tasks := tasks[i := tasks[i].(state := state)];
        LiveStays(old(tasks), tasks, watchers.Keys - {id}, id);
        if !Terminal(state) { assert tasks[i].id == id; assert HasLive(tasks, id); }
      }
    }

    /** `_trim_locked`: list the terminal ids in order and pop the oldest beyond the limit. */
    method Trim()
      modifies this`tasks
      ensures tasks == Trimmed(old(tasks))
    {
      var terminal := 0;
      var i := 0;
      while i < |tasks|
        invariant i <= |tasks| && terminal + Terminals(tasks[i..]) == Terminals(tasks)
      {
        assert tasks[i..][1..] == tasks[i + 1..];
        if Terminal(tasks[i].state) { terminal := terminal + 1; }
        i := i + 1;
      }
      var excess := if terminal > MAX_TERMINAL then terminal - MAX_TERMINAL else 0;
      var kept := [];
      i := 0;
      while i < |tasks| && excess > 0
        invariant i <= |tasks| && tasks == old(tasks) && 0 <= excess
        invariant Trimmed(tasks) == kept + DropTerminals(tasks[i..], excess)
      {
        assert tasks[i..][1..] == tasks[i + 1..];
        if Terminal(tasks[i].state) { excess := excess - 1; } else { kept := kept + [tasks[i]]; }
        i := i + 1;
      }
      tasks := kept + tasks[i..];
    }

    method Resolve(futures: seq<nat>, state: State, reply: string)
      modifies this`resolved
      ensures forall f :: f in old(resolved) ==> f in resolved && resolved[f] == old(resolved)[f]
      ensures forall f :: f in resolved && f !in old(resolved) ==> resolved[f] == (state, reply)
      ensures forall f :: f in futures ==> f in resolved
      ensures forall f :: f in resolved && f !in old(resolved) ==> f in futures
    {
      var j := 0;
      while j < |futures|
        invariant j <= |futures|
        invariant forall f :: f in old(resolved) ==> f in resolved && resolved[f] == old(resolved)[f]
        invariant forall f :: f in resolved && f !in old(resolved) ==> resolved[f] == (state, reply)
        invariant forall k :: 0 <= k < j ==> futures[k] in resolved
        invariant forall f :: f in resolved && f !in old(resolved) ==> f in futures
      {
        if futures[j] !in resolved { resolved := resolved[futures[j] := (state, reply)]; }
        j := j + 1;
      }
    }

    /** A live task reaches its end: its watchers are resolved with exactly this outcome and the store is trimmed.
        A missing or terminal task is left alone, so a terminal record's state and reply never change. */
    method Complete(id: string, state: State, reply: string) returns (out: Option<Rec>)
      requires Valid()
      modifies this`tasks, this`watchers, this`resolved
      ensures Valid()
      ensures out.Some? <==> HasLive(old(tasks), id)
      ensures out.None? ==> tasks == old(tasks) && watchers == old(watchers) && resolved == old(resolved)
      ensures out.Some? ==>
        && out.value.id == id && out.value.state == state && out.value.reply == reply
        && watchers == old(watchers) - {id} && Terminals(tasks) <= MAX_TERMINAL
        && (forall r :: r in tasks ==> r == out.value || (r in old(tasks) && r.id != id))
        && (forall other :: other != id ==> (HasLive(tasks, other) <==> HasLive(old(tasks), other)))
      ensures forall f :: f in old(resolved) ==> f in resolved && resolved[f] == old(resolved)[f]
      ensures forall f :: f in resolved && f !in old(resolved) ==> resolved[f] == (state, reply)
    {
      var i := IndexOf(id);
      UniqueIndex(tasks, id, i);
      hide Has, HasLive, Trimmed, Terminals, Unique, Accounted, Numbered;
      if i == |tasks| || Terminal(tasks[i].state) { return None; }
      var rec := tasks[i].(state := state, reply := reply);
      CompletedRecords(tasks, i, rec);
      tasks := tasks[i := rec];
      var futures := if id in watchers then watchers[id] else [];
      watchers := watchers - {id};
      Trim();
      Resolve(futures, state, reply);
      StillNumbered(old(watchers), old(resolved), id, resolved, handedOut);
      forall f | 0 <= f < handedOut ensures Accounted(f, resolved, watchers) {
        StillAccounted(f, id, old(resolved), old(watchers), resolved);
      }
      out := Some(rec);
    }

    method Watch(id: string, slug: string, tenant: string) returns (future: Option<nat>)
      requires Valid()
      modifies this`watchers, this`resolved, this`handedOut
      ensures Valid()
      ensures future.None? ==> handedOut == old(handedOut) && watchers == old(watchers) && resolved == old(resolved)
      ensures future.Some? ==>
        && future.value == old(handedOut) && handedOut == old(handedOut) + 1
        && exists i :: 0 <= i < |tasks| && tasks[i].id == id && InScope(tasks[i], slug, tenant)
             && if Terminal(tasks[i].state)
                then resolved == old(resolved)[future.value := (tasks[i].state, tasks[i].reply)] && watchers == old(watchers)
                else resolved == old(resolved) && id in watchers && future.value in watchers[id]
      ensures forall other :: other in old(watchers) ==> other in watchers && forall f :: f in old(watchers)[other] ==> f in watchers[other]
    {
      var i := IndexOf(id);
      if i == |tasks| || !InScope(tasks[i], slug, tenant) { return None; }
      var f := handedOut;
      handedOut := handedOut + 1;
      if Terminal(tasks[i].state) {
        resolved := resolved[f := (tasks[i].state, tasks[i].reply)];
      } else {
        var waiting := if id in watchers then watchers[id] else [];
        watchers := watchers[id := waiting + [f]];
        assert HasLive(tasks, id);
      }
      future := Some(f);
      forall g | 0 <= g < handedOut ensures Accounted(g, resolved, watchers) {
        if g == f {
          assert f in resolved || f in watchers[id];
        } else if g !in resolved {
          assert Accounted(g, old(resolved), old(watchers));
          var other :| other in old(watchers) && g in old(watchers)[other];
          assert other in watchers && g in watchers[other];
        }
      }
    }

    /** One call of the adapter. */
    method Call(c: Call)
      requires Valid()
      modifies this
      ensures Valid()
      ensures ComesFrom(old(tasks), tasks, if c.Creates? then Some(c.id) else None)
      ensures forall f :: f in old(resolved) ==> f in resolved && resolved[f] == old(resolved)[f]
      ensures handedOut >= old(handedOut)
    {
      match c
      case Creates(id, slug, tenant, at) =>
        Create(id, slug, tenant, at);
        CreatedFrom(old(tasks), tasks, id);
      case SetsWorking(id) =>
        SetState(id, Working);
        WorkingFrom(old(tasks), tasks, id);
      case Completes(id, state, reply) =>
        var _ := Complete(id, state, reply);
      case Watches(id, slug, tenant) =>
        var _ := Watch(id, slug, tenant);
      case FailsOrphans(timeout, exclude, at) =>
        var _ := FailOrphans(timeout, exclude, at);
    }

    /** Over every sequence of the adapter's calls: each future ever handed out is resolved or registered under a live
        record, a result once given stays, and a terminal record never changes unless its id is created anew. */
    method Serve(calls: seq<Call>)
      requires Valid()
      modifies this
      ensures Valid() && handedOut >= old(handedOut)
      ensures forall f :: f in old(resolved) ==> f in resolved && resolved[f] == old(resolved)[f]
      ensures FreshIds(calls, old(tasks)) ==> TerminalsKept(old(tasks), tasks)
    {
      SameTerminals(tasks);
      hide StoreOk, ComesFrom, TerminalsKept, Has;
      var i := 0;
      while i < |calls|
        invariant i <= |calls| && Valid() && handedOut >= old(handedOut)
        invariant forall f :: f in old(resolved) ==> f in resolved && resolved[f] == old(resolved)[f]
        invariant FreshIds(calls, old(tasks)) ==> TerminalsKept(old(tasks), tasks)
      {
        ghost var before := tasks;
        StoreUnique(tasks, watchers, resolved, handedOut);
        Call(calls[i]);
        if FreshIds(calls, old(tasks)) {
          KeptOn(old(tasks), before, tasks, if calls[i].Creates? then Some(calls[i].id) else None);
        }
        i := i + 1;
      }
    }

    /** The ids of the stale tasks, each once. */
    method ListStale(timeout: int, exclude: set<string>, now: int) returns (stale: seq<string>)
      requires Unique(tasks)
      ensures forall id :: id in stale <==> IsStale(tasks, id, timeout, exclude, now)
      ensures forall a, b :: 0 <= a < b < |stale| ==> stale[a] != stale[b]
    {
      stale := [];
      var i := 0;
      assert tasks[..0] == [];
      while i < |tasks|
        invariant i <= |tasks| && forall id :: id in stale <==> IsStale(tasks[..i], id, timeout, exclude, now)
        invariant forall a, b :: 0 <= a < b < |stale| ==> stale[a] != stale[b]
      {
        StaleNext(tasks, i, timeout, exclude, now);
        if Stale(tasks[i], timeout, exclude, now) { stale := stale + [tasks[i].id]; }
        i := i + 1;
      }
      assert tasks[..i] == tasks;
    }

    /** Fail every task older than the timeout that is not excluded, and report exactly those. */
    method FailOrphans(timeout: int, exclude: set<string>, now: int) returns (failed: seq<string>)
      requires Valid()
      modifies this`tasks, this`watchers, this`resolved
      ensures Valid()
      ensures forall id :: id in failed <==> IsStale(old(tasks), id, timeout, exclude, now)
      ensures forall id :: id in failed ==> !HasLive(tasks, id)
      ensures forall id :: id !in failed ==> (HasLive(tasks, id) <==> HasLive(old(tasks), id))
      ensures ComesFrom(old(tasks), tasks, None)
      ensures forall f :: f in old(resolved) ==> f in resolved && resolved[f] == old(resolved)[f]
    {
      var stale := ListStale(timeout, exclude, now);
      StaleLive(tasks, timeout, exclude, now);
      SameFrom(tasks);
      hide IsStale, HasLive, Unique, Terminals, ComesFrom;
      failed := [];
      var i := 0;
      while i < |stale|
        invariant i <= |stale| && Valid() && failed == stale[..i] && ComesFrom(old(tasks), tasks, None)
        invariant forall j :: 0 <= j < i ==> !HasLive(tasks, stale[j])
        invariant forall j :: i <= j < |stale| ==> HasLive(tasks, stale[j])
        invariant forall id :: id !in stale[..i] ==> (HasLive(tasks, id) <==> HasLive(old(tasks), id))
        invariant forall f :: f in old(resolved) ==> f in resolved && resolved[f] == old(resolved)[f]
      {
        ghost var before := tasks;
        var out := Complete(stale[i], Failed, "[task orphaned \U{2014} no reply produced]");
        FailedDead(tasks, stale[i], out.value);
        FromStep(old(tasks), before, tasks, stale[i]);
        if out.Some? { failed := failed + [stale[i]]; }
        i := i + 1;
      }
    }
  }

  lemma SameFrom(tasks: seq<Rec>)
    ensures ComesFrom(tasks, tasks, None)
  {
  }

  lemma FromStep(first: seq<Rec>, a: seq<Rec>, b: seq<Rec>, id: string)
    requires ComesFrom(first, a, None) && HasLive(a, id) && (HasLive(first, id) || !HasLive(a, id))
    requires forall y :: y in b ==> y.id == id || y in a
    ensures ComesFrom(first, b, None)
  {
    hide HasLive;
  }

  lemma StoreUnique(tasks: seq<Rec>, watchers: map<string, seq<nat>>, resolved: map<nat, (State, string)>, handedOut: nat)
    requires StoreOk(tasks, watchers, resolved, handedOut)
    ensures Unique(tasks)
  {
  }

  lemma SameTerminals(tasks: seq<Rec>)
    requires Unique(tasks)
    ensures TerminalsKept(tasks, tasks)
  {
    forall x, y | x in tasks && y in tasks && x.id == y.id ensures y == x {
      var i :| 0 <= i < |tasks| && tasks[i] == x;
      var j :| 0 <= j < |tasks| && tasks[j] == y;
      assert i == j;
    }
  }

  lemma CreatedFrom(a: seq<Rec>, b: seq<Rec>, id: string)
    requires (exists r: Rec :: r.id == id && b == a + [r]) || (|b| == |a| && forall i :: 0 <= i < |b| ==> b[i] == a[i] || b[i].id == id)
    ensures ComesFrom(a, b, Some(id))
  {
    forall y | y in b ensures y in a || Some(id) == Some(y.id) {
      var i :| 0 <= i < |b| && b[i] == y;
    }
  }

  lemma WorkingFrom(a: seq<Rec>, b: seq<Rec>, id: string)
    requires |b| == |a|
    requires forall i :: 0 <= i < |b| ==> b[i] == if a[i].id == id && !Terminal(a[i].state) then a[i].(state := Working) else a[i]
    ensures ComesFrom(a, b, None)
  {
    forall y | y in b ensures y in a || HasLive(a, y.id) {
      var i :| 0 <= i < |b| && b[i] == y;
      assert a[i] in a;
    }
  }

  /** Making a watched record terminal without completing it strands its watcher: registered under a dead record. */
  lemma StrandedWatcher()
    ensures var live := [Rec("a", "", "", Working, "", 0)]; var dead := [Rec("a", "", "", Failed, "", 0)];
      StoreOk(live, map["a" := [0]], map[], 1) && !StoreOk(dead, map["a" := [0]], map[], 1)
  {
    var live := [Rec("a", "", "", Working, "", 0)];
    var watchers: map<string, seq<nat>> := map["a" := [0]];
    assert live[0].id == "a" && HasLive(live, "a");
    assert 0 in watchers["a"] && Accounted(0, map[], watchers);
    assert "a" in watchers;
  }

  predicate InScope(rec: Rec, slug: string, tenant: string) {
    (slug == "" || rec.slug == slug) && (tenant == "" || rec.tenant == tenant)
  }

  predicate Stale(rec: Rec, timeout: int, exclude: set<string>, now: int) {
    rec.id !in exclude && !Terminal(rec.state) && now - rec.created > timeout
  }

  predicate IsStale(tasks: seq<Rec>, id: string, timeout: int, exclude: set<string>, now: int) {
    exists i :: 0 <= i < |tasks| && tasks[i].id == id && Stale(tasks[i], timeout, exclude, now)
  }

  lemma StaleNext(tasks: seq<Rec>, n: nat, timeout: int, exclude: set<string>, now: int)
    requires Unique(tasks) && n < |tasks|
    ensures forall id ::
      (IsStale(tasks[..n + 1], id, timeout, exclude, now)
       <==> IsStale(tasks[..n], id, timeout, exclude, now) || (id == tasks[n].id && Stale(tasks[n], timeout, exclude, now)))
    ensures !IsStale(tasks[..n], tasks[n].id, timeout, exclude, now)
  {
    hide Stale;
    forall id ensures IsStale(tasks[..n + 1], id, timeout, exclude, now)
      <==> IsStale(tasks[..n], id, timeout, exclude, now) || (id == tasks[n].id && Stale(tasks[n], timeout, exclude, now))
    {
      if IsStale(tasks[..n], id, timeout, exclude, now) {
        var i :| 0 <= i < n && tasks[..n][i].id == id && Stale(tasks[..n][i], timeout, exclude, now);
        assert tasks[..n + 1][i] == tasks[..n][i];
      }
      if id == tasks[n].id && Stale(tasks[n], timeout, exclude, now) { assert tasks[..n + 1][n] == tasks[n]; }
      if IsStale(tasks[..n + 1], id, timeout, exclude, now) {
        var i :| 0 <= i < n + 1 && tasks[..n + 1][i].id == id && Stale(tasks[..n + 1][i], timeout, exclude, now);
        assert i < n ==> tasks[..n][i] == tasks[..n + 1][i];
      }
    }
  }

  lemma StaleLive(tasks: seq<Rec>, timeout: int, exclude: set<string>, now: int)
    ensures forall id :: IsStale(tasks, id, timeout, exclude, now) ==> HasLive(tasks, id)
  {
  }

  lemma FailedDead(tasks: seq<Rec>, id: string, rec: Rec)
    requires Terminal(rec.state) && forall r :: r in tasks ==> r == rec || r.id != id
    ensures !HasLive(tasks, id)
  {
  }

  lemma UniqueIndex(tasks: seq<Rec>, id: string, i: nat)
    requires Unique(tasks) && i <= |tasks| && (i < |tasks| ==> tasks[i].id == id) && (i == |tasks| ==> !Has(tasks, id))
    ensures HasLive(tasks, id) <==> i < |tasks| && !Terminal(tasks[i].state)
  {
  }

  /** Resolving a task's futures while unregistering them leaves every other future accounted for. */
  lemma StillAccounted(f: nat, id: string, resolved: map<nat, (State, string)>, watchers: map<string, seq<nat>>,
                       resolved': map<nat, (State, string)>)
    requires Accounted(f, resolved, watchers)
    requires forall g :: g in resolved ==> g in resolved'
    requires id in watchers ==> forall g :: g in watchers[id] ==> g in resolved'
    ensures Accounted(f, resolved', watchers - {id})
  {
    if f !in resolved' {
      var other :| other in watchers && f in watchers[other];
      assert other in watchers - {id};
    }
  }

  lemma StillNumbered(watchers: map<string, seq<nat>>, resolved: map<nat, (State, string)>, id: string,
                      resolved': map<nat, (State, string)>, handedOut: nat)
    requires Numbered(watchers, resolved, handedOut)
    requires forall f :: f in resolved' && f !in resolved ==> id in watchers && f in watchers[id]
    ensures Numbered(watchers - {id}, resolved', handedOut)
  {
  }

  /** The records after one completion: trimmed, the completed one rewritten, every other live one kept. */
  lemma CompletedRecords(was: seq<Rec>, i: nat, rec: Rec)
    requires Unique(was) && i < |was| && was[i].id == rec.id
    ensures var after := Trimmed(was[i := rec]);
      && Unique(after) && Terminals(after) <= MAX_TERMINAL
      && (forall r :: r in after ==> r == rec || (r in was && r.id != rec.id))
      && (forall other :: other != rec.id ==> (HasLive(after, other) <==> HasLive(was, other)))
  {
    var before := was[i := rec];
    assert Unique(before);
    TrimKeeps(before);
    LiveStays(was, before, {}, rec.id);
    hide Trimmed, Terminals, HasLive;
    forall r | r in Trimmed(before) ensures r == rec || (r in was && r.id != rec.id) {
      var j :| 0 <= j < |before| && before[j] == r;
    }
  }

  /** Rewriting or appending the record of one id leaves the other live ids live. */
  lemma LiveStays(a: seq<Rec>, b: seq<Rec>, ids: set<string>, id: string)
    requires |a| <= |b| && forall i :: 0 <= i < |a| ==> b[i] == a[i] || (a[i].id == id && b[i].id == id)
    requires forall i :: |a| <= i < |b| ==> b[i].id == id
    ensures forall other :: other != id ==> (HasLive(a, other) <==> HasLive(b, other))
  {
    forall other | other != id ensures HasLive(a, other) <==> HasLive(b, other) {
      if HasLive(a, other) {
        var i :| 0 <= i < |a| && a[i].id == other && !Terminal(a[i].state);
        assert b[i] == a[i];
      }
      if HasLive(b, other) {
        var i :| 0 <= i < |b| && b[i].id == other && !Terminal(b[i].state);
        assert b[i] == a[i];
      }
    }
  }
}
