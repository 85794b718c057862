/** `GatewayContextLimiter`: pruned deques, proved against a counter over the whole history of admissions. */
module Limiter {
  import opened Common

  datatype BucketKey = BucketKey(peer: string, agent: string, tenant: string, context: string)

  /** One accepted submission. */
  datatype Admission = Admission(key: BucketKey, time: real)

  const WINDOW := 60.0
  const LIMIT := 5

  // ---------------------------------------------------------------- the reference: full history

  /** Times of a key's admissions after `now - 60`. */
  function Recent(h: seq<Admission>, k: BucketKey, now: real): seq<real> {
    if h == [] then []
    else
      var last := h[|h| - 1];
      Recent(h[..|h| - 1], k, now) + (if last.key == k && last.time > now - WINDOW then [last.time] else [])
  }

  /** Times of a key's admissions in the window (t - 60, t]. */
  function Window(h: seq<Admission>, k: BucketKey, t: real): seq<real> {
    if h == [] then []
    else
      var last := h[|h| - 1];
      Window(h[..|h| - 1], k, t) + (if last.key == k && t - WINDOW < last.time <= t then [last.time] else [])
  }

  predicate Chronological(h: seq<Admission>, now: real) {
    (forall i :: 0 <= i < |h| ==> h[i].time <= now) && (forall i, j :: 0 <= i < j < |h| ==> h[i].time <= h[j].time)
  }

  /** Every admission was made while fewer than five of its key were recent. */
  predicate Lawful(h: seq<Admission>) {
    h == [] || (Lawful(h[..|h| - 1]) && |Recent(h[..|h| - 1], h[|h| - 1].key, h[|h| - 1].time)| < LIMIT)
  }

  /** A submission of `k` made `d` whole seconds after `now` would be refused. */
  predicate Refused(h: seq<Admission>, k: BucketKey, now: real, d: int) {
    |Recent(h, k, now + d as real)| >= LIMIT
  }

  predicate Sorted(s: seq<real>) {
    forall i, j :: 0 <= i < j < |s| ==> s[i] <= s[j]
  }

  function Ceil(x: real): int {
    -((-x).Floor)
  }

  /** `popleft` while the oldest entry has left the window. */
  function DropOld(s: seq<real>, cut: real): seq<real> {
    if s == [] || s[0] > cut then s else DropOld(s[1..], cut)
  }

  // ---------------------------------------------------------------- lemmas

  lemma {:induction false} RecentBounds(h: seq<Admission>, k: BucketKey, now: real, t: real)
    requires Chronological(h, t)
    ensures Sorted(Recent(h, k, now)) && forall x :: x in Recent(h, k, now) ==> now - WINDOW < x <= t
  {
    if h != [] {
      var rest, last := h[..|h| - 1], h[|h| - 1];
      assert Chronological(rest, last.time) by {
        forall i | 0 <= i < |rest| ensures rest[i].time <= last.time { assert h[i].time <= h[|h| - 1].time; }
      }
      RecentBounds(rest, k, now, last.time);
      var r := Recent(rest, k, now);
      assert forall i :: 0 <= i < |r| ==> r[i] in r;
    }
  }

  lemma {:induction false} DropOldAppend(s: seq<real>, x: real, cut: real)
    requires forall y :: y in s ==> y <= x
    ensures DropOld(s + [x], cut) == if x > cut then DropOld(s, cut) + [x] else []
  {
    if s != [] {
      assert (s + [x])[1..] == s[1..] + [x];
      assert s[0] in s;
      assert forall y :: y in s[1..] ==> y in s;
      DropOldAppend(s[1..], x, cut);
    }
  }

  lemma {:induction false} RecentLater(h: seq<Admission>, k: BucketKey, now: real, later: real)
    requires Chronological(h, now) && now <= later
    ensures Recent(h, k, later) == DropOld(Recent(h, k, now), later - WINDOW)
  {
    if h != [] {
      var rest, last := h[..|h| - 1], h[|h| - 1];
      RecentLater(rest, k, now, later);
      RecentBounds(rest, k, now, last.time);
      var r := Recent(rest, k, now);
      DropOldAppend(r, last.time, later - WINDOW);
      assert r + [] == r && DropOld(r, later - WINDOW) + [] == DropOld(r, later - WINDOW);
      if last.time <= later - WINDOW { AllOld(r, later - WINDOW); }
    }
  }

  lemma {:induction false} AllOld(s: seq<real>, cut: real)
    requires forall y :: y in s ==> y <= cut
    ensures DropOld(s, cut) == []
  {
    if s != [] {
      assert s[0] in s && forall y :: y in s[1..] ==> y in s;
      AllOld(s[1..], cut);
    }
  }

  lemma {:induction false} RecentSize(h: seq<Admission>, k: BucketKey, now: real, t: real)
    requires Chronological(h, now) && Lawful(h) && now <= t
    ensures |Recent(h, k, t)| <= LIMIT
  {
    if h != [] {
      var rest, last := h[..|h| - 1], h[|h| - 1];
      assert Chronological(rest, last.time) by {
        forall i | 0 <= i < |rest| ensures rest[i].time <= last.time { assert h[i].time <= h[|h| - 1].time; }
      }
      RecentSize(rest, k, last.time, t);
      if last.key == k {
        RecentLater(rest, k, last.time, t);
        DropOldSize(Recent(rest, k, last.time), t - WINDOW);
      }
    }
  }

  lemma {:induction false} DropOldSize(s: seq<real>, cut: real)
    ensures |DropOld(s, cut)| <= |s|
  {
    if s != [] && s[0] <= cut { DropOldSize(s[1..], cut); }
  }

  /** No 60-second window of an admissible history ever holds more than five admissions of a key. */
  lemma {:induction false} WindowBound(h: seq<Admission>, k: BucketKey, now: real, t: real)
    requires Chronological(h, now) && Lawful(h)
    ensures |Window(h, k, t)| <= LIMIT
  {
    if h != [] {
      var rest, last := h[..|h| - 1], h[|h| - 1];
      assert Chronological(rest, last.time) by {
        forall i | 0 <= i < |rest| ensures rest[i].time <= last.time { assert h[i].time <= h[|h| - 1].time; }
      }
      if last.time <= t {
        RecentSize(h, k, last.time, t) by { assert Chronological(h, last.time); }
        WindowIsRecent(h, k, last.time, t);
      } else {
        WindowBound(rest, k, last.time, t);
      }
    }
  }

  lemma {:induction false} WindowIsRecent(h: seq<Admission>, k: BucketKey, now: real, t: real)
    requires Chronological(h, now) && now <= t
    ensures Window(h, k, t) == Recent(h, k, t)
  {
    if h != [] { WindowIsRecent(h[..|h| - 1], k, now, t); }
  }

  // ---------------------------------------------------------------- the limiter

  class GatewayContextLimiter {
    var buckets: map<BucketKey, seq<real>>
    ghost var history: seq<Admission>
    ghost var last: real   // latest clock reading

    ghost predicate Valid()
      reads this
    {
      && Chronological(history, last) && Lawful(history)
      && (forall k :: k in buckets ==> buckets[k] == Recent(history, k, last))
      && (forall k {:trigger Recent(history, k, last)} :: k !in buckets ==> Recent(history, k, last) == [])
    }

    constructor (start: real)
      ensures Valid() && history == [] && last == start
    {
      buckets := map[];
      history := [];
      last := start;
    }

    /** Drop what has left the window from every bucket, and empty buckets altogether. */
    method Prune(now: real)
      requires Valid() && last <= now
      modifies this`buckets, this`last
      ensures Valid() && last == now && forall k :: k in buckets ==> buckets[k] != []
    {
      var keys := buckets.Keys;
      ghost var was := buckets;
      while keys != {}
        invariant keys <= buckets.Keys <= was.Keys && last == old(last) && Valid0(history, last, was)
        invariant forall k :: k in keys ==> buckets[k] == was[k]
        invariant forall k :: k in was && k !in keys ==>
          if k in buckets then buckets[k] == Recent(history, k, now) && buckets[k] != [] else Recent(history, k, now) == []
      {
        var k :| k in keys;
        var bucket := buckets[k];
        RecentLater(history, k, last, now);
        while bucket != [] && bucket[0] <= now - WINDOW
          invariant DropOld(bucket, now - WINDOW) == Recent(history, k, now)
        {
          bucket := bucket[1..];
        }
        keys := keys - {k};
        if bucket == [] { buckets := buckets - {k}; } else { buckets := buckets[k := bucket]; }
      }
      forall k | k !in was ensures Recent(history, k, now) == [] {
        assert Recent(history, k, last) == [];
        RecentLater(history, k, last, now);
      }
      last := now;
    }

    /** Admit or refuse one submission.  The decision depends only on the full history: refusals, pruning and
        other keys never change it, and the delay is the least whole number of seconds that helps. */
    method Admit(k: BucketKey, now: real) returns (delay: Option<int>)
      requires Valid() && last <= now
      modifies this
      ensures Valid() && last == now
      ensures delay.None? <==> |Recent(old(history), k, now)| < LIMIT
      ensures history == if delay.None? then old(history) + [Admission(k, now)] else old(history)
      ensures delay.Some? ==> 1 <= delay.value <= 60 && !Refused(history, k, now, delay.value)
      ensures delay.Some? ==> forall d :: 0 <= d < delay.value ==> Refused(history, k, now, d)
    {
      hide Recent, Chronological, Lawful, Refused;
      Prune(now);
      var bucket := if k in buckets then buckets[k] else [];
      if |bucket| >= LIMIT {
        var d := Ceil(bucket[0] + WINDOW - now);
        if d < 1 { d := 1; }
        LeastDelay(history, k, now, d);
        return Some(d);
      }
      AdmitOne(history, k, now);
      buckets := buckets[k := bucket + [now]];
      history := history + [Admission(k, now)];
      delay := None;
    }
  }

  ghost predicate Valid0(h: seq<Admission>, last: real, buckets: map<BucketKey, seq<real>>) {
    && Chronological(h, last)
    && (forall k :: k in buckets ==> buckets[k] == Recent(h, k, last))
    && (forall k {:trigger Recent(h, k, last)} :: k !in buckets ==> Recent(h, k, last) == [])
  }

  lemma AdmitOne(h: seq<Admission>, k: BucketKey, now: real)
    requires Chronological(h, now) && Lawful(h) && |Recent(h, k, now)| < LIMIT
    ensures var h' := h + [Admission(k, now)];
      && Chronological(h', now) && Lawful(h')
      && (forall j {:trigger Recent(h', j, now)} :: Recent(h', j, now) == Recent(h, j, now) + (if j == k then [now] else []))
  {
    var h' := h + [Admission(k, now)];
    assert h'[..|h'| - 1] == h;
  }

  /** A full bucket stays full until its oldest entry leaves the window, and no longer. */
  lemma LeastDelay(h: seq<Admission>, k: BucketKey, now: real, d: int)
    requires Chronological(h, now) && Lawful(h) && |Recent(h, k, now)| >= LIMIT
    requires d == Max(1, Ceil(Recent(h, k, now)[0] + WINDOW - now))
    ensures 1 <= d <= 60
    ensures forall e :: 0 <= e ==> (Refused(h, k, now, e) <==> e < d)
  {
    RecentSize(h, k, now, now);
    RecentBounds(h, k, now, now);
    var b := Recent(h, k, now);
    assert b[0] in b;
    forall e | 0 <= e ensures Refused(h, k, now, e) <==> e < d {
      RecentLater(h, k, now, now + e as real);
      if b[0] <= now + e as real - WINDOW { DropOldSize(b[1..], now + e as real - WINDOW); }
    }
  }
}
