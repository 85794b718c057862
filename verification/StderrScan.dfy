/** `SSHTunnel._read_stderr`: scanning a bounded buffer finds the confirmation exactly when the whole stream has it. */
module StderrScan {
  import opened Common
  import opened Decimal

  const KEPT := 16384
  const CHUNK := 2048

  predicate OccursAt(s: string, p: string, i: nat) {
    i + |p| <= |s| && s[i..i + |p|] == p
  }

  predicate Contains(s: string, p: string) {
    exists i :: 0 <= i <= |s| && OccursAt(s, p, i)
  }

  function Confirmation(port: nat): string {
    "Local forwarding listening on 127.0.0.1 port " + ToDecimal(port) + "."
  }

  function Last(s: string, n: nat): string {
    if |s| <= n then s else s[|s| - n..]
  }

  function Concat(chunks: seq<string>): string {
    if chunks == [] then [] else Concat(chunks[..|chunks| - 1]) + chunks[|chunks| - 1]
  }

  lemma ConfirmationLength(port: nat)
    requires port < 65536
    ensures 0 < |Confirmation(port)| <= KEPT
  {
    assert Power10(5) == 100000 by { assert Power10(4) == 10000 by { assert Power10(2) == 100; } }
    DecimalLength(port, 6, Power10(6));
  }

  /** An occurrence survives putting text around it. */
  lemma Within(before: string, s: string, after: string, p: string)
    requires Contains(s, p)
    ensures Contains(before + s + after, p)
  {
    var i :| 0 <= i <= |s| && OccursAt(s, p, i);
    var all := before + s + after;
    assert all[|before| + i..|before| + i + |p|] == s[i..i + |p|];
    assert OccursAt(all, p, |before| + i);
  }

  /** An occurrence lies in the part already seen, or reaches so far back at most as its own length. */
  lemma Located(seen: string, chunk: string, p: string)
    requires |p| <= KEPT && Contains(seen + chunk, p)
    ensures Contains(seen, p) || Contains(Last(seen, KEPT) + chunk, p)
  {
    var all := seen + chunk;
    var i :| 0 <= i <= |all| && OccursAt(all, p, i);
    if i + |p| <= |seen| {
      assert seen[i..i + |p|] == all[i..i + |p|];
      assert OccursAt(seen, p, i);
    } else {
      var gap := |seen| - |Last(seen, KEPT)|;
      var tail := Last(seen, KEPT) + chunk;
      assert gap <= i && tail == all[gap..];
      assert tail[i - gap..i - gap + |p|] == all[i..i + |p|];
      assert OccursAt(tail, p, i - gap);
    }
  }

  /** Seen in the whole stream so far means seen before, or in the kept tail extended by the new chunk. */
  lemma TailSuffices(seen: string, chunk: string, p: string)
    requires |p| <= KEPT
    ensures Contains(seen + chunk, p) <==> Contains(seen, p) || Contains(Last(seen, KEPT) + chunk, p)
  {
    var kept := Last(seen, KEPT);
    var gone := seen[..|seen| - |kept|];
    assert seen + chunk == gone + (kept + chunk) + "" && seen + chunk == "" + seen + chunk;
    hide Contains;
    if Contains(seen + chunk, p) { Located(seen, chunk, p); }
    if Contains(seen, p) { Within("", seen, chunk, p); }
    if Contains(kept + chunk, p) { Within(gone, kept + chunk, "", p); }
  }

  lemma LastExtend(seen: string, chunk: string)
    ensures Last(Last(seen, KEPT) + chunk, KEPT) == Last(seen + chunk, KEPT)
  {
  }

  class StderrReader {
    const localPort: nat
    var stderr: string
    var forwardConfirmed: bool
    ghost var seen: string   // everything read since the last reset

    ghost predicate Valid()
      reads this
    {
      && localPort < 65536 && stderr == Last(seen, KEPT)
      && (forwardConfirmed <==> Contains(seen, Confirmation(localPort)))
    }

    constructor (localPort: nat)
      requires localPort < 65536
      ensures Valid() && this.localPort == localPort && seen == []
    {
      this.localPort := localPort;
      stderr, forwardConfirmed, seen := [], false, [];
    }

    /** A new connection attempt clears the buffer and the flag. */
    method Reset()
      requires localPort < 65536
      modifies this
      ensures Valid() && seen == []
    {
      stderr, forwardConfirmed, seen := [], false, [];
    }

    method Search(text: string, p: string) returns (found: bool)
      ensures found <==> Contains(text, p)
    {
      var i := 0;
      found := false;
      while i <= |text| && !found
        invariant i <= |text| + 1
        invariant found <==> exists j :: 0 <= j < i && OccursAt(text, p, j)
      {
        found := OccursAt(text, p, i);
        i := i + 1;
      }
    }

    /** One pass of the read loop. */
    method Feed(chunk: string)
      requires Valid()
      modifies this
      ensures Valid() && seen == old(seen) + chunk
    {
      ConfirmationLength(localPort);
      TailSuffices(seen, chunk, Confirmation(localPort));
      LastExtend(seen, chunk);
      stderr := stderr + chunk;
      var found := Search(stderr, Confirmation(localPort));
      if found { forwardConfirmed := true; }
      if |stderr| > KEPT { stderr := stderr[|stderr| - KEPT..]; }
      seen := seen + chunk;
    }

    /** The whole loop: however the stream is cut into chunks, the flag tells whether the stream had the text. */
    method ReadAll(chunks: seq<string>)
      requires Valid() && seen == []
      requires forall c :: c in chunks ==> 0 < |c| <= CHUNK
      modifies this
      ensures Valid() && seen == Concat(chunks)
      ensures forwardConfirmed <==> Contains(Concat(chunks), Confirmation(localPort))
    {
      var i := 0;
      while i < |chunks|
        invariant i <= |chunks| && Valid() && seen == Concat(chunks[..i])
      {
        Feed(chunks[i]);
        assert chunks[..i + 1][..i] == chunks[..i];
        i := i + 1;
      }
      assert chunks[..i] == chunks;
    }
  }
}
