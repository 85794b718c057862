/** The order in which the operations of a flow are claimed, exactly. */
module ClaimOrders {
  import opened Common
  import opened Ledger
  import opened LedgerInvariant
  import opened Broker
  import opened BrokerInvariant
  import opened BrokerSteps
  import opened BrokerTheorems
  import opened Runs

  /** Position `n` of the run is where its claim number `i` is taken. */
  predicate TakenAt(cfg: Settings, run: seq<Step>, i: nat, n: nat) {
    && ValidRun(INITIAL, cfg, run) && n < |run| && i < |Exec(INITIAL, cfg, run).claims|
    && ValidRun(INITIAL, cfg, run[..n]) && Enabled(Exec(INITIAL, cfg, run[..n]), cfg, run[n])
    && var claims := Exec(INITIAL, cfg, run).claims; var b := Exec(INITIAL, cfg, run[..n]);
       && run[n].TakeClaim? && run[n].k == claims[i]
       && b.claims == claims[..i] && Next(b, cfg, run[n]).claims == claims[..i + 1]
       && ValidRun(Next(b, cfg, run[n]), cfg, run[n + 1..])
       && Exec(Next(b, cfg, run[n]), cfg, run[n + 1..]) == Exec(INITIAL, cfg, run)
  }

  lemma {:induction false} ClaimsGrow(b: Broker, cfg: Settings, run: seq<Step>)
    requires ValidRun(b, cfg, run)
    ensures b.claims <= Exec(b, cfg, run).claims
    decreases |run|
  {
    hide Enabled, Next;
    if run != [] {
      NextRows(cfg, b, run[0]);
      ClaimsGrow(Next(b, cfg, run[0]), cfg, run[1..]);
    }
  }

  /** The step that makes the list of claims longer than `i`. */
  lemma {:induction false} GrowingStep(b: Broker, cfg: Settings, run: seq<Step>, i: nat) returns (n: nat)
    requires ValidRun(b, cfg, run) && |b.claims| <= i < |Exec(b, cfg, run).claims|
    ensures n < |run| && ValidRun(b, cfg, run[..n]) && Enabled(Exec(b, cfg, run[..n]), cfg, run[n])
    ensures |Exec(b, cfg, run[..n]).claims| == i && |Next(Exec(b, cfg, run[..n]), cfg, run[n]).claims| == i + 1
    decreases |run|
  {
    hide Enabled, Next;
    NextRows(cfg, b, run[0]);
    var b1 := Next(b, cfg, run[0]);
    if |b1.claims| > i {
      n := 0;
      assert run[..0] == [];
    } else {
      n := GrowingStep(b1, cfg, run[1..], i);
      n := n + 1;
      assert run[..n][1..] == run[1..][..n - 1];
    }
  }

  /** Every claim was taken somewhere. */
  lemma ClaimMoment(cfg: Settings, run: seq<Step>, i: nat) returns (n: nat)
    requires ValidRun(INITIAL, cfg, run) && i < |Exec(INITIAL, cfg, run).claims|
    ensures TakenAt(cfg, run, i, n)
  {
    hide Enabled, Next;
    n := GrowingStep(INITIAL, cfg, run, i);
    RunSplit(INITIAL, cfg, run, n);
    var b := Exec(INITIAL, cfg, run[..n]);
    assert run[n..][0] == run[n] && run[n..][1..] == run[n + 1..];
    NextRows(cfg, b, run[n]);
    ClaimsGrow(b, cfg, run[n..]);
    ClaimsGrow(Next(b, cfg, run[n]), cfg, run[n + 1..]);
  }

  /** Rows known at a claim keep flow and creation time to the end of the run. */
  lemma KnownAtClaim(cfg: Settings, run: seq<Step>, i: nat, n: nat)
    requires TakenAt(cfg, run, i, n)
    ensures SameBirth(Exec(INITIAL, cfg, run[..n]).db.ops, Exec(INITIAL, cfg, run).db.ops)
  {
    hide Enabled, Next, BrokerInv, LedgerEvolves, OpsEvolve;
    var b := Exec(INITIAL, cfg, run[..n]);
    Reachable(cfg, run[..n]);
    RunSplit(INITIAL, cfg, run, n);
    RunKeeps(cfg, b, run[n..]);
    OpsOf(b.db, Exec(INITIAL, cfg, run).db);
    BirthKept(b.db.ops, Exec(INITIAL, cfg, run).db.ops);
  }

  lemma ClaimedOnce(cfg: Settings, run: seq<Step>)
    requires ValidRun(INITIAL, cfg, run)
    ensures Distinct(Exec(INITIAL, cfg, run).claims)
    ensures forall k :: k in Exec(INITIAL, cfg, run).claims ==> k in Exec(INITIAL, cfg, run).db.ops
  {
    hide Enabled, Next;
    AtMostOnce(cfg, run);
  }

  /** Among the operations known when one is claimed, the pair order always holds. */
  lemma KnownInOrder(cfg: Settings, run: seq<Step>, i: nat, j: nat, n: nat)
    requires TakenAt(cfg, run, i, n) && i < j < |Exec(INITIAL, cfg, run).claims|
    requires var b := Exec(INITIAL, cfg, run);
      SameFlow(b.db.ops, b.claims[i], b.claims[j]) && b.claims[j] in Exec(INITIAL, cfg, run[..n]).db.ops
    ensures var b := Exec(INITIAL, cfg, run);
      Before(b.db.ops[b.claims[i]].created, b.claims[i].op, b.db.ops[b.claims[j]].created, b.claims[j].op)
  {
    var end, b := Exec(INITIAL, cfg, run), Exec(INITIAL, cfg, run[..n]);
    ClaimedOnce(cfg, run);
    KnownAtClaim(cfg, run, i, n);
    ClaimableRow(cfg, b, run[n]);
    hide Enabled, Next, Exec, ValidRun, FirstCandidate;
    assert end.claims[j] !in end.claims[..i + 1];
    ClaimOrderExact(cfg, run[..n], run[n], run[n + 1..], end.claims[j]);
  }

  /** Under a clock that does not go back, of two claims of one flow the later one comes first in (created_at,
      operation_id) order if and only if it was accepted after the earlier one was taken, at the very time of that
      one's creation and with a smaller id. */
  lemma ClaimOrderIff(cfg: Settings, run: seq<Step>, t: int, i: nat, j: nat, n: nat)
    requires TakenAt(cfg, run, i, n) && Monotone(t, run) && i < j < |Exec(INITIAL, cfg, run).claims|
    requires var b := Exec(INITIAL, cfg, run); SameFlow(b.db.ops, b.claims[i], b.claims[j])
    ensures var b := Exec(INITIAL, cfg, run); var c, a := b.claims[i], b.claims[j];
      !Before(b.db.ops[c].created, c.op, b.db.ops[a].created, a.op)
      <==> a !in Exec(INITIAL, cfg, run[..n]).db.ops && b.db.ops[a].created == b.db.ops[c].created && a.op < c.op
  {
    var b := Exec(INITIAL, cfg, run);
    ClaimOrder(cfg, run, t, i, j);
    if b.claims[j] in Exec(INITIAL, cfg, run[..n]).db.ops { KnownInOrder(cfg, run, i, j, n); }
    hide Exec, ValidRun, TakenAt, Monotone;
  }
}
