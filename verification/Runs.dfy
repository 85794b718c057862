/** Broker runs put together and taken apart. */
module Runs {
  import opened Ledger
  import opened B = Broker

  lemma {:induction false} Snoc(b: B.Broker, cfg: Settings, run: seq<Step>, s: Step)
    requires ValidRun(b, cfg, run) && Enabled(Exec(b, cfg, run), cfg, s)
    ensures ValidRun(b, cfg, run + [s]) && Exec(b, cfg, run + [s]) == Next(Exec(b, cfg, run), cfg, s)
    decreases |run|
  {
    hide Enabled, Next;
    if run == [] {
      assert run + [s] == [s] && [s][1..] == [];
    } else {
      assert (run + [s])[1..] == run[1..] + [s];
      Snoc(Next(b, cfg, run[0]), cfg, run[1..], s);
    }
  }

  lemma {:induction false} RunAppend(b: B.Broker, cfg: Settings, run: seq<Step>, more: seq<Step>)
    requires ValidRun(b, cfg, run) && ValidRun(Exec(b, cfg, run), cfg, more)
    ensures ValidRun(b, cfg, run + more) && Exec(b, cfg, run + more) == Exec(Exec(b, cfg, run), cfg, more)
    decreases |run|
  {
    hide Enabled, Next;
    if run == [] {
      assert run + more == more;
    } else {
      assert (run + more)[1..] == run[1..] + more;
      RunAppend(Next(b, cfg, run[0]), cfg, run[1..], more);
    }
  }

  lemma {:induction false} RunSplit(b: B.Broker, cfg: Settings, run: seq<Step>, n: nat)
    requires ValidRun(b, cfg, run) && n <= |run|
    ensures ValidRun(b, cfg, run[..n]) && ValidRun(Exec(b, cfg, run[..n]), cfg, run[n..])
    ensures Exec(b, cfg, run) == Exec(Exec(b, cfg, run[..n]), cfg, run[n..])
    decreases n
  {
    hide Enabled, Next;
    if n == 0 {
      assert run[..n] == [] && run[n..] == run;
    } else {
      RunSplit(Next(b, cfg, run[0]), cfg, run[1..], n - 1);
      assert run[..n][1..] == run[1..][..n - 1] && run[1..][n - 1..] == run[n..];
    }
  }
}
