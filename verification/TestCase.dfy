// The repository's concurrency test, for any number of threads, words and
// interleavings. Its assertion is that in the end all targets hold the number of one
// thread.
module ConcurrencyTest {
  import opened KcasTypes
  import opened StepMachine
  import opened ProtocolInvariant
  import opened CallerPromises
  import opened SafetyTheorems
  import opened Linearizability
  import opened ExactlyOneWinner
  import opened FirstCommitWins
  import opened CallPhases

  // ------------------------------------------------------- the test's inputs

  // Thread `i` asks to replace 0 by its number in all targets.
  ghost predicate TestWords(words: seq<KWord>, targets: seq<Addr>, i: nat) {
    && |words| == |targets|
    && forall x :: 0 <= x < |words| ==> words[x] == KWord(Some(targets[x]), Clean(0), Clean(i))
  }

  ghost predicate TestCall(words: seq<KWord>, targets: seq<Addr>, n: nat) {
    exists i :: 0 <= i < n && TestWords(words, targets, i)
  }

  ghost function TestCalls(targets: seq<Addr>, n: nat): seq<KWord> -> bool {
    words => TestCall(words, targets, n)
  }

  // The targets hold 0 at first, and every call is that of some thread below `n`.
  ghost predicate TestRun(cfg: Config, run: seq<World>, targets: seq<Addr>, n: nat) {
    && Run(cfg, run) && |targets| == cfg.k && Line(targets, |run[0].sh.mem|)
    && (forall x :: 0 <= x < |targets| ==> run[0].sh.mem[targets[x]] == Clean(0))
    && forall m :: 0 <= m < |run| - 1 ==> GoodCallsAt(cfg, TestCalls(targets, n), run, m)
  }

  ghost predicate HoldsNumber(mem: seq<Value>, a: Addr, i: nat) {
    a < |mem| && mem[a] == Clean(i)
  }

  ghost predicate AllHold(mem: seq<Value>, targets: seq<Addr>, i: nat) {
    forall x :: 0 <= x < |targets| ==> HoldsNumber(mem, targets[x], i)
  }

  // The test's assertion.
  ghost predicate OneNumber(mem: seq<Value>, targets: seq<Addr>, n: nat) {
    exists i :: 0 <= i < n && AllHold(mem, targets, i)
  }

  function Entry(targets: seq<Addr>): seq<KWord> {
    seq(|targets|, x requires 0 <= x < |targets| => KWord(Some(targets[x]), Clean(0), Clean(0)))
  }

  lemma TestIsContest(cfg: Config, run: seq<World>, targets: seq<Addr>, n: nat)
    requires TestRun(cfg, run, targets, n)
    ensures Contest(cfg, run, Entry(targets))
    ensures forall op :: op in Last(run).hist.began ==> TestCall(Last(run).hist.began[op], targets, n)
  {
    RunArgs(cfg, TestCalls(targets, n), run, |run| - 1);
    TestMatches(run[0].sh, targets);
    forall op | op in Last(run).hist.began ensures TestCall(Last(run).hist.began[op], targets, n) {
      assert TestCalls(targets, n)(Last(run).hist.began[op]);
    }
  }

  lemma TestMatches(sh: Shared, targets: seq<Addr>)
    requires Line(targets, |sh.mem|) && forall x :: 0 <= x < |targets| ==> sh.mem[targets[x]] == Clean(0)
    ensures Matches(Logical(sh), Entry(targets)) && ValidWords(Entry(targets), |targets|, |sh.mem|)
  {
    forall x | 0 <= x < |targets| ensures WordMatches(Logical(sh), Entry(targets)[x]) {
      assert Logical(sh)[targets[x]] == LogicalAt(sh, targets[x]);
    }
  }

  // ------------------------------------- what keeps the descriptors apart

  // The calls of the test take no value down.
  lemma TestIsMono(cfg: Config, run: seq<World>, targets: seq<Addr>, n: nat)
    requires TestRun(cfg, run, targets, n)
    ensures TestRun(cfg.(mono := true), run, targets, n)
  {
    var rising := cfg.(mono := true);
    forall m | 0 <= m < |run| - 1 ensures NextAt(rising, run, m) {
      assert NextAt(cfg, run, m) && GoodCallsAt(cfg, TestCalls(targets, n), run, m);
      RisingNext(cfg, run[m], run[m + 1], targets, n);
    }
    forall m | 0 <= m < |run| - 1 ensures GoodCallsAt(rising, TestCalls(targets, n), run, m) {
      assert GoodCallsAt(cfg, TestCalls(targets, n), run, m);
      StricterCalls(cfg, rising, TestCalls(targets, n), run[m], run[m + 1]);
    }
  }

  lemma StricterCalls(cfg: Config, strict: Config, good: seq<KWord> -> bool, w: World, w': World)
    requires GoodCalls(cfg, good, w, w')
    requires strict == cfg.(stable := true) || strict == cfg.(mono := true)
    ensures GoodCalls(strict, good, w, w')
  {
    forall t, words | Begin(strict, w, w', t, words) ensures good(words) {
      assert Begin(cfg, w, w', t, words);
    }
  }

  lemma RisingNext(cfg: Config, w: World, w': World, targets: seq<Addr>, n: nat)
    requires Next(cfg, w, w') && GoodCalls(cfg, TestCalls(targets, n), w, w')
    ensures Next(cfg.(mono := true), w, w')
  {
    var rising := cfg.(mono := true);
    if t: nat, words :| Begin(cfg, w, w', t, words) {
      assert TestCalls(targets, n)(words);
      var i :| 0 <= i < n && TestWords(words, targets, i);
      assert Begin(rising, w, w', t, words);
    } else if t: nat :| Execute(cfg, w, w', t) {
      assert Execute(rising, w, w', t);
    } else if t: nat :| Spurious(cfg, w, w', t) {
      assert Spurious(rising, w, w', t);
    }
  }

  ghost predicate CallStep(cfg: Config, run: seq<World>, n: nat) {
    exists t, words :: CallAt(cfg, run, n, t, words)
  }

  // The run has at most two calls, as in the repository's tests with two threads.
  ghost predicate TwoCalls(cfg: Config, run: seq<World>) {
    forall a, b, c :: 0 <= a < b < c ==> !CallStep(cfg, run, a) || !CallStep(cfg, run, b) || !CallStep(cfg, run, c)
  }

  // A busy slot was called before.
  lemma BusyWasCalled(cfg: Config, run: seq<World>, n: nat, t: nat) returns (m: nat)
    requires Run(cfg, run) && n < |run| && t < |run[n].stacks| && run[n].stacks[t] != []
    ensures m < n && CallStep(cfg, run, m) && t < |run[m].stacks| && run[m].stacks[t] == []
    ensures run[m + 1].stacks[t] != []
  {
    StacksKept(cfg, run, n);
    m := Rises(seq(|run|, j requires 0 <= j < |run| => t < |run[j].stacks| && run[j].stacks[t] != []), 0, n);
    StacksKept(cfg, run, m);
    var w, w' := run[m], run[m + 1];
    assert NextAt(cfg, run, m);
    if u: nat, words :| Begin(cfg, w, w', u, words) {
      assert CallAt(cfg, run, m, u, words);
    }
  }

  lemma {:induction false} StacksKept(cfg: Config, run: seq<World>, n: nat)
    requires Run(cfg, run) && n < |run|
    ensures |run[n].stacks| == |run[0].stacks|
    decreases n
  {
    if n > 0 {
      StacksKept(cfg, run, n - 1);
      assert NextAt(cfg, run, n - 1);
    }
  }

  // A slot that has run an operation was called before.
  lemma UsedWasCalled(cfg: Config, run: seq<World>, n: nat, t: nat) returns (m: nat)
    requires Run(cfg, run) && n < |run| && t < |run[n].sh.slots| && run[n].sh.slots[t].seqno > 0
    ensures m < n && CallStep(cfg, run, m) && t < |run[m].stacks| && run[m].stacks[t] == []
    ensures t < |run[m + 1].stacks| && run[m + 1].stacks[t] != []
  {
    ghost var used := seq(|run|, j requires 0 <= j < |run| =>
      t < |run[j].sh.slots| && run[j].sh.slots[t].seqno > 0);
    var j := Rises(used, 0, n);
    OwnerAdvances(cfg, run, j, t);
    m := BusyWasCalled(cfg, run, j, t);
    StacksKept(cfg, run, m + 1);
    StacksKept(cfg, run, j);
  }

  lemma OwnerAdvances(cfg: Config, run: seq<World>, j: nat, t: nat)
    requires Run(cfg, run) && j + 1 < |run|
    requires t < |run[j + 1].sh.slots| && run[j + 1].sh.slots[t].seqno > 0
    requires t < |run[j].sh.slots| ==> run[j].sh.slots[t].seqno == 0
    ensures t < |run[j].stacks| && run[j].stacks[t] != []
  {
    RunStep(cfg, run, j);
    SlotsAdvance(cfg, run, j, j + 1, 0);
    var v := WhoMoved(cfg, run[j], run[j + 1]);
    ExecuteInvariant(cfg, run[j], run[j + 1], v);
    FrameOfStep(cfg, run[j], run[j + 1], v);
    assert SlotRely(run[j].sh, run[j + 1].sh, t, MoverOf(Last(run[j].stacks[v])));
  }

  // With two calls no descriptor is reused under a helper.
  lemma TwoCallsAreStable(cfg: Config, run: seq<World>)
    requires Run(cfg, run) && TwoCalls(cfg, run)
    ensures Run(cfg.(stable := true), run)
  {
    forall n | 0 <= n < |run| - 1 ensures NextAt(cfg.(stable := true), run, n) {
      assert NextAt(cfg, run, n);
      TwoCallsNext(cfg, run, n);
    }
  }

  lemma TwoCallsNext(cfg: Config, run: seq<World>, n: nat)
    requires Run(cfg, run) && TwoCalls(cfg, run) && n + 1 < |run| && NextAt(cfg, run, n)
    ensures NextAt(cfg.(stable := true), run, n)
  {
    var w, w', steady := run[n], run[n + 1], cfg.(stable := true);
    if t: nat, words :| Begin(cfg, w, w', t, words) {
      assert CallAt(cfg, run, n, t, words);
      NobodyHelps(cfg, run, n, t);
      assert Begin(steady, w, w', t, words);
    } else if t: nat :| Execute(cfg, w, w', t) {
      assert Execute(steady, w, w', t);
    } else if t: nat :| Spurious(cfg, w, w', t) {
      assert Spurious(steady, w, w', t);
    }
  }

  lemma NobodyHelps(cfg: Config, run: seq<World>, n: nat, t: nat)
    requires Run(cfg, run) && TwoCalls(cfg, run) && n < |run| && CallStep(cfg, run, n)
    requires t < |run[n].stacks| && run[n].stacks[t] == []
    ensures !HelperAtWork(run[n].stacks, t)
  {
    var w := run[n];
    if HelperAtWork(w.stacks, t) {
      var u: nat, d: nat :| u < |w.stacks| && d < |w.stacks[u]|
                            && w.stacks[u][d].slot == t && !w.stacks[u][d].pc.HelpLoad?;
      HelpedWasUsed(cfg, run, n, t, u, d);
      var a, b := CallsBefore(cfg, run, n, t, u);
    }
  }

  lemma CallsBefore(cfg: Config, run: seq<World>, n: nat, t: nat, u: nat) returns (a: nat, b: nat)
    requires Run(cfg, run) && n < |run| && t != u
    requires u < |run[n].stacks| && run[n].stacks[u] != []
    requires t < |run[n].sh.slots| && run[n].sh.slots[t].seqno > 0
    ensures a < b < n && CallStep(cfg, run, a) && CallStep(cfg, run, b)
  {
    a := BusyWasCalled(cfg, run, n, u);
    b := UsedWasCalled(cfg, run, n, t);
    if a == b { OneCallPerStep(cfg, run, a, t, u); }
    if b < a { a, b := b, a; }
  }

  lemma HelpedWasUsed(cfg: Config, run: seq<World>, n: nat, t: nat, u: nat, d: nat)
    requires Run(cfg, run) && n < |run| && t < |run[n].stacks| && run[n].stacks[t] == []
    requires u < |run[n].stacks| && d < |run[n].stacks[u]|
    requires run[n].stacks[u][d].slot == t && !run[n].stacks[u][d].pc.HelpLoad?
    ensures t < |run[n].sh.slots| && run[n].sh.slots[t].seqno > 0 && u != t
  {
    RunInvariant(cfg, run, n);
    var w := run[n];
    assert FramesInv(w.sh, w.hist, cfg.k, w.stacks[u]) && StackShape(w.stacks[u], u);
    assert FrameInv(w.sh, w.hist, cfg.k, w.stacks[u][d]);
  }

  lemma OneCallPerStep(cfg: Config, run: seq<World>, a: nat, t: nat, u: nat)
    requires a + 1 < |run| && CallStep(cfg, run, a) && t != u
    ensures !(t < |run[a].stacks| && run[a].stacks[t] == [] && t < |run[a + 1].stacks| && run[a + 1].stacks[t] != []
              && u < |run[a].stacks| && run[a].stacks[u] == [] && run[a + 1].stacks[u] != [])
  {
  }

  // ------------------------------------------------------ the test succeeds

  // No call's number is 0.
  ghost predicate EveryNumberCounts(cfg: Config, run: seq<World>, targets: seq<Addr>) {
    forall m :: 0 <= m < |run| - 1 ==> GoodCallsAt(cfg, MovesFrom(Entry(targets)), run, m)
  }

  // What is enough for the assertion: descriptors are not reused under a helper, which
  // one call per slot or two calls in all see to, or no call keeps the targets at 0.
  ghost predicate Careful(cfg: Config, run: seq<World>, targets: seq<Addr>) {
    cfg.stable || OneShot(cfg, run) || TwoCalls(cfg, run) || EveryNumberCounts(cfg, run, targets)
  }

  // Once all calls have returned, every target holds the number of one call.
  lemma TestOutcome(cfg: Config, run: seq<World>, targets: seq<Addr>, n: nat, someone: OpId)
    requires TestRun(cfg, run, targets, n) && Careful(cfg, run, targets)
    requires AllReturned(Last(run)) && someone in Last(run).hist.results
    ensures OneNumber(Last(run).sh.mem, targets, n)
  {
    TestIsContest(cfg, run, targets, n);
    var op;
    if EveryNumberCounts(cfg, run, targets) {
      TestMatches(run[0].sh, targets);
      op := RaceHasOneWinner(cfg, run, Entry(targets), someone);
    } else {
      op := CarefulWinner(cfg, run, targets, n, someone);
    }
    var words := Last(run).hist.began[op];
    assert TestCall(words, targets, n);
    var i :| 0 <= i < n && TestWords(words, targets, i);
    forall x | 0 <= x < |targets| ensures HoldsNumber(Last(run).sh.mem, targets[x], i) {
      assert HoldsDesired(Last(run).sh.mem, words[x]);
    }
    assert AllHold(Last(run).sh.mem, targets, i);
  }

  lemma CarefulWinner(cfg: Config, run: seq<World>, targets: seq<Addr>, n: nat, someone: OpId) returns (op: OpId)
    requires TestRun(cfg, run, targets, n) && (cfg.stable || OneShot(cfg, run) || TwoCalls(cfg, run))
    requires AllReturned(Last(run)) && someone in Last(run).hist.results
    ensures op in Last(run).hist.began
    ensures forall x :: 0 <= x < |Last(run).hist.began[op]| ==>
              HoldsDesired(Last(run).sh.mem, Last(run).hist.began[op][x])
  {
    if TwoCalls(cfg, run) { TwoCallsAreStable(cfg, run); } else if !cfg.stable { OneShotIsStable(cfg, run); }
    var steady := cfg.(stable := true);
    assert steady == cfg || Run(steady, run);
    SteadyTest(cfg, run, targets, n);
    TestIsMono(steady, run, targets, n);
    var strict := steady.(mono := true);
    TestIsContest(strict, run, targets, n);
    op := OneSetOfValues(strict, run, Entry(targets), someone);
  }

  lemma SteadyTest(cfg: Config, run: seq<World>, targets: seq<Addr>, n: nat)
    requires TestRun(cfg, run, targets, n) && Run(cfg.(stable := true), run)
    ensures TestRun(cfg.(stable := true), run, targets, n)
  {
    var steady := cfg.(stable := true);
    forall m | 0 <= m < |run| - 1 ensures GoodCallsAt(steady, TestCalls(targets, n), run, m) {
      assert GoodCallsAt(cfg, TestCalls(targets, n), run, m);
      StricterCalls(cfg, steady, TestCalls(targets, n), run[m], run[m + 1]);
    }
  }
}
