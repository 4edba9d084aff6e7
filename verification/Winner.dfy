// A contest: all calls have the same targets and the same expected values. Whatever
// they desire the targets end with the values of one of them, and if every call
// changes some word exactly one succeeds.
module ExactlyOneWinner {
  import opened KcasTypes
  import opened StepMachine
  import opened ProtocolInvariant
  import opened SafetyTheorems
  import opened NoOrphanMarkers
  import opened AtomicRefinement
  import opened AtomicSwaps
  import opened Linearizability
  import opened SequentialHistory

  ghost predicate SameEntry(words: seq<KWord>, entry: seq<KWord>) {
    && |words| == |entry|
    && forall x :: 0 <= x < |words| ==>
         words[x].target == entry[x].target && words[x].expected == entry[x].expected
  }

  // Every operation of the run has the targets and expected values of `entry`,
  // and memory holds those expected values at the outset.
  ghost predicate Contest(cfg: Config, run: seq<World>, entry: seq<KWord>) {
    && Run(cfg, run)
    && |entry| == cfg.k
    && Matches(Logical(run[0].sh), entry)
    && forall op :: op in Last(run).hist.began ==> SameEntry(Last(run).hist.began[op], entry)
  }

  // Every operation of the run changes some word.
  ghost predicate EveryoneChanges(w: World) {
    forall op :: op in w.hist.began ==> ChangesSome(w.hist.began[op])
  }

  ghost predicate ChangesSome(words: seq<KWord>) {
    exists x :: 0 <= x < |words| && !ComparesOnly(words[x])
  }

  // Operation `op` is the run's only success, every other completed operation
  // failed, and every target holds the winner's desired value.
  ghost predicate Wins(w: World, op: OpId) {
    && op in w.hist.results && w.hist.results[op] == Ok
    && (forall p :: p in w.hist.results && p != op ==> w.hist.results[p] == ValueWasNotExpectedValue)
    && op in w.hist.began
    && forall x :: 0 <= x < |w.hist.began[op]| ==> HoldsDesired(w.sh.mem, w.hist.began[op][x])
  }

  ghost predicate HoldsDesired(mem: seq<Value>, word: KWord) {
    word.target.Some? && word.target.value < |mem| && mem[word.target.value] == word.desired
  }

  // --------------------------------------------------------- logical memory

  lemma {:induction false} LogicalRises(cfg: Config, run: seq<World>, n: nat, m: nat, a: Addr)
    requires cfg.stable && cfg.mono && Run(cfg, run) && n <= m < |run| && a < |run[n].sh.mem|
    ensures |run[m].sh.mem| == |run[n].sh.mem| && LogicalAt(run[m].sh, a) >= LogicalAt(run[n].sh, a)
    decreases m
  {
    if n < m {
      LogicalRises(cfg, run, n, m - 1, a);
      StepRisesAt(cfg, run, m - 1);
    }
  }

  lemma StepRisesAt(cfg: Config, run: seq<World>, n: nat)
    requires cfg.stable && cfg.mono && Run(cfg, run) && n + 1 < |run|
    ensures Rising(run[n], run[n + 1])
  {
    RunAtomic(cfg, run, n);
    RunAtomic(cfg, run, n + 1);
    RunStep(cfg, run, n);
    hide SettledInv;
    if run[n + 1].sh != run[n].sh {
      var t := WhoMoved(cfg, run[n], run[n + 1]);
      StepRises(cfg, run[n], run[n + 1], t);
    }
  }

  ghost predicate NoCommitIn(run: seq<World>, n: nat, m: nat) {
    forall j, op :: n <= j < m ==> !CommitsAt(run, j, op)
  }

  lemma {:induction false} LogicalStays(cfg: Config, run: seq<World>, n: nat, m: nat)
    requires cfg.stable && cfg.mono && Run(cfg, run) && n <= m < |run| && NoCommitIn(run, n, m)
    ensures Logical(run[m].sh) == Logical(run[n].sh)
    decreases m
  {
    if n < m {
      LogicalStays(cfg, run, n, m - 1);
      OtherwiseSilent(cfg, run, m - 1);
    }
  }

  // ------------------------------------------------------------- the winner

  lemma EntryWords(cfg: Config, run: seq<World>, entry: seq<KWord>, n: nat, op: OpId)
    requires Contest(cfg, run, entry) && n < |run| && op in run[n].hist.began
    ensures SameEntry(WordsOf(run[n], op), entry)
    ensures op in Last(run).hist.began && WordsOf(Last(run), op) == WordsOf(run[n], op)
  {
    WordsStay(cfg, run, n, |run| - 1, op);
    assert op in Last(run).hist.began;
  }

  lemma WordsRise(cfg: Config, run: seq<World>, n: nat, op: OpId)
    requires cfg.stable && cfg.mono && Run(cfg, run) && n < |run| && op in run[n].hist.began
    ensures NonDecreasing(WordsOf(run[n], op))
  {
    RunAtomic(cfg, run, n);
  }

  lemma WordsClean(cfg: Config, run: seq<World>, n: nat, op: OpId)
    requires Run(cfg, run) && n < |run| && op in run[n].hist.began
    ensures ValidWords(WordsOf(run[n], op), cfg.k, |run[0].sh.mem|) && op.slot < |run[0].sh.slots|
  {
    var b := StartOf(cfg, run, n, op);
    StartMeans(cfg, run, b, op, run[n].hist.began[op]);
    SizesStay(cfg, run, b);
  }

  lemma {:induction false} SizesStay(cfg: Config, run: seq<World>, n: nat)
    requires Run(cfg, run) && n < |run|
    ensures |run[n].sh.mem| == |run[0].sh.mem| && |run[n].sh.slots| == |run[0].sh.slots|
    decreases n
  {
    if n > 0 {
      SizesStay(cfg, run, n - 1);
      RunStep(cfg, run, n - 1);
      var mover := NextRely(cfg, run[n - 1], run[n]);
    }
  }

  // Two commits would need a target that changes to read its expected value twice.
  lemma CommitsOnce(cfg: Config, run: seq<World>, entry: seq<KWord>, n: nat, op: OpId, m: nat, p: OpId)
    requires cfg.stable && cfg.mono && Contest(cfg, run, entry) && EveryoneChanges(Last(run))
    requires CommitsAt(run, n, op) && CommitsAt(run, m, p)
    ensures n == m
  {
    if n < m {
      LaterCommitFails(cfg, run, entry, n, op, m, p);
    } else if m < n {
      LaterCommitFails(cfg, run, entry, m, p, n, op);
    }
  }

  lemma LaterCommitFails(cfg: Config, run: seq<World>, entry: seq<KWord>, n: nat, op: OpId, m: nat, p: OpId)
    requires cfg.stable && cfg.mono && Contest(cfg, run, entry) && EveryoneChanges(Last(run))
    requires CommitsAt(run, n, op) && n < m
    ensures !CommitsAt(run, m, p)
  {
    if CommitsAt(run, m, p) {
      LiveWords(cfg, run, n, op);
      LiveWords(cfg, run, m, p);
      EntryWords(cfg, run, entry, n, op);
      EntryWords(cfg, run, entry, m, p);
      CommitRefines(cfg, run, n, op);
      CommitRefines(cfg, run, m, p);
      WordsRise(cfg, run, n, op);
      WordsClean(cfg, run, n, op);
      var us, vs := WordsOf(run[n], op), WordsOf(run[m], p);
      assert ChangesSome(us);
      var x: nat :| x < |us| && !ComparesOnly(us[x]);
      assert CleanWord(us[x], |run[0].sh.mem|);
      WordReadTwice(cfg, run, n, m, x, us, vs);
    }
  }

  lemma WordReadTwice(cfg: Config, run: seq<World>, n: nat, m: nat, x: nat, us: seq<KWord>, vs: seq<KWord>)
    requires cfg.stable && cfg.mono && Run(cfg, run) && n < m && m + 1 < |run|
    requires x < |us| && x < |vs|
    requires AtomicKcas(Logical(run[n].sh), Logical(run[n + 1].sh), us)
    requires AtomicKcas(Logical(run[m].sh), Logical(run[m + 1].sh), vs)
    requires us[x].target == vs[x].target && us[x].expected == vs[x].expected
    requires us[x].expected.Clean? && us[x].desired.Clean?
    ensures us[x].expected.bits >= us[x].desired.bits
  {
    assert WordSet(Logical(run[n + 1].sh), us[x]);
    assert WordMatches(Logical(run[m].sh), vs[x]);
    var a := us[x].target.value;
    LogicalRises(cfg, run, n + 1, m, a);
    assert Logical(run[n + 1].sh)[a] == LogicalAt(run[n + 1].sh, a);
    assert Logical(run[m].sh)[a] == LogicalAt(run[m].sh, a);
  }

  // Some operation commits: otherwise every failure would have had to see a
  // target change that nobody made.
  lemma SomeoneCommits(cfg: Config, run: seq<World>, entry: seq<KWord>, op: OpId) returns (m: nat, p: OpId)
    requires cfg.stable && cfg.mono && Contest(cfg, run, entry)
    requires op in Last(run).hist.results
    ensures CommitsAt(run, m, p)
  {
    var b, j, r := Linearizable(cfg, run, |run| - 1, op);
    UntouchedMatches(cfg, run, entry, j, op);
    if CommitsAt(run, j, op) {
      m, p := j, op;
    } else {
      m, p :| 0 <= m < j && CommitsAt(run, m, p);
    }
  }

  lemma UntouchedMatches(cfg: Config, run: seq<World>, entry: seq<KWord>, j: nat, op: OpId)
    requires cfg.stable && cfg.mono && Contest(cfg, run, entry) && j < |run|
    requires op in Last(run).hist.began
    ensures NoCommitIn(run, 0, j) ==> Matches(Logical(run[j].sh), WordsOf(Last(run), op))
  {
    if NoCommitIn(run, 0, j) {
      LogicalStays(cfg, run, 0, j);
      EntryWords(cfg, run, entry, |run| - 1, op);
      EntryMatches(Logical(run[j].sh), WordsOf(Last(run), op), entry);
    }
  }

  lemma EntryMatches(m: seq<nat>, words: seq<KWord>, entry: seq<KWord>)
    requires Matches(m, entry) && SameEntry(words, entry)
    ensures Matches(m, words)
  {
    forall x | 0 <= x < |words| ensures WordMatches(m, words[x]) {
      assert WordMatches(m, entry[x]);
    }
  }

  // Whatever the operations desire, all targets end with the values of one that
  // succeeded.
  lemma OneSetOfValues(cfg: Config, run: seq<World>, entry: seq<KWord>, someone: OpId) returns (op: OpId)
    requires cfg.stable && cfg.mono && Contest(cfg, run, entry)
    requires AllReturned(Last(run)) && someone in Last(run).hist.results
    ensures op in Last(run).hist.results && Last(run).hist.results[op] == Ok && op in Last(run).hist.began
    ensures forall x :: 0 <= x < |Last(run).hist.began[op]| ==>
              HoldsDesired(Last(run).sh.mem, Last(run).hist.began[op][x])
  {
    var last := |run| - 1;
    var m, p := SomeoneCommits(cfg, run, entry, someone);
    CommittedReturnedOk(cfg, run, m, p);
    ResultRecorded(cfg, run, last, p);
    PromisesRefine(cfg, run);
    RunIsSequential(cfg, run, last);
    var log := CommitLog(run, last);
    assert Listed(log, p);
    op := Last(log).op;
    var c := CommitOf(cfg, run, last, op);
    CommittedReturnedOk(cfg, run, c, op);
    CommittedBegan(cfg, run, last, op);
    QuietMemoryIsClean(cfg, run, last);
    WordsClean(cfg, run, last, op);
    forall x | 0 <= x < |Last(log).words| ensures HoldsDesired(Last(run).sh.mem, Last(log).words[x]) {
      SwappedReads(Last(run).sh, Replay(Logical(run[0].sh), log[..|log| - 1]), Last(log).words, cfg.k, x);
    }
  }

  lemma SwappedReads(sh: Shared, m: seq<nat>, words: seq<KWord>, k: nat, x: nat)
    requires Logical(sh) == SwapAll(m, words) && ValidWords(words, k, |sh.mem|) && x < |words|
    requires forall a :: 0 <= a < |sh.mem| ==> sh.mem[a].Clean?
    ensures HoldsDesired(sh.mem, words[x])
  {
    assert CleanWord(words[x], |sh.mem|);
    var a := words[x].target.value;
    assert WordAt(words, a) == x;
    assert Logical(sh)[a] == LogicalAt(sh, a);
  }

  // Exactly one winner. If every operation changes some word, at least one call
  // completed and none is in flight, then exactly one operation returned Ok, every other returned
  // ValueWasNotExpectedValue, and every target holds the winner's desired value.
  lemma ExactlyOneWins(cfg: Config, run: seq<World>, entry: seq<KWord>, someone: OpId) returns (winner: OpId)
    requires cfg.stable && cfg.mono && Contest(cfg, run, entry) && EveryoneChanges(Last(run))
    requires AllReturned(Last(run)) && someone in Last(run).hist.results
    ensures Wins(Last(run), winner)
    ensures forall op :: Wins(Last(run), op) ==> op == winner
  {
    var last := |run| - 1;
    winner := OneSetOfValues(cfg, run, entry, someone);
    ResultRecorded(cfg, run, last, winner);
    var m := CommitOf(cfg, run, last, winner);
    forall p | p in run[last].hist.results && p != winner
      ensures run[last].hist.results[p] == ValueWasNotExpectedValue
    {
      LoserFails(cfg, run, entry, m, winner, p);
    }
  }

  lemma LoserFails(cfg: Config, run: seq<World>, entry: seq<KWord>, m: nat, op: OpId, p: OpId)
    requires cfg.stable && cfg.mono && Contest(cfg, run, entry) && EveryoneChanges(Last(run))
    requires CommitsAt(run, m, op)
    requires p in Last(run).hist.results && p != op
    ensures Last(run).hist.results[p] == ValueWasNotExpectedValue
  {
    ResultRecorded(cfg, run, |run| - 1, p);
    if Last(run).hist.results[p] == Ok {
      var j := CommitOf(cfg, run, |run| - 1, p);
      CommitsOnce(cfg, run, entry, m, op, j, p);
      OneCommitPerStep(cfg, run, m, op, p);
    }
  }

  // ------------------------------------------------- one operation per slot

  // No slot starts a second operation, as when each thread makes one call.
  ghost predicate OneShot(cfg: Config, run: seq<World>) {
    forall n :: 0 <= n < |run| - 1 ==> FirstCallOnly(cfg, run, n)
  }

  ghost predicate FirstCallOnly(cfg: Config, run: seq<World>, n: nat)
    requires n + 1 < |run|
  {
    FirstCall(cfg, run[n], run[n + 1])
  }

  ghost predicate FirstCall(cfg: Config, w: World, w': World) {
    forall t: nat, words :: Begin(cfg, w, w', t, words) && t < |w.sh.slots| ==> w.sh.slots[t].seqno == 0
  }

  // Without a second operation no slot is reused under a working helper.
  lemma OneShotIsStable(cfg: Config, run: seq<World>)
    requires Run(cfg, run) && OneShot(cfg, run)
    ensures Run(cfg.(stable := true), run)
  {
    forall n | 0 <= n < |run| - 1 ensures NextAt(cfg.(stable := true), run, n) {
      StableStep(cfg, run, n);
    }
  }

  lemma StableStep(cfg: Config, run: seq<World>, n: nat)
    requires Run(cfg, run) && n + 1 < |run| && FirstCallOnly(cfg, run, n)
    ensures Next(cfg.(stable := true), run[n], run[n + 1])
  {
    RunStep(cfg, run, n);
    var w, w', strict := run[n], run[n + 1], cfg.(stable := true);
    if t: nat, words :| Begin(cfg, w, w', t, words) {
      NobodyAtWork(cfg, w, t);
      assert Begin(strict, w, w', t, words);
    } else if t: nat :| Execute(cfg, w, w', t) {
      assert Execute(strict, w, w', t);
    } else if t: nat :| Spurious(cfg, w, w', t) {
      assert Spurious(strict, w, w', t);
    }
  }

  // A slot that has never run an operation has no helpers.
  lemma NobodyAtWork(cfg: Config, w: World, t: nat)
    requires Inv(cfg, w) && t < |w.stacks| && w.stacks[t] == [] && w.sh.slots[t].seqno == 0
    ensures !HelperAtWork(w.stacks, t)
  {
    forall u, d | 0 <= u < |w.stacks| && 0 <= d < |w.stacks[u]|
      ensures w.stacks[u][d].slot == t ==> w.stacks[u][d].pc.HelpLoad?
    {
      assert FramesInv(w.sh, w.hist, cfg.k, w.stacks[u]) && StackShape(w.stacks[u], u);
      assert FrameInv(w.sh, w.hist, cfg.k, w.stacks[u][d]);
    }
  }

  // The contest of the repository's test: one call per thread.
  lemma OneShotWinner(cfg: Config, run: seq<World>, entry: seq<KWord>, someone: OpId) returns (winner: OpId)
    requires cfg.mono && Contest(cfg, run, entry) && OneShot(cfg, run) && EveryoneChanges(Last(run))
    requires AllReturned(Last(run)) && someone in Last(run).hist.results
    ensures Wins(Last(run), winner)
    ensures forall op :: Wins(Last(run), op) ==> op == winner
  {
    OneShotIsStable(cfg, run);
    winner := ExactlyOneWins(cfg.(stable := true), run, entry, someone);
  }
}
