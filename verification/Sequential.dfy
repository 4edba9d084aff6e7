// The meaning of a whole run: the operations committed in it, in order, are a
// sequential history of atomic multi-word swaps that yields every state's
// logical memory and respects the order of calls in real time.
module SequentialHistory {
  import opened KcasTypes
  import opened StepMachine
  import opened ProtocolInvariant
  import opened SafetyTheorems
  import opened NoOrphanMarkers
  import opened AtomicRefinement
  import opened AtomicSwaps
  import opened Linearizability

  function NewCommits(w: World, w': World): set<OpId> {
    w'.hist.committed - w.hist.committed
  }

  // The operations committed by step `n`, in the order of their commits.
  ghost function CommitLog(run: seq<World>, n: nat): (log: seq<Entry>)
    requires n < |run|
  {
    if n == 0 then []
    else if NewCommits(run[n - 1], run[n]) != {} then
      var op :| op in NewCommits(run[n - 1], run[n]);
      CommitLog(run, n - 1) + [Entry(op, WordsOf(run[n - 1], op))]
    else CommitLog(run, n - 1)
  }

  // `log` lists each committed operation of `w` once, with its caller's words.
  ghost predicate Lists(w: World, log: seq<Entry>) {
    && (forall i :: 0 <= i < |log| ==> log[i].op in w.hist.committed && log[i].words == WordsOf(w, log[i].op))
    && (forall i, j :: 0 <= i < j < |log| ==> log[i].op != log[j].op)
    && (forall op :: op in w.hist.committed ==> Listed(log, op))
  }

  ghost predicate Listed(log: seq<Entry>, op: OpId) {
    exists i :: 0 <= i < |log| && log[i].op == op
  }

  lemma ListStays(cfg: Config, run: seq<World>, n: nat, log: seq<Entry>)
    requires Run(cfg, run) && n + 1 < |run| && Lists(run[n], log)
    requires run[n + 1].hist.committed == run[n].hist.committed
    ensures Lists(run[n + 1], log)
  {
    forall i | 0 <= i < |log| ensures log[i].words == WordsOf(run[n + 1], log[i].op) {
      CommittedBegan(cfg, run, n, log[i].op);
      WordsStay(cfg, run, n, n + 1, log[i].op);
    }
  }

  lemma CommittedBegan(cfg: Config, run: seq<World>, n: nat, op: OpId)
    requires Run(cfg, run) && n < |run| && op in run[n].hist.committed
    ensures op in run[n].hist.began
  {
    RunInvariant(cfg, run, n);
    assert OpHistory(run[n].sh, run[n].hist, op);
  }

  lemma ListGrows(cfg: Config, run: seq<World>, n: nat, log: seq<Entry>, op: OpId)
    requires Run(cfg, run) && n + 1 < |run| && Lists(run[n], log) && CommitsAt(run, n, op)
    ensures Lists(run[n + 1], log + [Entry(op, WordsOf(run[n], op))])
  {
    var more := log + [Entry(op, WordsOf(run[n], op))];
    CommitIsNew(cfg, run, n, op);
    StepsCommitOne(cfg, run, n, op);
    StartedBegan(cfg, run, n, op);
    WordsStay(cfg, run, n, n + 1, op);
    forall i | 0 <= i < |more|
      ensures more[i].op in run[n + 1].hist.committed && more[i].words == WordsOf(run[n + 1], more[i].op)
    {
      if i < |log| {
        CommittedBegan(cfg, run, n, log[i].op);
        WordsStay(cfg, run, n, n + 1, log[i].op);
      }
    }
    forall p | p in run[n + 1].hist.committed ensures Listed(more, p) {
      if p == op {
        assert more[|log|].op == p;
      } else {
        var i :| 0 <= i < |log| && log[i].op == p;
        assert more[i].op == p;
      }
    }
  }

  lemma StepsCommitOne(cfg: Config, run: seq<World>, n: nat, op: OpId)
    requires Run(cfg, run) && CommitsAt(run, n, op)
    ensures run[n + 1].hist.committed == run[n].hist.committed + {op}
  {
    RunStep(cfg, run, n);
    CommitIsNew(cfg, run, n, op);
    var t := WhoCommitted(cfg, run[n], run[n + 1], op);
  }

  // A way to read every state's memory.
  type View = seq<seq<nat>>

  // Read so, every commit is an atomic multi-word compare-and-swap of its
  // operation's words, and every other step leaves memory as it is.
  ghost predicate RefinesAs(run: seq<World>, view: View) {
    |view| == |run| && forall n :: 0 <= n < |run| - 1 ==> StepRefines(run, view, n)
  }

  ghost predicate StepRefines(run: seq<World>, view: View, n: nat)
    requires n + 1 < |run| == |view|
  {
    && (forall op :: CommitsAt(run, n, op) ==> AtomicKcas(view[n], view[n + 1], WordsOf(run[n], op)))
    && ((forall op :: !CommitsAt(run, n, op)) ==> view[n + 1] == view[n])
  }

  function LogicalView(run: seq<World>): (view: View)
    ensures |view| == |run| && forall n :: 0 <= n < |run| ==> view[n] == Logical(run[n].sh)
  {
    seq(|run|, n requires 0 <= n < |run| => Logical(run[n].sh))
  }

  ghost predicate Refines(run: seq<World>) {
    RefinesAs(run, LogicalView(run))
  }

  lemma TimelyRefines(cfg: Config, run: seq<World>)
    requires Timely(cfg, run)
    ensures Refines(run)
  {
    forall n | 0 <= n < |run| - 1 ensures StepRefines(run, LogicalView(run), n) {
      forall op | CommitsAt(run, n, op)
        ensures AtomicKcas(Logical(run[n].sh), Logical(run[n + 1].sh), WordsOf(run[n], op))
      {
        TimelyCommit(cfg, run, n, op);
      }
      if forall op :: !CommitsAt(run, n, op) {
        TimelySilence(cfg, run, n);
      }
    }
  }

  lemma PromisesRefine(cfg: Config, run: seq<World>)
    requires cfg.stable && cfg.mono && Run(cfg, run)
    ensures Refines(run)
  {
    NeverShrinkingIsTimely(cfg, run);
    TimelyRefines(cfg, run);
  }

  // The state's memory is the initial one after the swaps of the operations committed
  // so far, each applied to a memory it matches.
  ghost predicate Sequential(run: seq<World>, view: View, n: nat)
    requires n < |run| == |view|
  {
    && Lists(run[n], CommitLog(run, n))
    && Fits(view[0], CommitLog(run, n))
    && view[n] == Replay(view[0], CommitLog(run, n))
  }

  lemma {:induction false} ViewIsSequential(cfg: Config, run: seq<World>, view: View, n: nat)
    requires Run(cfg, run) && RefinesAs(run, view) && n < |run|
    ensures Sequential(run, view, n)
    decreases n
  {
    hide Sequential;
    if n == 0 {
      NothingCommitted(cfg, run, view);
    } else {
      ViewIsSequential(cfg, run, view, n - 1);
      assert StepRefines(run, view, n - 1);
      if NewCommits(run[n - 1], run[n]) != {} {
        SequentialCommit(cfg, run, view, n - 1);
      } else {
        SequentialSilence(cfg, run, view, n - 1);
      }
    }
  }

  lemma NothingCommitted(cfg: Config, run: seq<World>, view: View)
    requires Run(cfg, run) && |view| == |run|
    ensures Sequential(run, view, 0)
  {
  }

  lemma SequentialCommit(cfg: Config, run: seq<World>, view: View, n: nat)
    requires Run(cfg, run) && n + 1 < |run| == |view| && StepRefines(run, view, n)
    requires NewCommits(run[n], run[n + 1]) != {} && Sequential(run, view, n)
    ensures Sequential(run, view, n + 1)
  {
    var log := CommitLog(run, n + 1);
    var e := Last(log);
    assert log == CommitLog(run, n) + [e] && e.op in NewCommits(run[n], run[n + 1]);
    CommitStep(cfg, run, n, e.op);
    ListGrows(cfg, run, n, CommitLog(run, n), e.op);
    AtomicIsSwap(view[n], view[n + 1], e.words);
    Extend(view[0], CommitLog(run, n), e);
  }

  lemma SequentialSilence(cfg: Config, run: seq<World>, view: View, n: nat)
    requires Run(cfg, run) && n + 1 < |run| == |view| && StepRefines(run, view, n)
    requires NewCommits(run[n], run[n + 1]) == {} && Sequential(run, view, n)
    ensures Sequential(run, view, n + 1)
  {
    CommittedGrows(cfg, run, n);
    assert run[n + 1].hist.committed == run[n].hist.committed + NewCommits(run[n], run[n + 1]);
    forall op ensures !CommitsAt(run, n, op) {
      if CommitsAt(run, n, op) { CommitIsNew(cfg, run, n, op); }
    }
    ListStays(cfg, run, n, CommitLog(run, n));
  }

  // In every state of a run that refines the atomic object logical memory is what the
  // commits so far, in their order, make of the first one.
  lemma RunIsSequential(cfg: Config, run: seq<World>, n: nat)
    requires Run(cfg, run) && Refines(run) && n < |run|
    ensures Lists(run[n], CommitLog(run, n)) && Fits(Logical(run[0].sh), CommitLog(run, n))
    ensures Logical(run[n].sh) == Replay(Logical(run[0].sh), CommitLog(run, n))
  {
    ViewIsSequential(cfg, run, LogicalView(run), n);
  }

  lemma CommittedGrows(cfg: Config, run: seq<World>, n: nat)
    requires Run(cfg, run) && n + 1 < |run|
    ensures run[n].hist.committed <= run[n + 1].hist.committed
  {
    RunStep(cfg, run, n);
    var mover := NextRely(cfg, run[n], run[n + 1]);
  }

  lemma {:induction false} CommittedStays(cfg: Config, run: seq<World>, n: nat, m: nat)
    requires Run(cfg, run) && n <= m < |run|
    ensures run[n].hist.committed <= run[m].hist.committed
    decreases m
  {
    if n < m {
      CommittedStays(cfg, run, n, m - 1);
      CommittedGrows(cfg, run, m - 1);
    }
  }

  lemma {:induction false} LogGrows(run: seq<World>, n: nat, m: nat)
    requires n <= m < |run|
    ensures CommitLog(run, n) <= CommitLog(run, m)
    decreases m
  {
    if n < m {
      LogGrows(run, n, m - 1);
    }
  }

  // Real-time order: an operation whose call had returned before another one
  // began comes before it in the history.
  lemma RealTimeOrder(cfg: Config, run: seq<World>, r: nat, n: nat, i: nat, j: nat)
    requires Run(cfg, run) && Refines(run) && r <= n < |run|
    requires i < |CommitLog(run, n)| && j < |CommitLog(run, n)|
    requires CommitLog(run, n)[i].op in run[r].hist.results
    requires CommitLog(run, n)[j].op !in run[r].hist.began
    ensures i < j
  {
    RunIsSequential(cfg, run, r);
    RunIsSequential(cfg, run, n);
    LogGrows(run, r, n);
    var first, later := CommitLog(run, n)[i].op, CommitLog(run, n)[j].op;
    ReturnedCommitted(cfg, run, r, n, first);
    var k: nat :| k < |CommitLog(run, r)| && CommitLog(run, r)[k].op == first;
    assert CommitLog(run, n)[k].op == first;
    if j < |CommitLog(run, r)| {
      assert CommitLog(run, r)[j].op == later;
      CommittedBegan(cfg, run, r, later);
    }
  }

  // An operation that has returned and is committed in the end was so already.
  lemma ReturnedCommitted(cfg: Config, run: seq<World>, r: nat, n: nat, op: OpId)
    requires Run(cfg, run) && r <= n < |run| && op in run[r].hist.results && op in run[n].hist.committed
    ensures op in run[r].hist.committed
  {
    RunInvariant(cfg, run, r);
    assert OpHistory(run[r].sh, run[r].hist, op);
    if op in run[r].hist.aborted {
      var a := AbortOf(cfg, run, r, op);
      var c := CommitOf(cfg, run, n, op);
      DecidedOnce(cfg, run, a, c, op, Reverting, Setting);
    }
  }

  // ------------------------------------------------- quiet runs, from outside

  ghost predicate Succeeded(w: World, op: OpId) {
    op in w.hist.results && w.hist.results[op] == Ok
  }

  // `log` puts the calls that returned Ok into an order in which each finds its
  // expected values, starting from the initial memory and ending in the final one.
  ghost predicate Explains(run: seq<World>, log: seq<Entry>)
    requires run != []
  {
    && (forall i :: 0 <= i < |log| ==> Succeeded(Last(run), log[i].op) && log[i].words == WordsOf(Last(run), log[i].op))
    && (forall i, j :: 0 <= i < j < |log| ==> log[i].op != log[j].op)
    && (forall op :: Succeeded(Last(run), op) ==> Listed(log, op))
    && Fits(Logical(run[0].sh), log)
    && Last(run).sh.mem == Cleaned(Replay(Logical(run[0].sh), log))
  }

  function Cleaned(m: seq<nat>): seq<Value> {
    seq(|m|, a requires 0 <= a < |m| => Clean(m[a]))
  }

  ghost predicate Explainable(run: seq<World>)
    requires run != []
  {
    exists log :: Explains(run, log)
  }

  // A quiet run that refines the atomic object is explained by its commits.
  lemma RefiningRunExplained(cfg: Config, run: seq<World>)
    requires Run(cfg, run) && Refines(run) && AllReturned(Last(run))
    requires forall a :: 0 <= a < |Last(run).sh.mem| ==> Last(run).sh.mem[a].Clean?
    ensures Explainable(run)
  {
    ViewedRunExplained(cfg, run, LogicalView(run));
  }

  // It is enough to read the first and the last memory as they are.
  lemma ViewedRunExplained(cfg: Config, run: seq<World>, view: View)
    requires Run(cfg, run) && RefinesAs(run, view) && AllReturned(Last(run))
    requires forall a :: 0 <= a < |Last(run).sh.mem| ==> Last(run).sh.mem[a].Clean?
    requires view[0] == Logical(run[0].sh) && Last(view) == Logical(Last(run).sh)
    ensures Explainable(run)
  {
    var n := |run| - 1;
    var log := CommitLog(run, n);
    ViewIsSequential(cfg, run, view, n);
    forall op ensures Succeeded(run[n], op) <==> op in run[n].hist.committed {
      SucceededCommitted(cfg, run, op);
    }
    CleanReads(run[n].sh);
    assert Explains(run, log);
  }

  // So is every quiet run that keeps the promises.
  lemma QuietRunExplained(cfg: Config, run: seq<World>)
    requires cfg.stable && cfg.mono && Run(cfg, run) && AllReturned(Last(run))
    ensures Explainable(run)
  {
    PromisesRefine(cfg, run);
    QuietMemoryIsClean(cfg, run, |run| - 1);
    RefiningRunExplained(cfg, run);
  }

  lemma SucceededCommitted(cfg: Config, run: seq<World>, op: OpId)
    requires Run(cfg, run) && AllReturned(Last(run))
    ensures Succeeded(Last(run), op) <==> op in Last(run).hist.committed
  {
    if Succeeded(Last(run), op) { ResultRecorded(cfg, run, |run| - 1, op); }
    if op in Last(run).hist.committed {
      var m := CommitOf(cfg, run, |run| - 1, op);
      CommittedReturnedOk(cfg, run, m, op);
    }
  }

  lemma CleanReads(sh: Shared)
    requires forall a :: 0 <= a < |sh.mem| ==> sh.mem[a].Clean?
    ensures sh.mem == Cleaned(Logical(sh))
  {
    forall a | 0 <= a < |sh.mem| ensures sh.mem[a] == Cleaned(Logical(sh))[a] {
      assert Logical(sh)[a] == LogicalAt(sh, a);
    }
  }
}
