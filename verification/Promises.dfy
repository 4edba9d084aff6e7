// The promises `stable` and `mono` decide atomicity: for every number of slots,
// words and addresses, what callers must promise for all runs to be atomic.
module PromisesDecide {
  import opened KcasTypes
  import opened StepMachine
  import opened NoOrphanMarkers
  import opened AtomicRefinement
  import opened Linearizability
  import opened SequentialHistory
  import opened FewSlots
  import opened TwoSlots
  import opened WitnessRuns
  import LateOwner
  import RecurringValues
  import ReusedDescriptors

  // Every run over `slots` slots refines the atomic multi-word compare-and-swap.
  ghost predicate EveryRunRefines(cfg: Config, slots: nat) {
    forall run: seq<World> :: Run(cfg, run) && |run[0].stacks| == slots ==> Refines(run)
  }

  // Whenever all calls have returned, some order of the successful ones explains
  // the final memory.
  ghost predicate EveryQuietRunExplained(cfg: Config, slots: nat) {
    forall run: seq<World> :: Run(cfg, run) && |run[0].stacks| == slots && AllReturned(Last(run)) ==> Explainable(run)
  }

  ghost predicate CanCall(cfg: Config) {
    exists line :: Chain(cfg, line)
  }

  // What it takes: both promises, unless there are so few slots that the code keeps
  // them by itself, or no call can be made at all.
  ghost predicate Enough(cfg: Config, slots: nat) {
    || !CanCall(cfg)
    || slots <= 1
    || (cfg.stable && (cfg.mono || (slots == 2 && cfg.k == 1)))
  }

  // What it takes for calls and final memory only. With two slots `mono` is not needed:
  // what a late claim does is undone unseen.
  ghost predicate EnoughSeen(cfg: Config, slots: nat) {
    Enough(cfg, slots) || (cfg.stable && slots == 2)
  }

  // -------------------------------------------------------- what is enough

  // Where no call can be made all promises are kept.
  lemma NoCallsKeep(cfg: Config, run: seq<World>)
    requires Run(cfg, run) && !CanCall(cfg)
    ensures Run(cfg.(stable := true, mono := true), run)
  {
    forall n | 0 <= n < |run| - 1 ensures NextAt(cfg.(stable := true, mono := true), run, n) {
      assert NextAt(cfg, run, n);
      SoloMeetsMachine.RankCovers(cfg, run, n);
      NoCallsNext(cfg, run[n], run[n + 1]);
    }
  }

  lemma NoCallsNext(cfg: Config, w: World, w': World)
    requires Next(cfg, w, w') && !CanCall(cfg) && cfg.k > 0 && |w.sh.mem| == |cfg.rank|
    ensures Next(cfg.(stable := true, mono := true), w, w')
  {
    var strict := cfg.(stable := true, mono := true);
    if t: nat, words :| Begin(cfg, w, w', t, words) {
      CallsHaveChains(cfg, words);
    } else if t: nat :| Execute(cfg, w, w', t) {
      assert Execute(strict, w, w', t);
    } else if t: nat :| Spurious(cfg, w, w', t) {
      assert Spurious(strict, w, w', t);
    }
  }

  // The targets of a call are such a line.
  lemma CallsHaveChains(cfg: Config, words: seq<KWord>)
    requires ValidWords(words, cfg.k, |cfg.rank|) && (cfg.ranked ==> Ranked(words, cfg.rank)) && cfg.k > 0
    ensures CanCall(cfg)
  {
    assert forall x :: 0 <= x < cfg.k ==> CleanWord(words[x], |cfg.rank|);
    var line := seq(cfg.k, x requires 0 <= x < cfg.k => words[x].target.value);
    forall x, y | 0 <= x < y < cfg.k
      ensures line[x] != line[y] && (cfg.ranked ==> cfg.rank[line[x]] < cfg.rank[line[y]])
    {
      assert words[x].target != words[y].target;
      assert cfg.ranked ==> RankOf(words[x].target, cfg.rank) < RankOf(words[y].target, cfg.rank);
    }
    assert Chain(cfg, line);
  }

  lemma EnoughRefines(cfg: Config, run: seq<World>)
    requires Run(cfg, run) && Enough(cfg, |run[0].stacks|)
    ensures Refines(run)
    ensures AllReturned(Last(run)) ==> Explainable(run)
  {
    var strict := KeptBy(cfg, run);
    TimelyRefines(strict, run);
    if AllReturned(Last(run)) {
      QuietMemoryIsClean(strict, run, |run| - 1);
      RefiningRunExplained(cfg, run);
    }
  }

  // Whatever is enough makes every claim timely.
  lemma KeptBy(cfg: Config, run: seq<World>) returns (strict: Config)
    requires Run(cfg, run) && Enough(cfg, |run[0].stacks|)
    ensures Timely(strict, run)
  {
    if !CanCall(cfg) {
      strict := cfg.(stable := true, mono := true);
      NoCallsKeep(cfg, run);
      NeverShrinkingIsTimely(strict, run);
    } else if |run[0].stacks| <= 1 {
      strict := cfg.(stable := true);
      SingleIsStable(cfg, run);
      SingleIsTimely(strict, run);
    } else if cfg.mono {
      strict := cfg;
      NeverShrinkingIsTimely(cfg, run);
    } else {
      strict := cfg;
      TwoAreTimely(cfg, run);
    }
  }

  // -------------------------------------------------------- and what is not

  ghost predicate SomeRunBreaks(cfg: Config, slots: nat) {
    exists run: seq<World> :: Run(cfg, run) && |run[0].stacks| == slots && !Refines(run)
  }

  ghost predicate SomeQuietRunBreaks(cfg: Config, slots: nat) {
    exists run: seq<World> ::
      Run(cfg, run) && |run[0].stacks| == slots && AllReturned(Last(run)) && !Explainable(run)
  }

  lemma BrokenQuietRun(cfg: Config, slots: nat, line: seq<Addr>)
    requires Chain(cfg, line) && (if cfg.stable then slots >= 3 && !cfg.mono else slots >= 2)
    ensures SomeRunBreaks(cfg, slots) && SomeQuietRunBreaks(cfg, slots)
  {
    var mem := seq(|cfg.rank|, _ => Clean(0));
    var run;
    if cfg.stable {
      run := RecurringValues.RecurrenceBreaksAtomicity(Setup(cfg, line, 3, slots - 3, mem));
    } else {
      run := ReusedDescriptors.ReuseBreaksAtomicity(Setup(cfg, line, 2, slots - 2, mem));
    }
    NotRefining(cfg, run);
  }

  lemma NotRefining(cfg: Config, run: seq<World>)
    requires Run(cfg, run) && AllReturned(Last(run)) && !Explainable(run)
    requires forall a :: 0 <= a < |Last(run).sh.mem| ==> Last(run).sh.mem[a].Clean?
    ensures !Refines(run)
  {
    if Refines(run) { RefiningRunExplained(cfg, run); }
  }

  // Two slots are enough to break the refinement when calls have two words.
  lemma BrokenStep(cfg: Config, line: seq<Addr>)
    requires Chain(cfg, line) && cfg.k >= 2 && !cfg.mono
    ensures SomeRunBreaks(cfg, 2)
  {
    var run, m := LateOwner.LateOwnerReads(Setup(cfg, line, 2, 0, seq(|cfg.rank|, _ => Clean(0))));
    forall op ensures !CommitsAt(run, m, op) {
      if CommitsAt(run, m, op) { CommitIsNew(cfg, run, m, op); }
    }
    assert !StepRefines(run, LogicalView(run), m);
  }

  // ------------------------------------------------------------ the theorem

  // For every configuration and every number of slots: all runs refine the atomic
  // object if and only if the callers promise enough.
  lemma PromisesDecideRefinement(cfg: Config, slots: nat)
    ensures EveryRunRefines(cfg, slots) <==> Enough(cfg, slots)
  {
    if Enough(cfg, slots) {
      forall run: seq<World> | Run(cfg, run) && |run[0].stacks| == slots ensures Refines(run) {
        EnoughRefines(cfg, run);
      }
    } else {
      var line :| Chain(cfg, line);
      if !cfg.stable || slots >= 3 {
        BrokenQuietRun(cfg, slots, line);
      } else {
        BrokenStep(cfg, line);
      }
    }
  }

  // And all runs in which every call has returned are explained by an order of their
  // successful calls if and only if the callers promise enough for that.
  lemma PromisesDecideAtomicity(cfg: Config, slots: nat)
    ensures EveryQuietRunExplained(cfg, slots) <==> EnoughSeen(cfg, slots)
  {
    if EnoughSeen(cfg, slots) {
      forall run: seq<World> | Run(cfg, run) && |run[0].stacks| == slots && AllReturned(Last(run))
        ensures Explainable(run)
      {
        if Enough(cfg, slots) { EnoughRefines(cfg, run); } else { TwoSlotsExplained(cfg, run); }
      }
    } else {
      var line :| Chain(cfg, line);
      BrokenQuietRun(cfg, slots, line);
    }
  }
}
