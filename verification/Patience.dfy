// A promise about calls, visible to the callers, that gives the promise about
// helpers the theorems ask for.
module PatientCalls {
  import opened KcasTypes
  import opened StepMachine
  import opened ProtocolInvariant
  import opened SafetyTheorems
  import opened NoOrphanMarkers

  // Thread `u` has been in one and the same call from state `m` to state `n`.
  ghost predicate InFlight(run: seq<World>, u: nat, m: nat, n: nat) {
    && m <= n < |run|
    && forall j :: m <= j <= n ==> Busy(run[j], u)
  }

  ghost predicate Busy(w: World, u: nat) {
    u < |w.stacks| && w.stacks[u] != []
  }

  ghost predicate OpLive(w: World, i: nat) {
    i < |w.sh.slots| && w.sh.slots[i].stage != Inactive
  }

  // No call in flight at state `n` was in flight when an operation of slot `t` was
  // live.
  ghost predicate PatientAt(run: seq<World>, n: nat, t: nat) {
    forall m: nat, u: nat :: InFlight(run, u, m, n) && m < |run| ==> !OpLive(run[m], t)
  }

  ghost predicate BeginAt(cfg: Config, run: seq<World>, n: nat, t: nat, words: seq<KWord>)
    requires n + 1 < |run|
  {
    Begin(cfg, run[n], run[n + 1], t, words)
  }

  ghost predicate PatientStep(cfg: Config, run: seq<World>, n: nat)
    requires n + 1 < |run|
  {
    forall t, words :: BeginAt(cfg, run, n, t, words) ==> PatientAt(run, n, t)
  }

  // Every call waits for the calls that overlapped with earlier ones of its slot.
  ghost predicate Patient(cfg: Config, run: seq<World>) {
    forall n :: 0 <= n < |run| - 1 ==> PatientStep(cfg, run, n)
  }

  // ------------------------------------- helpers have seen a live operation

  ghost predicate SawLive(run: seq<World>, n: nat, u: nat, i: nat) {
    exists m: nat :: InFlight(run, u, m, n) && m < |run| && OpLive(run[m], i)
  }

  ghost predicate HelpersSaw(run: seq<World>, n: nat)
    requires n < |run|
  {
    forall u, d :: 0 <= u < |run[n].stacks| && 0 < d < |run[n].stacks[u]| && AtWork(run[n].stacks[u][d])
      ==> SawLive(run, n, u, run[n].stacks[u][d].slot)
  }

  // A helper at work after a step was at work before it, or its operation is live.
  lemma WorkingHelper(cfg: Config, w: World, w': World, t: nat, d: nat)
    requires Inv(cfg, w) && Inv(cfg, w') && Execute(cfg, w, w', t)
    requires t < |w'.stacks| && 0 < d < |w'.stacks[t]| && AtWork(w'.stacks[t][d])
    ensures var g := w'.stacks[t][d];
            || OpLive(w', g.slot)
            || (d < |w.stacks[t]| && AtWork(w.stacks[t][d]) && w.stacks[t][d].slot == g.slot)
  {
    hide Exec;
    var f := Last(w.stacks[t]);
    FrameOfStep(cfg, w, w', t);
    StackBelow(w.stacks[t], t, Exec(w.sh, f, cfg.k).move, d);
    if AtWork(f) {
      SameOp(w.sh, f, cfg.k);
    } else {
      StartsWork(w.sh, w.hist, cfg.k, f);
    }
  }

  // Below its top a stack keeps its operations.
  lemma StackBelow(stack: seq<Frame>, t: nat, m: Move, d: nat)
    requires stack != [] && StackShape(stack, t) && d < |Restack(stack, m)|
    ensures var g := Restack(stack, m)[d];
            || (d < |stack| - 1 && g.slot == stack[d].slot && (AtWork(g) ==> AtWork(stack[d])))
            || (d == |stack| - 1 && (m.Goto? || m.Call?) && g == m.frame)
            || (d == |stack| && m.Call? && g == m.child)
  {
  }

  lemma SawLonger(run: seq<World>, n: nat, u: nat, i: nat)
    requires SawLive(run, n, u, i) && n + 1 < |run| && Busy(run[n + 1], u)
    ensures SawLive(run, n + 1, u, i)
  {
    var m: nat :| InFlight(run, u, m, n) && m < |run| && OpLive(run[m], i);
    assert InFlight(run, u, m, n + 1);
  }

  lemma SeesLive(run: seq<World>, n: nat, u: nat, i: nat)
    requires n < |run| && Busy(run[n], u) && OpLive(run[n], i)
    ensures SawLive(run, n, u, i)
  {
    assert InFlight(run, u, n, n);
  }

  lemma NobodyYet(cfg: Config, run: seq<World>)
    requires Run(cfg, run)
    ensures HelpersSaw(run, 0)
  {
  }

  lemma StepAt(cfg: Config, run: seq<World>, n: nat)
    requires Run(cfg, run) && n + 1 < |run|
    ensures NextAt(cfg, run, n)
  {
  }

  lemma {:induction false} RunSaw(cfg: Config, run: seq<World>, n: nat)
    requires Run(cfg, run) && n < |run|
    ensures HelpersSaw(run, n)
    decreases n
  {
    hide Inv;
    hide NextAt;
    hide AtWork;
    if n == 0 {
      NobodyYet(cfg, run);
    } else {
      RunSaw(cfg, run, n - 1);
      RunInvariant(cfg, run, n - 1);
      RunInvariant(cfg, run, n);
      StepAt(cfg, run, n - 1);
      forall u, d | 0 <= u < |run[n].stacks| && 0 < d < |run[n].stacks[u]| && AtWork(run[n].stacks[u][d])
        ensures SawLive(run, n, u, run[n].stacks[u][d].slot)
      {
        StepSaw(cfg, run, n - 1, u, d);
      }
    }
  }

  lemma StepSaw(cfg: Config, run: seq<World>, n: nat, u: nat, d: nat)
    requires n + 1 < |run| && HelpersSaw(run, n) && NextAt(cfg, run, n)
    requires Inv(cfg, run[n]) && Inv(cfg, run[n + 1])
    requires u < |run[n + 1].stacks| && 0 < d < |run[n + 1].stacks[u]| && AtWork(run[n + 1].stacks[u][d])
    ensures SawLive(run, n + 1, u, run[n + 1].stacks[u][d].slot)
  {
    hide Inv;
    hide Exec;
    hide AtWork;
    var w, w' := run[n], run[n + 1];
    var g := w'.stacks[u][d];
    if t: nat :| Execute(cfg, w, w', t) && u == t {
      WorkingHelper(cfg, w, w', t, d);
      if OpLive(w', g.slot) { SeesLive(run, n + 1, u, g.slot); }
      else { SawLonger(run, n, u, g.slot); }
    } else {
      assert d < |w.stacks[u]| && w.stacks[u][d] == g;
      SawLonger(run, n, u, g.slot);
    }
  }

  // ----------------------------------------------------------- the theorem

  lemma PatientNobodyAtWork(cfg: Config, run: seq<World>, n: nat, t: nat)
    requires Run(cfg, run) && n < |run| && PatientAt(run, n, t)
    requires t < |run[n].stacks| && run[n].stacks[t] == []
    ensures !HelperAtWork(run[n].stacks, t)
  {
    RunInvariant(cfg, run, n);
    RunSaw(cfg, run, n);
    var w := run[n];
    forall u, d | 0 <= u < |w.stacks| && 0 <= d < |w.stacks[u]|
      ensures w.stacks[u][d].slot == t ==> w.stacks[u][d].pc.HelpLoad?
    {
      assert FramesInv(w.sh, w.hist, cfg.k, w.stacks[u]) && StackShape(w.stacks[u], u);
      assert FrameInv(w.sh, w.hist, cfg.k, w.stacks[u][d]);
      assert AtWork(w.stacks[u][d]) && d > 0 ==> SawLive(run, n, u, w.stacks[u][d].slot);
    }
  }

  // Patient callers keep the promise `stable`.
  lemma PatientIsStable(cfg: Config, run: seq<World>)
    requires Run(cfg, run) && Patient(cfg, run)
    ensures Run(cfg.(stable := true), run)
  {
    forall n | 0 <= n < |run| - 1 ensures NextAt(cfg.(stable := true), run, n) {
      assert NextAt(cfg, run, n) && PatientStep(cfg, run, n);
      StableNext(cfg, run, n);
    }
  }

  lemma StableNext(cfg: Config, run: seq<World>, n: nat)
    requires Run(cfg, run) && n + 1 < |run| && NextAt(cfg, run, n) && PatientStep(cfg, run, n)
    ensures NextAt(cfg.(stable := true), run, n)
  {
    var w, w', steady := run[n], run[n + 1], cfg.(stable := true);
    if t: nat, words :| Begin(cfg, w, w', t, words) {
      assert BeginAt(cfg, run, n, t, words);
      PatientNobodyAtWork(cfg, run, n, t);
      assert Begin(steady, w, w', t, words);
    } else if t: nat :| Execute(cfg, w, w', t) {
      assert Execute(steady, w, w', t);
    } else if t: nat :| Spurious(cfg, w, w', t) {
      assert Spurious(steady, w, w', t);
    }
  }

  // It is enough that no call overlaps with two calls of another slot: a promise
  // about nothing but the times of calls and returns.
  ghost predicate NoStraddling(cfg: Config, run: seq<World>) {
    forall n :: 0 <= n < |run| - 1 ==> NoStraddlingStep(cfg, run, n)
  }

  ghost predicate NoStraddlingStep(cfg: Config, run: seq<World>, n: nat)
    requires n + 1 < |run|
  {
    forall t, words :: BeginAt(cfg, run, n, t, words) ==>
      forall m: nat, u: nat :: InFlight(run, u, m, n) && m < |run| ==> !Busy(run[m], t)
  }

  lemma NoStraddlingIsPatient(cfg: Config, run: seq<World>)
    requires Run(cfg, run) && NoStraddling(cfg, run)
    ensures Patient(cfg, run)
  {
    forall n | 0 <= n < |run| - 1 ensures PatientStep(cfg, run, n) {
      assert NoStraddlingStep(cfg, run, n);
      forall t, words | BeginAt(cfg, run, n, t, words) ensures PatientAt(run, n, t) {
        forall m: nat, u: nat | InFlight(run, u, m, n) && m < |run| ensures !OpLive(run[m], t) {
          RunInvariant(cfg, run, m);
          assert !Busy(run[m], t);
        }
      }
    }
  }
}
