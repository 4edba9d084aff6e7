// The two models meet: a reachable state of the interleaved machine whose
// markers all belong to live operations is one a solo call can start from, and
// the solo call's steps continue the machine's run.
module SoloMeetsMachine {
  import opened KcasTypes
  import opened StepMachine
  import opened ProtocolInvariant
  import opened CallerPromises
  import opened SoloSpec
  import opened SoloRuns
  import opened SoloSteps

  // Every marker belongs to an operation still between its start and its end.
  ghost predicate MarkersAreLive(sh: Shared) {
    forall a :: 0 <= a < |sh.mem| && sh.mem[a].Marker? ==> MarkerIsLive(sh, sh.mem[a])
  }

  ghost predicate MarkerIsLive(sh: Shared, v: Value) {
    v.Marker? && Unfinished(sh, v.slot) && sh.slots[v.slot].seqno == v.seqno
  }

  lemma FrozenSlot(cfg: Config, w: World, i: nat)
    requires cfg.ranked && Inv(cfg, w) && PromisesInv(cfg, w) && i < |w.sh.slots|
    ensures SoloSlot(w.sh, cfg.k, cfg.rank, i)
  {
    assert SlotShape(w.sh, cfg.k, i) && SlotMarks(w.sh, w.hist, cfg.k, i);
    if Unfinished(w.sh, i) {
      LiveAccepted(cfg, w, i);
      var words := w.sh.slots[i].words;
      forall x | 0 <= x < cfg.k ensures CleanWord(words[x], |w.sh.mem|) {
        assert WordShape(words[x], |w.sh.mem|);
      }
    }
  }

  // A reachable state meets everything a solo call asks for exactly when all
  // its markers are live.
  lemma FrozenIsSolo(cfg: Config, run: seq<World>, n: nat)
    requires cfg.ranked && Run(cfg, run) && n < |run|
    ensures SoloInv(run[n].sh, cfg.k, cfg.rank) <==> MarkersAreLive(run[n].sh)
  {
    var w := run[n];
    RunInvariant(cfg, run, n);
    RunPromises(cfg, run, n);
    RankCovers(cfg, run, n);
    forall i | 0 <= i < |w.sh.slots| ensures SoloSlot(w.sh, cfg.k, cfg.rank, i) {
      FrozenSlot(cfg, w, i);
    }
    if MarkersAreLive(w.sh) {
      forall a | 0 <= a < |w.sh.mem| ensures SoloValue(w.sh, a) {
        FrozenValue(cfg, w, a);
      }
    } else {
      var a: nat :| a < |w.sh.mem| && w.sh.mem[a].Marker? && !MarkerIsLive(w.sh, w.sh.mem[a]);
      assert !SoloValue(w.sh, a);
    }
  }

  lemma FrozenValue(cfg: Config, w: World, a: Addr)
    requires Inv(cfg, w) && MarkersAreLive(w.sh) && a < |w.sh.mem|
    ensures SoloValue(w.sh, a)
  {
    assert ValueInv(w.sh, w.sh.mem[a]);
    if w.sh.mem[a].Marker? {
      assert SlotMarks(w.sh, w.hist, cfg.k, w.sh.mem[a].slot);
    }
  }

  lemma {:induction false} RankCovers(cfg: Config, run: seq<World>, n: nat)
    requires Run(cfg, run) && n < |run|
    ensures |run[n].sh.mem| == |cfg.rank|
    decreases n
  {
    if n > 0 {
      RankCovers(cfg, run, n - 1);
      assert NextAt(cfg, run, n - 1);
      NextKeepsSize(cfg, run[n - 1], run[n]);
    }
  }

  lemma NextKeepsSize(cfg: Config, w: World, w': World)
    requires Next(cfg, w, w')
    ensures |w'.sh.mem| == |w.sh.mem|
  {
    if t: nat :| Execute(cfg, w, w', t) {
      ExecKeepsSize(w.sh, Last(w.stacks[t]), cfg.k);
    }
  }

  lemma ExecKeepsSize(sh: Shared, f: Frame, k: nat)
    requires InRange(sh, f, k) && !f.pc.ClaimHelping?
    ensures |Exec(sh, f, k).sh.mem| == |sh.mem|
  {
  }

  // ------------------------------------------------- continuing the run

  // `w'` differs from `w` only in the shared state and thread `t`'s stack.
  ghost predicate OnlyMoved(w: World, w': World, t: nat) {
    && w'.taken == w.taken && |w'.stacks| == |w.stacks|
    && forall u :: 0 <= u < |w.stacks| && u != t ==> w'.stacks[u] == w.stacks[u]
  }

  lemma Append(cfg: Config, run: seq<World>, w: World)
    requires Run(cfg, run) && Next(cfg, Last(run), w)
    ensures Run(cfg, run + [w])
  {
    var more := run + [w];
    forall n | 0 <= n < |more| - 1 ensures NextAt(cfg, more, n) {
      if n < |run| - 1 { assert NextAt(cfg, run, n); }
    }
  }

  // A claim's compare-and-swap is a weak one: at any time it may fail although the
  // value matches, and the claim tries again.
  lemma WeakSwapMayFail(cfg: Config, run: seq<World>, t: nat)
    requires Run(cfg, run) && t < |Last(run).stacks| && Last(run).stacks[t] != []
    requires Last(Last(run).stacks[t]).pc.ClaimCas?
    ensures Run(cfg, run + [Last(run)])
  {
    var w := Last(run);
    RunInvariant(cfg, run, |run| - 1);
    assert FramesInv(w.sh, w.hist, cfg.k, w.stacks[t]);
    FrameInRange(w.sh, w.hist, cfg.k, Last(w.stacks[t]));
    assert Spurious(cfg, w, w, t);
    Append(cfg, run, w);
  }

  // The first `m` steps of a solo trace continue a run of the machine.
  lemma {:induction false} TraceContinues(cfg: Config, run: seq<World>, t: nat, trace: seq<SoloState>, m: nat)
    returns (longer: seq<World>)
    requires Run(cfg, run) && SoloTrace(cfg.k, trace) && m < |trace| && Embeds(Last(run), t, trace[0])
    ensures run <= longer && Run(cfg, longer)
    ensures Embeds(Last(longer), t, trace[m]) && OnlyMoved(Last(run), Last(longer), t)
    decreases m
  {
    if m == 0 {
      longer := run;
    } else {
      longer := TraceContinues(cfg, run, t, trace, m - 1);
      assert SoloStepAt(cfg.k, trace, m - 1);
      if trace[m] != trace[m - 1] {
        var w := SoloStepIsStep(cfg, Last(longer), t, trace[m - 1]);
        Append(cfg, longer, w);
        longer := longer + [w];
      }
    }
  }

  // A call made alone is a run of the machine in which no other thread moves.
  lemma SoloCallIsRun(cfg: Config, run: seq<World>, t: nat, words: seq<KWord>, trace: seq<SoloState>)
    returns (longer: seq<World>)
    requires Run(cfg, run) && SoloTrace(cfg.k, trace)
    requires t < |Last(run).stacks| && t < |Last(run).taken| && Last(run).taken[t] && Last(run).stacks[t] == []
    requires Allowed(cfg, Last(run), t, words)
    requires trace[0] == Running(Last(run).sh, [], Frame(t, 0, true, InitTarget(words, 0)))
    ensures run <= longer && Run(cfg, longer)
    ensures Embeds(Last(longer), t, Last(trace)) && OnlyMoved(Last(run), Last(longer), t)
  {
    var w := Last(run);
    var w' := w.(stacks := w.stacks[t := [Frame(t, 0, true, InitTarget(words, 0))]]);
    assert Begin(cfg, w, w', t, words);
    Append(cfg, run, w');
    longer := TraceContinues(cfg, run + [w'], t, trace, |trace| - 1);
  }

  // ------------------------------------- markers of operations that are over

  // A live claim of word `w` stands before a foreign marker at `a`.
  ghost predicate StandsBefore(sh: Shared, k: nat, f: Frame, w: nat, a: Addr, e: Value) {
    && Live(sh, f, Claiming) && |sh.slots[f.slot].words| == k && w < k && a < |sh.mem|
    && sh.mem[a].Marker? && sh.mem[a] != e && sh.mem[a] != MarkerOf(f)
    && sh.mem[a].slot < |sh.slots| && |sh.slots[sh.mem[a].slot].words| == k
    && Started(sh, sh.mem[a].slot, sh.mem[a].seqno)
  }

  // The states the claim goes through: compare, verify, ask for help.
  function SpinState(sh: Shared, below: seq<Frame>, f: Frame, w: nat, a: Addr, e: Value, n: nat): SoloState
    requires a < |sh.mem| && sh.mem[a].Marker?
  {
    if n % 3 == 0 then At(sh, below, f, ClaimCas(w, a, e))
    else if n % 3 == 1 then At(sh, below, f, ClaimVerify(w, a, e, sh.mem[a]))
    else Running(sh, below + [f.(pc := ClaimHelping(w, a, e))], Frame(sh.mem[a].slot, sh.mem[a].seqno, false, HelpLoad))
  }

  // Alone, the claim is back where it was after three steps exactly when the
  // marker's operation is over.
  lemma SpinsIffDead(sh: Shared, below: seq<Frame>, f: Frame, k: nat, w: nat, a: Addr, e: Value)
    requires StandsBefore(sh, k, f, w, a, e)
    ensures SoloNext(k, SpinState(sh, below, f, w, a, e, 0)) == SpinState(sh, below, f, w, a, e, 1)
    ensures SoloNext(k, SpinState(sh, below, f, w, a, e, 1)) == SpinState(sh, below, f, w, a, e, 2)
    ensures SoloNext(k, SpinState(sh, below, f, w, a, e, 2)) == SpinState(sh, below, f, w, a, e, 0)
            <==> !MarkerIsLive(sh, sh.mem[a])
  {
    var parent := f.(pc := ClaimHelping(w, a, e));
    var h := Frame(sh.mem[a].slot, sh.mem[a].seqno, false, HelpLoad);
    ClaimCasStep(sh, below, f, k, w, a, e);
    ClaimCheckStep(sh, below, f, k, w, a, e, sh.mem[a]);
    if MarkerIsLive(sh, sh.mem[a]) {
      HelpEntryStep(sh, below + [parent], h, k);
    } else {
      HelpRefusedSteps(sh, below, parent, h, k);
    }
  }

  lemma SpinTurns(sh: Shared, below: seq<Frame>, f: Frame, k: nat, w: nat, a: Addr, e: Value, n: nat)
    requires StandsBefore(sh, k, f, w, a, e) && !MarkerIsLive(sh, sh.mem[a])
    ensures SoloNext(k, SpinState(sh, below, f, w, a, e, n)) == SpinState(sh, below, f, w, a, e, n + 1)
  {
    hide SoloNext;
    hide MarkerIsLive;
    SpinsIffDead(sh, below, f, k, w, a, e);
    hide StandsBefore;
    assert n % 3 == 0 ==> (n + 1) % 3 == 1;
    assert n % 3 == 1 ==> (n + 1) % 3 == 2;
    assert n % 3 == 2 ==> (n + 1) % 3 == 0;
  }

  lemma FirstSpin(sh: Shared, below: seq<Frame>, f: Frame, k: nat, w: nat, a: Addr, e: Value)
    requires StandsBefore(sh, k, f, w, a, e)
    ensures SpinState(sh, below, f, w, a, e, 0) == At(sh, below, f, ClaimCas(w, a, e))
  {
  }

  // So alone it never gets past the marker of an operation that is over.
  lemma {:induction false} DeadMarkerBlocks(sh: Shared, below: seq<Frame>, f: Frame, k: nat, w: nat, a: Addr, e: Value,
                                            trace: seq<SoloState>, n: nat)
    requires StandsBefore(sh, k, f, w, a, e) && !MarkerIsLive(sh, sh.mem[a])
    requires SoloTrace(k, trace) && trace[0] == At(sh, below, f, ClaimCas(w, a, e)) && n < |trace|
    ensures trace[n] == SpinState(sh, below, f, w, a, e, n)
    decreases n
  {
    hide SoloNext;
    hide SpinState;
    hide MarkerIsLive;
    if n == 0 {
      FirstSpin(sh, below, f, k, w, a, e);
    } else {
      DeadMarkerBlocks(sh, below, f, k, w, a, e, trace, n - 1);
      assert SoloStepAt(k, trace, n - 1);
      SpinTurns(sh, below, f, k, w, a, e, n - 1);
    }
  }

  // Every claim of a run that runs into a foreign marker is in this position.
  lemma ReachableStands(cfg: Config, run: seq<World>, n: nat, f: Frame, w: nat, a: Addr, e: Value)
    requires Run(cfg, run) && n < |run| && Live(run[n].sh, f, Claiming) && w < cfg.k && a < |run[n].sh.mem|
    requires run[n].sh.mem[a].Marker? && run[n].sh.mem[a] != e && run[n].sh.mem[a] != MarkerOf(f)
    ensures StandsBefore(run[n].sh, cfg.k, f, w, a, e)
  {
    RunInvariant(cfg, run, n);
    assert SlotShape(run[n].sh, cfg.k, f.slot) && ValueInv(run[n].sh, run[n].sh.mem[a]);
    assert SlotShape(run[n].sh, cfg.k, run[n].sh.mem[a].slot);
  }
}
