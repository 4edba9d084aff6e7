// Calls do not always get on: a run in which every caller keeps every promise can
// reach a state from which a call, although it runs alone, never returns.
module DeadMarkers {
  import opened KcasTypes
  import opened StepMachine
  import opened SoloRuns
  import opened SoloSteps
  import opened SoloMeetsMachine
  import opened CallPhases
  import opened WitnessRuns
  import opened LateHelp
  import LateOwner

  // Thread `t`'s call stands before the marker of an operation that is over.
  ghost predicate Stuck(cfg: Config, w: World, t: nat, f: Frame, x: nat, a: Addr, e: Value) {
    && t < |w.stacks| && w.stacks[t] == [f.(pc := ClaimCas(x, a, e))]
    && StandsBefore(w.sh, cfg.k, f, x, a, e) && !MarkerIsLive(w.sh, w.sh.mem[a])
  }

  function Same(u: Setup): seq<KWord> {
    Op(u.line, 0, 0, 0)
  }

  // ------------------------------------------------ a helper comes too late

  // Three slots make calls that compare with 0. Slot 1's late helper marks the words
  // of slot 0's operation after it has ended, and slot 2 calls.
  lemma HelperLeavesMarkers(u: Setup) returns (run: seq<World>, facts: seq<Fact>)
    requires Scenario(u) && u.busy == 3
    ensures Reached(u, run, Claimed(u), [Slot(Inactive, 1, Same(u)), Waiting(u), IdleSlot(u.cfg.k)],
                    [[], [AskerOf(u), HELPER.(pc := DecideSetting)], []], facts)
  {
    hide Reached;
    var idle, over, asker, f := IdleSlot(u.cfg.k), Slot(Inactive, 1, Same(u)), AskerOf(u), HELPER.(pc := DecideSetting);
    run := HelperPauses(u, 0);
    run := FirstReturns(u, 0, run, Loaded(u));
    facts := Called(u, 0) + [Fact(OpId(0, 0), Up(u, 0), true)];
    assert Two(u, over, Waiting(u)) == [over, Waiting(u), idle];
    assert TwoStacks(u, [], [asker, Loaded(u)]) == [[], [asker, Loaded(u)], []];
    OpValues(u.line, 0, 0, 0);
    run := HelperMarks(u, run, u.mem, [over, Waiting(u), idle], [[], [asker, Loaded(u)], []], facts, 1, u.line,
                       One(|u.line|, 0, Clean(0)), asker, Loaded(u), Clean(0));
    assert [[], [asker, Loaded(u)], []][1 := [asker, f]] == [[], [asker, f], []];
  }

  lemma ThirdCalls(u: Setup) returns (run: seq<World>, facts: seq<Fact>)
    requires Scenario(u) && u.busy == 3
    ensures Reached(u, run, Claimed(u), [Slot(Inactive, 1, Same(u)), Waiting(u), Slot(Claiming, 0, Same(u))],
                    [[], [AskerOf(u), HELPER.(pc := DecideSetting)],
                     [Frame(2, 0, true, ClaimCas(0, u.line[0], Clean(0)))]], facts)
  {
    hide Reached;
    var idle, over, help := IdleSlot(u.cfg.k), Slot(Inactive, 1, Same(u)), [AskerOf(u), HELPER.(pc := DecideSetting)];
    var same, f, g := Slot(Claiming, 0, Same(u)), Frame(2, 0, true, ClaimLoadTarget(0)),
                      Frame(2, 0, true, ClaimCas(0, u.line[0], Clean(0)));
    run, facts := HelperLeavesMarkers(u);
    OpValues(u.line, 0, 0, 0);
    assert !HelperAtWork([[], help, []], 2);
    run := CallStarts(u, run, Claimed(u), [over, Waiting(u), idle], [[], help, []], facts, 2, u.line, Same(u));
    facts := facts + [Fact(OpId(2, 0), Same(u), false)];
    assert [over, Waiting(u), idle][2 := same] == [over, Waiting(u), same];
    assert [[], help, []][2 := [f]] == [[], help, [f]];
    run := OwnerLoads(u, run, Claimed(u), [over, Waiting(u), same], [[], help, [f]], facts, 2, u.line);
    assert [[], help, [f]][2 := [g]] == [[], help, [g]];
  }

  lemma StuckBeforeHelper(u: Setup) returns (run: seq<World>, f: Frame)
    requires Scenario(u) && u.busy == 3
    ensures Run(u.cfg, run) && |run[0].stacks| == 3 + u.idle
    ensures Stuck(u.cfg, Last(run), 2, f, 0, u.line[0], Clean(0))
  {
    var facts;
    run, facts := ThirdCalls(u);
    f := Frame(2, 0, true, ClaimCas(0, u.line[0], Clean(0)));
    LayAt(u.mem, u.line, All(|u.line|, Marker(0, 0)), 0);
    ReachableStands(u.cfg, run, |run| - 1, f, 0, u.line[0], Clean(0));
  }

  // -------------------------------------------------- the owner comes too late

  // Two slots make calls of at least two words.
  lemma SecondCalls(u: Setup) returns (run: seq<World>, facts: seq<Fact>)
    requires LateOwner.TwoWords(u, 0)
    ensures Reached(u, run, Mem(u, One(|u.line|, 1, Marker(0, 0))[0 := Marker(1, 2)]),
                    [Slot(Successful, 0, LateOwner.Raise(u, 0)), Slot(Claiming, 2, Same(u))],
                    [[OWNER.(pc := AfterClaim(1, |u.line|))], [Frame(1, 2, true, ClaimCas(1, u.line[1], Clean(0)))]],
                    facts)
  {
    hide Reached;
    var line, vs, owner := u.line, One(|u.line|, 1, Marker(0, 0)), [OWNER.(pc := AfterClaim(1, |u.line|))];
    var over, idle, same := Slot(Successful, 0, LateOwner.Raise(u, 0)), Slot(Inactive, 2, LateOwner.Lower(u, 0)),
                            Slot(Claiming, 2, Same(u));
    var f, g := Frame(1, 2, true, ClaimLoadTarget(0)), Frame(1, 2, true, ClaimCas(1, line[1], Clean(0)));
    run, facts := LateOwner.LateOwnerMarks(u);
    OpValues(line, 0, 0, 0);
    assert !HelperAtWork([owner, []], 1);
    run := CallStarts(u, run, Mem(u, vs), [over, idle], [owner, []], facts, 1, line, Same(u));
    facts := facts + [Fact(OpId(1, 2), Same(u), false)];
    assert [over, idle][1 := same] == [over, same] && [owner, []][1 := [f]] == [owner, [f]];
    run := OwnerMarksFirst(u, run, u.mem, [over, same], [owner, [f]], facts, 1, line, vs);
    assert [owner, [f]][1 := [g]] == [owner, [g]];
  }

  lemma StuckBeforeOwner(u: Setup) returns (run: seq<World>, f: Frame)
    requires LateOwner.TwoWords(u, 0)
    ensures Run(u.cfg, run) && |run[0].stacks| == 2 + u.idle
    ensures Stuck(u.cfg, Last(run), 1, f, 1, u.line[1], Clean(0))
  {
    var facts;
    run, facts := SecondCalls(u);
    f := Frame(1, 2, true, ClaimCas(1, u.line[1], Clean(0)));
    LayAt(u.mem, u.line, One(|u.line|, 1, Marker(0, 0))[0 := Marker(1, 2)], 1);
    ReachableStands(u.cfg, run, |run| - 1, f, 1, u.line[1], Clean(0));
  }

  // ------------------------------------------------------------ no progress

  // Alone, such a call never returns: it compares, verifies and asks for help for
  // ever.
  lemma StuckForever(cfg: Config, w: World, t: nat, f: Frame, x: nat, a: Addr, e: Value,
                     trace: seq<SoloState>, n: nat)
    requires Stuck(cfg, w, t, f, x, a, e) && SoloTrace(cfg.k, trace) && Embeds(w, t, trace[0]) && n < |trace|
    ensures trace[n] == SpinState(w.sh, [], f, x, a, e, n)
    ensures trace[n].Running? && trace[n].sh == w.sh
  {
    var below, frame := trace[0].below, trace[0].frame;
    assert w.stacks[t] == below + [frame] && |below| == |w.stacks[t]| - 1 && w.stacks[t][0] == frame;
    assert trace[0] == At(w.sh, [], f, ClaimCas(x, a, e));
    DeadMarkerBlocks(w.sh, [], f, cfg.k, x, a, e, trace, n);
  }

  // Wherever calls can be made by three slots, or by two with at least two words,
  // such a state is reached, whatever the callers promise.
  lemma CallsGetStuck(cfg: Config, line: seq<Addr>, slots: nat)
    returns (run: seq<World>, t: nat, f: Frame, x: nat, a: Addr, e: Value)
    requires Chain(cfg, line) && (slots >= 3 || (slots == 2 && cfg.k >= 2))
    ensures Run(cfg, run) && |run[0].stacks| == slots && Stuck(cfg, Last(run), t, f, x, a, e)
  {
    var mem := seq(|cfg.rank|, _ => Clean(0));
    e := Clean(0);
    if slots >= 3 {
      t, x, a := 2, 0, line[0];
      run, f := StuckBeforeHelper(Setup(cfg, line, 3, slots - 3, mem));
    } else {
      t, x, a := 1, 1, line[1];
      run, f := StuckBeforeOwner(Setup(cfg, line, 2, 0, mem));
    }
  }
}
