// A run of two slots in which the owner of an operation comes too late: it has
// loaded the expected value of its second word when a helper commits and ends the
// operation.
module LateOwner {
  import opened KcasTypes
  import opened StepMachine
  import opened WitnessRuns
  import opened LateHelp

  // Operations have at least two words; slot 0 takes word 1 from 0 to `d`, and slot
  // 1's second call takes it back.
  ghost predicate TwoWords(u: Setup, d: nat) {
    Scenario(u) && u.busy == 2 && |u.line| >= 2 && (u.cfg.mono ==> d == 0)
  }

  function Raise(u: Setup, d: nat): seq<KWord> {
    Op(u.line, 1, 0, d)
  }

  function Lower(u: Setup, d: nat): seq<KWord> {
    Op(u.line, 1, d, 0)
  }

  function Raising(u: Setup, d: nat): Slot {
    Slot(Claiming, 0, Raise(u, d))
  }

  // The second word holds `v` and the others 0.
  function Second(u: Setup, v: Value): seq<Value> {
    Mem(u, One(|u.line|, 1, v))
  }

  function Late(u: Setup): Frame
    requires |u.line| >= 2
  {
    OWNER.(pc := ClaimCas(1, u.line[1], Clean(0)))
  }

  function Facts(u: Setup, d: nat): seq<Fact> {
    [Fact(OpId(0, 0), Raise(u, d), false)]
  }

  // Slot 0 claims word 0, loads word 1's expected value and pauses.
  lemma OwnerPauses(u: Setup, d: nat) returns (run: seq<World>)
    requires TwoWords(u, d)
    ensures Reached(u, run, Holding(u, Marker(0, 0)), [Raising(u, d), IdleSlot(u.cfg.k)], [[Late(u)], []], Facts(u, d))
  {
    hide Reached;
    var idle, raising, f := IdleSlot(u.cfg.k), Raising(u, d), OWNER.(pc := ClaimLoadTarget(0));
    var zeros := One(|u.line|, 0, Clean(0));
    run := Opened(u);
    assert Two(u, idle, idle) == [idle, idle] && TwoStacks(u, [], []) == [[], []];
    OpValues(u.line, 1, 0, d);
    assert !HelperAtWork([[], []], 0);
    run := CallStarts(u, run, Holding(u, Clean(0)), [idle, idle], [[], []], [], 0, u.line, Raise(u, d));
    assert [idle, idle][0 := raising] == [raising, idle] && [[], []][0 := [f]] == [[f], []];
    assert [] + [Fact(OpId(0, 0), Raise(u, d), false)] == Facts(u, d);
    run := OwnerMarksFirst(u, run, u.mem, [raising, idle], [[f], []], Facts(u, d), 0, u.line, zeros);
    assert zeros[0 := Marker(0, 0)] == One(|u.line|, 0, Marker(0, 0));
    assert [[f], []][0 := [Late(u)]] == [[Late(u)], []];
  }

  // Slot 1 runs into the marker and starts to help.
  lemma HelperComes(u: Setup, d: nat) returns (run: seq<World>)
    requires TwoWords(u, d)
    ensures Reached(u, run, Holding(u, Marker(0, 0)), [Raising(u, d), Waiting(u)],
                    [[Late(u)], [AskerOf(u), HELPER]], Facts(u, d) + [Fact(OpId(1, 0), Other(u), false)])
  {
    hide Reached;
    var idle, raising, mem, f := IdleSlot(u.cfg.k), Raising(u, d), Holding(u, Marker(0, 0)),
                                 AskerOf(u).(pc := ClaimLoadTarget(0));
    run := OwnerPauses(u, d);
    OpValues(u.line, 0, 2, 3);
    OpValues(u.line, 1, 0, d);
    assert !HelperAtWork([[Late(u)], []], 1);
    run := CallStarts(u, run, mem, [raising, idle], [[Late(u)], []], Facts(u, d), 1, u.line, Other(u));
    assert [raising, idle][1 := Waiting(u)] == [raising, Waiting(u)];
    assert [[Late(u)], []][1 := [f]] == [[Late(u)], [f]];
    run := HelperEnters(u, run, u.mem, [raising, Waiting(u)], [[Late(u)], [f]],
                        Facts(u, d) + [Fact(OpId(1, 0), Other(u), false)], 1, u.line,
                        One(|u.line|, 0, Marker(0, 0)), 0);
    assert [[Late(u)], [f]][1 := [AskerOf(u), HELPER]] == [[Late(u)], [AskerOf(u), HELPER]];
  }

  // The helper commits the operation and switches its words.
  lemma HelperDecides(u: Setup, d: nat) returns (run: seq<World>, facts: seq<Fact>)
    requires TwoWords(u, d)
    ensures Reached(u, run, Second(u, Clean(d)), [Slot(Setting, 0, Raise(u, d)), Waiting(u)],
                    [[Late(u)], [AskerOf(u), HELPER.(pc := FinishSuccessful)]], facts)
  {
    hide Reached;
    var line, asker, setting, g := u.line, AskerOf(u), Slot(Setting, 0, Raise(u, d)), HELPER.(pc := FinishSuccessful);
    run := HelperComes(u, d);
    OpValues(line, 1, 0, d);
    facts := Facts(u, d) + [Fact(OpId(1, 0), Other(u), false)];
    run := HelperCommits(u, run, u.mem, [Raising(u, d), Waiting(u)], [[Late(u)], [asker, HELPER]], facts, 1, line,
                         One(|line|, 0, Marker(0, 0)), asker, HELPER);
    facts := facts + [Fact(OpId(0, 0), Raise(u, d), true)];
    assert [Raising(u, d), Waiting(u)][0 := setting] == [setting, Waiting(u)];
    assert [[Late(u)], [asker, HELPER]][1 := [asker, g]] == [[Late(u)], [asker, g]];
  }

  // It ends the operation and goes back to its own call.
  lemma HelperDoesAll(u: Setup, d: nat) returns (run: seq<World>, facts: seq<Fact>)
    requires TwoWords(u, d)
    ensures Reached(u, run, Second(u, Clean(d)), [Slot(Successful, 0, Raise(u, d)), Waiting(u)],
                    [[Late(u)], [AskerOf(u).(pc := ClaimCas(0, u.line[0], Clean(2)))]], facts)
  {
    hide Reached;
    var line, asker, raise := u.line, AskerOf(u), Raise(u, d);
    var setting, over := Slot(Setting, 0, raise), Slot(Successful, 0, raise);
    var g, again := HELPER.(pc := FinishSuccessful), asker.(pc := ClaimCas(0, line[0], Clean(2)));
    OpValues(line, 1, 0, d);
    run, facts := HelperDecides(u, d);
    run := HelperEnds(u, run, u.mem, [setting, Waiting(u)], [[Late(u)], [asker, g]], facts, 1, line,
                      One(|line|, 1, Clean(d)), asker, g);
    assert [setting, Waiting(u)][0 := over] == [over, Waiting(u)];
    assert [[Late(u)], [asker, g]][1 := [again]] == [[Late(u)], [again]];
  }

  // Slot 1's call fails, and its next one takes word 1 back to 0.
  lemma OtherLowers(u: Setup, d: nat) returns (run: seq<World>, facts: seq<Fact>)
    requires TwoWords(u, d)
    ensures Reached(u, run, Second(u, Clean(0)), [Slot(Successful, 0, Raise(u, d)), Slot(Inactive, 2, Lower(u, d))],
                    [[Late(u)], []], facts)
  {
    hide Reached;
    var line, vs, over, again := u.line, One(|u.line|, 1, Clean(d)), Slot(Successful, 0, Raise(u, d)),
                                 AskerOf(u).(pc := ClaimCas(0, u.line[0], Clean(2)));
    var lost, lowering, f := Slot(Inactive, 1, Other(u)), Slot(Claiming, 1, Lower(u, d)),
                             Frame(1, 1, true, ClaimLoadTarget(0));
    run, facts := HelperDoesAll(u, d);
    OpValues(line, 0, 2, 3);
    OpValues(line, 1, d, 0);
    run := CallFails(u, run, u.mem, [over, Waiting(u)], [[Late(u)], [again]], facts, 1, line, vs, again.pc);
    assert [over, Waiting(u)][1 := lost] == [over, lost] && [[Late(u)], [again]][1 := []] == [[Late(u)], []];
    assert !HelperAtWork([[Late(u)], []], 1);
    run := CallStarts(u, run, Second(u, Clean(d)), [over, lost], [[Late(u)], []], facts, 1, line, Lower(u, d));
    facts := facts + [Fact(OpId(1, 1), Lower(u, d), false)];
    assert [over, lost][1 := lowering] == [over, lowering] && [[Late(u)], []][1 := [f]] == [[Late(u)], [f]];
    run := CallSucceeds(u, run, u.mem, [over, lowering], [[Late(u)], [f]], facts, 1, line, vs);
    facts := facts + [Fact(OpId(1, 1), Lower(u, d), true)];
    assert [over, lowering][1 := Slot(Inactive, 2, Lower(u, d))] == [over, Slot(Inactive, 2, Lower(u, d))];
    assert [[Late(u)], [f]][1 := []] == [[Late(u)], []];
  }

  // Two slots are enough to change logical memory without a commit when operations
  // have two words and values may shrink.
  lemma LateOwnerReads(u: Setup) returns (run: seq<World>, m: nat)
    requires TwoWords(u, 1)
    ensures Run(u.cfg, run) && |run[0].stacks| == 2 + u.idle && m + 1 < |run| && run[m + 1].hist == run[m].hist
    ensures u.line[1] < |run[m].sh.mem| && u.line[1] < |run[m + 1].sh.mem|
    ensures Logical(run[m].sh)[u.line[1]] == 0 && Logical(run[m + 1].sh)[u.line[1]] == 1
  {
    var facts, vs;
    run, facts := OtherLowers(u, 1);
    m, vs := |run| - 1, One(|u.line|, 1, Clean(0));
    OpValues(u.line, 1, 0, 1);
    run := LateMark(u, run, [Slot(Successful, 0, Raise(u, 1)), Slot(Inactive, 2, Lower(u, 1))], [[Late(u)], []], facts,
                    0, vs, Late(u), 1);
  }

  // The late claim leaves a marker of the ended operation in word 1.
  lemma LateOwnerMarks(u: Setup) returns (run: seq<World>, facts: seq<Fact>)
    requires TwoWords(u, 0)
    ensures Reached(u, run, Second(u, Marker(0, 0)),
                    [Slot(Successful, 0, Raise(u, 0)), Slot(Inactive, 2, Lower(u, 0))],
                    [[OWNER.(pc := AfterClaim(1, |u.line|))], []], facts)
  {
    hide Reached;
    var line, slots, g := u.line, [Slot(Successful, 0, Raise(u, 0)), Slot(Inactive, 2, Lower(u, 0))],
                          OWNER.(pc := AfterClaim(1, |u.line|));
    var vs := One(|line|, 1, Clean(0));
    run, facts := OtherLowers(u, 0);
    OpValues(line, 1, 0, 0);
    run := OwnerMarksNext(u, run, u.mem, slots, [[Late(u)], []], facts, 0, line, vs, 1, Clean(0));
    assert vs[1 := Marker(0, 0)] == One(|line|, 1, Marker(0, 0));
    assert [[Late(u)], []][0 := [g]] == [[g], []];
  }
}
