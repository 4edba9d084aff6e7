// Why the atomicity theorem asks for values that do not recur.
module RecurringValues {
  import opened KcasTypes
  import opened StepMachine
  import opened AtomicSwaps
  import opened Linearizability
  import opened SequentialHistory
  import opened CallPhases
  import opened WitnessRuns
  import opened LateHelp

  // A helper that has loaded the expected value 0 of a claiming operation pauses;
  // the operation commits 0 -> 1 and switches the word; another thread takes the
  // word from 1 back to 0; the helper's late compare-and-swap then succeeds and puts
  // the committed operation's marker back, and the marker is switched to 1 once more.

  function Down(u: Setup): seq<KWord> {
    Op(u.line, 0, 1, 0)
  }

  function Risen(u: Setup): Slot {
    Slot(Setting, 0, Up(u, 1))
  }

  function Done(u: Setup): Slot {
    Slot(Inactive, 1, Down(u))
  }

  const PAUSED := OWNER.(pc := Prepare(Ok))

  function Known(u: Setup): seq<Fact> {
    Called(u, 1) + [Fact(OpId(0, 0), Up(u, 1), true), Fact(OpId(2, 0), Down(u), false), Fact(OpId(2, 0), Down(u), true)]
  }

  // Values may shrink, and three slots make calls.
  ghost predicate Shrinking(u: Setup) {
    Scenario(u) && u.busy == 3 && !u.cfg.mono
  }

  // Slot 2 takes the word from 1 back to 0, from start to finish.
  lemma ThirdReturns(u: Setup) returns (run: seq<World>)
    requires Shrinking(u)
    ensures Reached(u, run, Holding(u, Clean(0)), [Risen(u), Waiting(u), Done(u)],
                    [[PAUSED], [AskerOf(u), Loaded(u)], []], Known(u))
  {
    hide Reached;
    var line, idle, help := u.line, IdleSlot(u.cfg.k), [AskerOf(u), Loaded(u)];
    var down, f := Slot(Claiming, 0, Down(u)), Frame(2, 0, true, ClaimLoadTarget(0));
    run := HelperPauses(u, 1);
    run := FirstCommits(u, 1, run, Loaded(u));
    assert Two(u, Risen(u), Waiting(u)) == [Risen(u), Waiting(u), idle];
    assert TwoStacks(u, [PAUSED], help) == [[PAUSED], help, []];
    OpValues(line, 0, 1, 0);
    assert !HelperAtWork([[PAUSED], help, []], 2);
    assert Called(u, 1) + [Fact(OpId(0, 0), Up(u, 1), true)] == Known(u)[..3];
    run := CallStarts(u, run, Holding(u, Clean(1)), [Risen(u), Waiting(u), idle], [[PAUSED], help, []], Known(u)[..3],
                      2, line, Down(u));
    assert [Risen(u), Waiting(u), idle][2 := down] == [Risen(u), Waiting(u), down];
    assert [[PAUSED], help, []][2 := [f]] == [[PAUSED], help, [f]];
    assert Known(u)[..3] + [Fact(OpId(2, 0), Down(u), false)] == Known(u)[..4];
    run := CallSucceeds(u, run, u.mem, [Risen(u), Waiting(u), down], [[PAUSED], help, [f]], Known(u)[..4], 2, line,
                        One(|line|, 0, Clean(1)));
    assert [Risen(u), Waiting(u), down][2 := Done(u)] == [Risen(u), Waiting(u), Done(u)];
    assert [[PAUSED], help, [f]][2 := []] == [[PAUSED], help, []];
    assert Known(u)[..4] + [Fact(OpId(2, 0), Down(u), true)] == Known(u);
  }

  // The helper's late claim succeeds: logical memory moves from 0 to 1 in a step
  // that commits nothing.
  lemma LateClaimReads(u: Setup) returns (run: seq<World>, m: nat)
    requires Shrinking(u)
    ensures Run(u.cfg, run) && |run[0].stacks| == 3 + u.idle && m + 1 < |run| && run[m + 1].hist == run[m].hist
    ensures u.line[0] < |run[m].sh.mem| && u.line[0] < |run[m + 1].sh.mem|
    ensures Logical(run[m].sh)[u.line[0]] == 0 && Logical(run[m + 1].sh)[u.line[0]] == 1
  {
    run := ThirdReturns(u);
    m := |run| - 1;
    OpValues(u.line, 0, 0, 1);
    run := LateMark(u, run, [Risen(u), Waiting(u), Done(u)], [[PAUSED], [AskerOf(u), Loaded(u)], []], Known(u), 1,
                    One(|u.line|, 0, Clean(0)), Loaded(u), 0);
  }

  // The helper marks the words again.
  lemma HelperMarksAgain(u: Setup) returns (run: seq<World>)
    requires Shrinking(u)
    ensures Reached(u, run, Claimed(u), [Risen(u), Waiting(u), Done(u)],
                    [[PAUSED], [AskerOf(u), Loaded(u).(pc := DecideSetting)], []], Known(u))
  {
    hide Reached;
    var line, asker, slots, f := u.line, AskerOf(u), [Risen(u), Waiting(u), Done(u)], Loaded(u).(pc := DecideSetting);
    run := ThirdReturns(u);
    OpValues(line, 0, 0, 1);
    run := HelperMarks(u, run, u.mem, slots, [[PAUSED], [asker, Loaded(u)], []], Known(u), 1, line,
                       One(|line|, 0, Clean(0)), asker, Loaded(u), Clean(0));
    assert [[PAUSED], [asker, Loaded(u)], []][1 := [asker, f]] == [[PAUSED], [asker, f], []];
  }

  // It switches them once more.
  lemma HelperSwitchesAgain(u: Setup) returns (run: seq<World>)
    requires Shrinking(u)
    ensures Reached(u, run, Holding(u, Clean(1)), [Risen(u), Waiting(u), Done(u)],
                    [[PAUSED], [AskerOf(u), Loaded(u).(pc := FinishSuccessful)], []], Known(u))
  {
    hide Reached;
    var line, asker, slots := u.line, AskerOf(u), [Risen(u), Waiting(u), Done(u)];
    var f, g := Loaded(u).(pc := DecideSetting), Loaded(u).(pc := FinishSuccessful);
    run := HelperMarksAgain(u);
    OpValues(line, 0, 0, 1);
    run := HelperSets(u, run, u.mem, slots, [[PAUSED], [asker, f], []], Known(u), 1, line, asker, f);
    assert [[PAUSED], [asker, f], []][1 := [asker, g]] == [[PAUSED], [asker, g], []];
  }

  // It ends the operation and goes back to the call that asked for help.
  lemma HelperReturns(u: Setup) returns (run: seq<World>)
    requires Shrinking(u)
    ensures Reached(u, run, Holding(u, Clean(1)), [Slot(Successful, 0, Up(u, 1)), Waiting(u), Done(u)],
                    [[PAUSED], [AskerOf(u).(pc := ClaimCas(0, u.line[0], Clean(2)))], []], Known(u))
  {
    hide Reached;
    var line, asker, g := u.line, AskerOf(u), Loaded(u).(pc := FinishSuccessful);
    var slots, again := [Risen(u), Waiting(u), Done(u)], asker.(pc := ClaimCas(0, line[0], Clean(2)));
    run := HelperSwitchesAgain(u);
    OpValues(line, 0, 0, 1);
    run := HelperEnds(u, run, u.mem, slots, [[PAUSED], [asker, g], []], Known(u), 1, line,
                      One(|line|, 0, Clean(1)), asker, g);
    assert slots[0 := Slot(Successful, 0, Up(u, 1))] == [Slot(Successful, 0, Up(u, 1)), Waiting(u), Done(u)];
    assert [[PAUSED], [asker, g], []][1 := [again]] == [[PAUSED], [again], []];
  }

  // All three calls return, and the word holds 1.
  lemma AllReturn(u: Setup) returns (run: seq<World>)
    requires Shrinking(u)
    ensures Reached(u, run, Holding(u, Clean(1)),
                    [Slot(Inactive, 1, Up(u, 1)), Slot(Inactive, 1, Other(u)), Done(u)], [[], [], []], Known(u))
  {
    hide Reached;
    var line, over, lost := u.line, Slot(Successful, 0, Up(u, 1)), Slot(Inactive, 1, Other(u));
    var f, slots := AskerOf(u).(pc := ClaimCas(0, line[0], Clean(2))), [over, Waiting(u), Done(u)];
    run := HelperReturns(u);
    OpValues(line, 0, 2, 3);
    run := CallFails(u, run, u.mem, slots, [[PAUSED], [f], []], Known(u), 1, line, One(|line|, 0, Clean(1)), f.pc);
    assert slots[1 := lost] == [over, lost, Done(u)] && [[PAUSED], [f], []][1 := []] == [[PAUSED], [], []];
    run := OwnerResets(u, run, Holding(u, Clean(1)), [over, lost, Done(u)], [[PAUSED], [], []], Known(u), 0);
    assert [over, lost, Done(u)][0 := Slot(Inactive, 1, Up(u, 1))] == [Slot(Inactive, 1, Up(u, 1)), lost, Done(u)];
    assert [[PAUSED], [], []][0 := []] == [[], [], []];
  }

  // ------------------------------------------------------- no order fits

  // An entry of one of the three calls.
  ghost predicate OneOfThree(u: Setup, e: Entry) {
    || e == Entry(OpId(0, 0), Up(u, 1))
    || e == Entry(OpId(1, 0), Other(u))
    || e == Entry(OpId(2, 0), Down(u))
  }

  predicate OneOfTwo(i: nat, a: nat, b: nat) {
    i == a || i == b
  }

  lemma TwoAtMost(n: nat, a: nat, b: nat)
    requires forall i :: 0 <= i < n ==> OneOfTwo(i, a, b)
    ensures n <= 2
  {
    assert n > 0 ==> OneOfTwo(0, a, b);
    assert n > 1 ==> OneOfTwo(1, a, b);
    assert n > 2 ==> OneOfTwo(2, a, b);
  }

  lemma FirstPlaces(u: Setup)
    requires Ready(u)
    ensures WordAt(Up(u, 1), u.line[0]) == 0 && WordAt(Other(u), u.line[0]) == 0 && WordAt(Down(u), u.line[0]) == 0
  {
    LinePlace(u.line, |u.mem|, Up(u, 1), 0);
    LinePlace(u.line, |u.mem|, Other(u), 0);
    LinePlace(u.line, |u.mem|, Down(u), 0);
  }

  // Whatever order they are put in, the word ends at 0.
  lemma EveryOrderEndsAtZero(u: Setup, m: seq<nat>, log: seq<Entry>)
    requires Ready(u) && |m| == |u.mem| && m[u.line[0]] == 0 && Fits(m, log)
    requires forall i :: 0 <= i < |log| ==> OneOfThree(u, log[i])
    requires forall i, j :: 0 <= i < j < |log| ==> log[i].op != log[j].op
    requires Listed(log, OpId(0, 0)) && Listed(log, OpId(2, 0))
    ensures Replay(m, log)[u.line[0]] == 0
  {
    var a := u.line[0];
    FirstPlaces(u);
    forall i | 0 <= i < |log| ensures !Stores(log[i].words, a, 2) { assert OneOfThree(u, log[i]); }
    forall i | 0 <= i < |log| ensures log[i].op.slot != 1 {
      NeverExpected(m, log, a, 2, i);
      assert OneOfThree(u, log[i]);
    }
    var up: nat :| up < |log| && log[up].op == OpId(0, 0);
    var down: nat :| down < |log| && log[down].op == OpId(2, 0);
    forall i | 0 <= i < |log| ensures OneOfTwo(i, up, down) { assert OneOfThree(u, log[i]); }
    TwoAtMost(|log|, up, down);
    UpThenDown(u, m, log, up, down);
  }

  lemma UpThenDown(u: Setup, m: seq<nat>, log: seq<Entry>, up: nat, down: nat)
    requires Ready(u) && |m| == |u.mem| && m[u.line[0]] == 0 && Fits(m, log)
    requires up < |log| <= 2 && down < |log|
    requires log[up] == Entry(OpId(0, 0), Up(u, 1)) && log[down] == Entry(OpId(2, 0), Down(u))
    ensures Replay(m, log)[u.line[0]] == 0
  {
    var a := u.line[0];
    FirstPlaces(u);
    FitsAt(m, log, 0);
    assert log[..0] == [] && WordMatches(m, log[0].words[0]);
    assert up == 0 && down == 1 && |log| == 2;
    assert log[..1][..0] == [] && log[..1][0] == log[0];
    assert Replay(m, log[..1])[a] == 1;
  }

  // A run that keeps every promise but that of values that never shrink, for any
  // number of words, further slots and addresses: all calls have returned, and the
  // word holds 1 although every order of the successful calls leaves it at 0.
  lemma RecurrenceBreaksAtomicity(u: Setup) returns (run: seq<World>)
    requires Shrinking(u)
    ensures Run(u.cfg, run) && |run[0].stacks| == 3 + u.idle && AllReturned(Last(run))
    ensures Last(run).sh.mem == Holding(u, Clean(1)) && !Explainable(run)
  {
    run := AllReturn(u);
    var slots := [Slot(Inactive, 1, Up(u, 1)), Slot(Inactive, 1, Other(u)), Done(u)];
    QuietRecord(u, run, Holding(u, Clean(1)), slots, [[], [], []], Known(u));
    forall log ensures !Explains(run, log) {
      NotExplained(u, run, slots, log);
    }
  }

  lemma NotExplained(u: Setup, run: seq<World>, slots: seq<Slot>, log: seq<Entry>)
    requires Shrinking(u) && slots == [Slot(Inactive, 1, Up(u, 1)), Slot(Inactive, 1, Other(u)), Done(u)]
    requires Reached(u, run, Holding(u, Clean(1)), slots, [[], [], []], Known(u))
    ensures !Explains(run, log)
  {
    var m, a := Logical(run[0].sh), u.line[0];
    assert m[a] == LogicalAt(run[0].sh, a);
    QuietRecord(u, run, Holding(u, Clean(1)), slots, [[], [], []], Known(u));
    assert Known(u)[2].committed && Known(u)[4].committed;
    LayAt(u.mem, u.line, One(|u.line|, 0, Clean(1)), 0);
    if Explains(run, log) {
      forall i | 0 <= i < |log| ensures OneOfThree(u, log[i]) {
        assert Succeeded(Last(run), log[i].op);
        BegunByThree(u, run, slots, log[i].op);
      }
      EveryOrderEndsAtZero(u, m, log);
    }
  }

  lemma BegunByThree(u: Setup, run: seq<World>, slots: seq<Slot>, op: OpId)
    requires Shrinking(u) && slots == [Slot(Inactive, 1, Up(u, 1)), Slot(Inactive, 1, Other(u)), Done(u)]
    requires Reached(u, run, Holding(u, Clean(1)), slots, [[], [], []], Known(u)) && op in Last(run).hist.began
    ensures OneOfThree(u, Entry(op, WordsOf(Last(run), op)))
  {
    BegunFinished(u, run, Holding(u, Clean(1)), slots, [[], [], []], Known(u), op);
    assert Holds(Last(run), Known(u)[0]) && Holds(Last(run), Known(u)[1]) && Holds(Last(run), Known(u)[3]);
  }
}
