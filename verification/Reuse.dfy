// Why the theorems ask that no descriptor is reused under a late helper.
module ReusedDescriptors {
  import opened KcasTypes
  import opened StepMachine
  import opened AtomicSwaps
  import opened Linearizability
  import opened SequentialHistory
  import opened CallPhases
  import opened WitnessRuns
  import opened LateHelp

  // A helper of slot 0's first operation reads the words of the second one and, long
  // after the first one ended, marks those words for it. It then cleans up by the
  // words of a later operation of the slot, whose expected values it puts there; a
  // word that is no target of that one keeps the marker.

  function Second(u: Setup): seq<KWord> {
    Op(u.line, 0, 5, 6)
  }

  function Move(u: Setup): seq<KWord> {
    Op(u.line, 0, 1, 5)
  }

  function Jump(u: Setup): seq<KWord> {
    Op(u.line, 0, 7, 8)
  }

  function Idle(seqno: nat, words: seq<KWord>): Slot {
    Slot(Inactive, seqno, words)
  }

  function Outdated(u: Setup): Frame
    requires u.line != []
  {
    HELPER.(pc := ClaimCas(0, u.line[0], Clean(5)))
  }

  function Cleaning(u: Setup): Frame
    requires u.line != []
  {
    HELPER.(pc := RevertLoadTarget(|u.line| - 1, HelpOutdated))
  }

  function OwnerOf(seqno: nat): Frame {
    Frame(0, seqno, true, ClaimLoadTarget(0))
  }

  function Known(u: Setup): seq<Fact> {
    [Fact(OpId(0, 0), Up(u, 1), false), Fact(OpId(1, 0), Other(u), false), Fact(OpId(0, 0), Up(u, 1), true),
     Fact(OpId(0, 1), Second(u), false), Fact(OpId(0, 2), Move(u), false), Fact(OpId(0, 2), Move(u), true),
     Fact(OpId(0, 3), Jump(u), false), Fact(OpId(0, 3), Jump(u), true)]
  }

  // Descriptors may be reused at any time, and two slots make calls.
  ghost predicate Reusing(u: Setup) {
    Scenario(u) && u.busy == 2 && !u.cfg.stable
  }

  // Slot 0 finishes its first operation and publishes the second one, whose words
  // the helper of the first one loads.
  lemma HelperMisreads(u: Setup) returns (run: seq<World>)
    requires Reusing(u)
    ensures Reached(u, run, Holding(u, Clean(1)), [Slot(Claiming, 1, Second(u)), Waiting(u)],
                    [[OwnerOf(1)], [AskerOf(u), Outdated(u)]], Known(u)[..4])
  {
    hide Reached;
    var mem, asker := Holding(u, Clean(1)), AskerOf(u);
    var first, second := Idle(1, Up(u, 1)), Slot(Claiming, 1, Second(u));
    run := HelperComes(u, 1);
    run := FirstReturns(u, 1, run, HELPER);
    assert Two(u, first, Waiting(u)) == [first, Waiting(u)];
    assert TwoStacks(u, [], [asker, HELPER]) == [[], [asker, HELPER]];
    assert Called(u, 1) + [Fact(OpId(0, 0), Up(u, 1), true)] == Known(u)[..3];
    OpValues(u.line, 0, 5, 6);
    run := CallStarts(u, run, mem, [first, Waiting(u)], [[], [asker, HELPER]], Known(u)[..3], 0, u.line, Second(u));
    assert [first, Waiting(u)][0 := second] == [second, Waiting(u)];
    assert [[], [asker, HELPER]][0 := [OwnerOf(1)]] == [[OwnerOf(1)], [asker, HELPER]];
    assert Known(u)[..3] + [Fact(OpId(0, 1), Second(u), false)] == Known(u)[..4];
    run := HelperLoads(u, run, mem, [second, Waiting(u)], [[OwnerOf(1)], [asker, HELPER]], Known(u)[..4], 1, u.line,
                       asker, HELPER);
    assert [[OwnerOf(1)], [asker, HELPER]][1 := [asker, Outdated(u)]] == [[OwnerOf(1)], [asker, Outdated(u)]];
  }

  // The second operation fails.
  lemma SecondFails(u: Setup) returns (run: seq<World>)
    requires Reusing(u)
    ensures Reached(u, run, Holding(u, Clean(1)), [Idle(2, Second(u)), Waiting(u)],
                    [[], [AskerOf(u), Outdated(u)]], Known(u)[..4])
  {
    hide Reached;
    var help, vs := [AskerOf(u), Outdated(u)], One(|u.line|, 0, Clean(1));
    var second, failed := Slot(Claiming, 1, Second(u)), Idle(2, Second(u));
    run := HelperMisreads(u);
    OpValues(u.line, 0, 5, 6);
    run := CallFails(u, run, u.mem, [second, Waiting(u)], [[OwnerOf(1)], help], Known(u)[..4], 0, u.line, vs,
                     ClaimLoadTarget(0));
    assert [second, Waiting(u)][0 := failed] == [failed, Waiting(u)];
    assert [[OwnerOf(1)], help][0 := []] == [[], help];
  }

  // The third one gives word 0 the value the helper expects.
  lemma ThirdMoves(u: Setup) returns (run: seq<World>)
    requires Reusing(u)
    ensures Reached(u, run, Holding(u, Clean(5)), [Idle(3, Move(u)), Waiting(u)],
                    [[], [AskerOf(u), Outdated(u)]], Known(u)[..6])
  {
    hide Reached;
    var mem, help, vs := Holding(u, Clean(1)), [AskerOf(u), Outdated(u)], One(|u.line|, 0, Clean(1));
    var failed, moving := Idle(2, Second(u)), Slot(Claiming, 2, Move(u));
    run := SecondFails(u);
    OpValues(u.line, 0, 1, 5);
    run := CallStarts(u, run, mem, [failed, Waiting(u)], [[], help], Known(u)[..4], 0, u.line, Move(u));
    assert [failed, Waiting(u)][0 := moving] == [moving, Waiting(u)];
    assert [[], help][0 := [OwnerOf(2)]] == [[OwnerOf(2)], help];
    assert Known(u)[..4] + [Fact(OpId(0, 2), Move(u), false)] == Known(u)[..5];
    run := CallSucceeds(u, run, u.mem, [moving, Waiting(u)], [[OwnerOf(2)], help], Known(u)[..5], 0, u.line, vs);
    assert [moving, Waiting(u)][0 := Idle(3, Move(u))] == [Idle(3, Move(u)), Waiting(u)];
    assert [[OwnerOf(2)], help][0 := []] == [[], help];
    assert Known(u)[..5] + [Fact(OpId(0, 2), Move(u), true)] == Known(u)[..6];
  }

  // The helper marks the words for the operation that ended long ago.
  lemma HelperTakes(u: Setup) returns (run: seq<World>)
    requires Reusing(u)
    ensures Reached(u, run, Claimed(u), [Idle(3, Move(u)), Waiting(u)],
                    [[], [AskerOf(u), HELPER.(pc := DecideSetting)]], Known(u)[..6])
  {
    hide Reached;
    var asker, slots, f := AskerOf(u), [Idle(3, Move(u)), Waiting(u)], HELPER.(pc := DecideSetting);
    run := ThirdMoves(u);
    OpValues(u.line, 0, 1, 5);
    run := HelperMarks(u, run, u.mem, slots, [[], [asker, Outdated(u)]], Known(u)[..6], 1, u.line,
                       One(|u.line|, 0, Clean(5)), asker, Outdated(u), Clean(5));
    assert [[], [asker, Outdated(u)]][1 := [asker, f]] == [[], [asker, f]];
  }

  // It finds the operation outdated.
  lemma HelperCleaning(u: Setup) returns (run: seq<World>)
    requires Reusing(u)
    ensures Reached(u, run, Claimed(u), [Idle(3, Move(u)), Waiting(u)], [[], [AskerOf(u), Cleaning(u)]], Known(u)[..6])
  {
    hide Reached;
    var asker, slots, f := AskerOf(u), [Idle(3, Move(u)), Waiting(u)], HELPER.(pc := DecideSetting);
    run := HelperTakes(u);
    run := HelperIsOutdated(u, run, Claimed(u), slots, [[], [asker, f]], Known(u)[..6], 1, asker, f);
    assert [[], [asker, f]][1 := [asker, Cleaning(u)]] == [[], [asker, Cleaning(u)]];
  }

  // Slot 0 publishes a fourth operation, which expects 7, and the helper's cleaning
  // puts 7 there.
  lemma HelperPutsSeven(u: Setup) returns (run: seq<World>)
    requires Reusing(u)
    ensures Reached(u, run, Holding(u, Clean(7)), [Slot(Claiming, 3, Jump(u)), Waiting(u)],
                    [[OwnerOf(3)], [AskerOf(u).(pc := ClaimCas(0, u.line[0], Clean(2)))]], Known(u)[..7])
  {
    hide Reached;
    var line, marks, help := u.line, All(|u.line|, Marker(0, 0)), [AskerOf(u), Cleaning(u)];
    var jumping, again := Slot(Claiming, 3, Jump(u)), AskerOf(u).(pc := ClaimCas(0, u.line[0], Clean(2)));
    run := HelperCleaning(u);
    OpValues(line, 0, 7, 8);
    run := CallStarts(u, run, Claimed(u), [Idle(3, Move(u)), Waiting(u)], [[], help], Known(u)[..6], 0, line, Jump(u));
    assert [Idle(3, Move(u)), Waiting(u)][0 := jumping] == [jumping, Waiting(u)];
    assert [[], help][0 := [OwnerOf(3)]] == [[OwnerOf(3)], help];
    assert Known(u)[..6] + [Fact(OpId(0, 3), Jump(u), false)] == Known(u)[..7];
    run := HelperCleans(u, run, u.mem, [jumping, Waiting(u)], [[OwnerOf(3)], help], Known(u)[..7], 1, line, marks,
                        AskerOf(u), Cleaning(u));
    assert RevertFrom(marks, Jump(u), |line| - 1, Marker(0, 0)) == One(|line|, 0, Clean(7));
    assert [[OwnerOf(3)], help][1 := [again]] == [[OwnerOf(3)], [again]];
  }

  // The operation succeeds, and all calls have returned.
  lemma AllReturn(u: Setup) returns (run: seq<World>)
    requires Reusing(u)
    ensures Reached(u, run, Holding(u, Clean(8)), [Idle(4, Jump(u)), Idle(1, Other(u))], [[], []], Known(u))
  {
    hide Reached;
    var line, vs, jumping := u.line, One(|u.line|, 0, Clean(7)), Slot(Claiming, 3, Jump(u));
    var again, lost := AskerOf(u).(pc := ClaimCas(0, line[0], Clean(2))), Idle(1, Other(u));
    run := HelperPutsSeven(u);
    OpValues(line, 0, 2, 3);
    OpValues(line, 0, 7, 8);
    run := CallFails(u, run, u.mem, [jumping, Waiting(u)], [[OwnerOf(3)], [again]], Known(u)[..7], 1, line, vs,
                     again.pc);
    assert [jumping, Waiting(u)][1 := lost] == [jumping, lost];
    assert [[OwnerOf(3)], [again]][1 := []] == [[OwnerOf(3)], []];
    run := CallSucceeds(u, run, u.mem, [jumping, lost], [[OwnerOf(3)], []], Known(u)[..7], 0, line, vs);
    assert [jumping, lost][0 := Idle(4, Jump(u))] == [Idle(4, Jump(u)), lost];
    assert [[OwnerOf(3)], []][0 := []] == [[], []];
    assert Known(u)[..7] + [Fact(OpId(0, 3), Jump(u), true)] == Known(u);
  }

  // A run that keeps every promise but `stable`, for any number of words, further
  // slots and addresses: all calls have returned, and one returned Ok that expects 7
  // in a word that did not hold 7 at first and to which no call ever wrote 7. So no
  // order of the successful calls explains the run.
  lemma ReuseBreaksAtomicity(u: Setup) returns (run: seq<World>)
    requires Reusing(u)
    ensures Run(u.cfg, run) && |run[0].stacks| == 2 + u.idle && AllReturned(Last(run))
    ensures run[0].sh.mem == u.mem && Last(run).sh.mem == Holding(u, Clean(8))
    ensures Succeeded(Last(run), OpId(0, 3)) && WordsOf(Last(run), OpId(0, 3)) == Jump(u)
    ensures forall op :: op in Last(run).hist.began ==> !Stores(Last(run).hist.began[op], u.line[0], 7)
    ensures !Explainable(run)
  {
    run := AllReturn(u);
    var w, slots := Last(run), [Idle(4, Jump(u)), Idle(1, Other(u))];
    QuietRecord(u, run, Holding(u, Clean(8)), slots, [[], []], Known(u));
    assert Known(u)[7].committed && Holds(w, Known(u)[7]);
    forall op | op in w.hist.began ensures !Stores(w.hist.began[op], u.line[0], 7) {
      BegunFinished(u, run, Holding(u, Clean(8)), slots, [[], []], Known(u), op);
      RecordedWords(u, w, op);
      NoneStoresSeven(u, w.hist.began[op]);
    }
    forall log ensures !Explains(run, log) {
      NotExplained(u, run, log);
    }
  }

  ghost predicate OneOfFive(u: Setup, words: seq<KWord>) {
    words == Up(u, 1) || words == Second(u) || words == Move(u) || words == Jump(u) || words == Other(u)
  }

  lemma RecordedWords(u: Setup, w: World, op: OpId)
    requires AllHold(w, Known(u)) && op in w.hist.began
    requires (op.slot == 0 && op.seqno < 4) || (op.slot == 1 && op.seqno == 0)
    ensures OneOfFive(u, w.hist.began[op])
  {
    assert Holds(w, Known(u)[0]) && Holds(w, Known(u)[1]) && Holds(w, Known(u)[3]);
    assert Holds(w, Known(u)[4]) && Holds(w, Known(u)[6]);
  }

  lemma NoneStoresSeven(u: Setup, words: seq<KWord>)
    requires Ready(u) && OneOfFive(u, words)
    ensures !Stores(words, u.line[0], 7)
  {
    LinePlace(u.line, |u.mem|, words, 0);
  }

  lemma NotExplained(u: Setup, run: seq<World>, log: seq<Entry>)
    requires Scenario(u) && run != [] && run[0].sh.mem == u.mem
    requires Succeeded(Last(run), OpId(0, 3)) && WordsOf(Last(run), OpId(0, 3)) == Jump(u)
    requires forall op :: op in Last(run).hist.began ==> !Stores(Last(run).hist.began[op], u.line[0], 7)
    ensures !Explains(run, log)
  {
    var m, a := Logical(run[0].sh), u.line[0];
    assert m[a] == LogicalAt(run[0].sh, a);
    if Explains(run, log) {
      assert Listed(log, OpId(0, 3));
      var j: nat :| j < |log| && log[j].op == OpId(0, 3);
      forall i | 0 <= i < |log| ensures !Stores(log[i].words, a, 7) {
        assert WordAt([], a) == 0;
      }
      NeverExpected(m, log, a, 7, j);
    }
  }

  // ------------------------------------------------- a marker left behind

  // The values of `mem` along a line.
  function Along(mem: seq<Value>, line: seq<Addr>): (vs: seq<Value>)
    requires forall x :: 0 <= x < |line| ==> line[x] < |mem|
    ensures |vs| == |line|
  {
    seq(|line|, x requires 0 <= x < |line| => mem[line[x]])
  }

  lemma LayAlong(mem: seq<Value>, line: seq<Addr>)
    requires forall x :: 0 <= x < |line| ==> line[x] < |mem|
    ensures Lay(mem, line, Along(mem, line)) == mem
  {
  }

  // Every call compares its words with 0. The first and the third one of slot 0 have
  // the targets of the setup, the second one has the targets `other`.
  ghost predicate Moving(u: Setup, other: seq<Addr>) {
    && Reusing(u) && Chain(u.cfg, other)
    && forall x :: 0 <= x < |other| ==> u.mem[other[x]] == Clean(0)
  }

  function Same(line: seq<Addr>): seq<KWord> {
    Op(line, 0, 0, 0)
  }

  function Left(u: Setup, other: seq<Addr>): seq<Value>
    requires |other| == |u.line|
  {
    Lay(u.mem, other, All(|other|, Marker(0, 0)))
  }

  // The helper of the first operation loads the words of the second one.
  lemma SecondStarts(u: Setup, other: seq<Addr>) returns (run: seq<World>)
    requires Moving(u, other)
    ensures Reached(u, run, u.mem, [Slot(Claiming, 1, Same(other)), Waiting(u)],
                    [[OwnerOf(1)], [AskerOf(u), HELPER.(pc := ClaimCas(0, other[0], Clean(0)))]], [])
  {
    hide Reached;
    var asker, f := AskerOf(u), HELPER.(pc := ClaimCas(0, other[0], Clean(0)));
    var first, second := Idle(1, Same(u.line)), Slot(Claiming, 1, Same(other));
    run := FirstOver(u);
    OpValues(other, 0, 0, 0);
    run := CallStarts(u, run, u.mem, [first, Waiting(u)], [[], [asker, HELPER]], [], 0, other, Same(other));
    assert [first, Waiting(u)][0 := second] == [second, Waiting(u)];
    assert [[], [asker, HELPER]][0 := [OwnerOf(1)]] == [[OwnerOf(1)], [asker, HELPER]];
    Forget(u, run, u.mem, [second, Waiting(u)], [[OwnerOf(1)], [asker, HELPER]],
           [] + [Fact(OpId(0, 1), Same(other), false)]);
    run := HelperLoads(u, run, u.mem, [second, Waiting(u)], [[OwnerOf(1)], [asker, HELPER]], [], 1, other,
                       asker, HELPER);
    assert [[OwnerOf(1)], [asker, HELPER]][1 := [asker, f]] == [[OwnerOf(1)], [asker, f]];
  }

  lemma FirstOver(u: Setup) returns (run: seq<World>)
    requires Reusing(u)
    ensures Reached(u, run, u.mem, [Idle(1, Same(u.line)), Waiting(u)], [[], [AskerOf(u), HELPER]], [])
  {
    hide Reached;
    var first, asker := Idle(1, Same(u.line)), AskerOf(u);
    run := HelperComes(u, 0);
    run := FirstReturns(u, 0, run, HELPER);
    assert Two(u, first, Waiting(u)) == [first, Waiting(u)];
    assert TwoStacks(u, [], [asker, HELPER]) == [[], [asker, HELPER]];
    assert Holding(u, Clean(0)) == u.mem;
    Forget(u, run, u.mem, [first, Waiting(u)], [[], [asker, HELPER]],
           Called(u, 0) + [Fact(OpId(0, 0), Same(u.line), true)]);
  }

  // The second operation returns.
  lemma SecondReturns(u: Setup, other: seq<Addr>) returns (run: seq<World>)
    requires Moving(u, other)
    ensures Reached(u, run, u.mem, [Idle(2, Same(other)), Waiting(u)],
                    [[], [AskerOf(u), HELPER.(pc := ClaimCas(0, other[0], Clean(0)))]], [])
  {
    hide Reached;
    var help, second := [AskerOf(u), HELPER.(pc := ClaimCas(0, other[0], Clean(0)))], Slot(Claiming, 1, Same(other));
    var zeros := One(|other|, 0, Clean(0));
    run := SecondStarts(u, other);
    OpValues(other, 0, 0, 0);
    assert Lay(u.mem, other, zeros) == u.mem;
    run := CallSucceeds(u, run, u.mem, [second, Waiting(u)], [[OwnerOf(1)], help], [], 0, other, zeros);
    assert [second, Waiting(u)][0 := Idle(2, Same(other))] == [Idle(2, Same(other)), Waiting(u)];
    assert [[OwnerOf(1)], help][0 := []] == [[], help];
    Forget(u, run, u.mem, [Idle(2, Same(other)), Waiting(u)], [[], help],
           [] + [Fact(OpId(0, 1), Same(other), true)]);
  }

  lemma Forget(u: Setup, run: seq<World>, mem: seq<Value>, slots: seq<Slot>, stacks: seq<seq<Frame>>, facts: seq<Fact>)
    requires Reached(u, run, mem, slots, stacks, facts)
    ensures Reached(u, run, mem, slots, stacks, [])
  {
  }

  // The helper marks the second operation's words.
  lemma SecondMarked(u: Setup, other: seq<Addr>) returns (run: seq<World>)
    requires Moving(u, other)
    ensures Reached(u, run, Left(u, other), [Idle(2, Same(other)), Waiting(u)],
                    [[], [AskerOf(u), HELPER.(pc := DecideSetting)]], [])
  {
    hide Reached;
    var asker, slots := AskerOf(u), [Idle(2, Same(other)), Waiting(u)];
    var f, g := HELPER.(pc := ClaimCas(0, other[0], Clean(0))), HELPER.(pc := DecideSetting);
    run := SecondReturns(u, other);
    OpValues(other, 0, 0, 0);
    assert Lay(u.mem, other, One(|other|, 0, Clean(0))) == u.mem;
    run := HelperMarks(u, run, u.mem, slots, [[], [asker, f]], [], 1, other, One(|other|, 0, Clean(0)), asker, f,
                       Clean(0));
    assert [[], [asker, f]][1 := [asker, g]] == [[], [asker, g]];
  }

  // It finds its own operation outdated.
  lemma SecondLeft(u: Setup, other: seq<Addr>) returns (run: seq<World>)
    requires Moving(u, other)
    ensures Reached(u, run, Left(u, other), [Idle(2, Same(other)), Waiting(u)], [[], [AskerOf(u), Cleaning(u)]], [])
  {
    hide Reached;
    var asker, slots, g := AskerOf(u), [Idle(2, Same(other)), Waiting(u)], HELPER.(pc := DecideSetting);
    run := SecondMarked(u, other);
    run := HelperIsOutdated(u, run, Left(u, other), slots, [[], [asker, g]], [], 1, asker, g);
    assert [[], [asker, g]][1 := [asker, Cleaning(u)]] == [[], [asker, Cleaning(u)]];
  }

  // Slot 0 publishes its third operation.
  lemma ThirdStarts(u: Setup, other: seq<Addr>) returns (run: seq<World>)
    requires Moving(u, other)
    ensures Reached(u, run, Left(u, other), [Slot(Claiming, 2, Same(u.line)), Waiting(u)],
                    [[OwnerOf(2)], [AskerOf(u), Cleaning(u)]], [])
  {
    hide Reached;
    var asker, slots := AskerOf(u), [Idle(2, Same(other)), Waiting(u)];
    run := SecondLeft(u, other);
    OpValues(u.line, 0, 0, 0);
    var third := Slot(Claiming, 2, Same(u.line));
    run := CallStarts(u, run, Left(u, other), slots, [[], [asker, Cleaning(u)]], [], 0, u.line, Same(u.line));
    assert slots[0 := third] == [third, Waiting(u)];
    assert [[], [asker, Cleaning(u)]][0 := [OwnerOf(2)]] == [[OwnerOf(2)], [asker, Cleaning(u)]];
    Forget(u, run, Left(u, other), [third, Waiting(u)], [[OwnerOf(2)], [asker, Cleaning(u)]],
           [] + [Fact(OpId(0, 2), Same(u.line), false)]);
  }

  // The helper cleans the third operation's words, and both calls return.
  lemma BothReturn(u: Setup, other: seq<Addr>) returns (run: seq<World>)
    requires Moving(u, other)
    ensures Reached(u, run, Lay(Left(u, other), u.line, One(|u.line|, 0, Clean(0))),
                    [Idle(3, Same(u.line)), Idle(1, Other(u))], [[], []], [])
  {
    hide Reached;
    var left, line, third := Left(u, other), u.line, Slot(Claiming, 2, Same(u.line));
    var vs, zeros := Along(left, line), One(|line|, 0, Clean(0));
    var again, lost := AskerOf(u).(pc := ClaimCas(0, line[0], Clean(2))), Idle(1, Other(u));
    run := ThirdStarts(u, other);
    LayAlong(left, line);
    OpValues(line, 0, 0, 0);
    OpValues(line, 0, 2, 3);
    run := HelperCleans(u, run, left, [third, Waiting(u)], [[OwnerOf(2)], [AskerOf(u), Cleaning(u)]], [], 1, line, vs,
                        AskerOf(u), Cleaning(u));
    CleanedAlong(u, other);
    assert [[OwnerOf(2)], [AskerOf(u), Cleaning(u)]][1 := [again]] == [[OwnerOf(2)], [again]];
    run := CallFails(u, run, left, [third, Waiting(u)], [[OwnerOf(2)], [again]], [], 1, line, zeros, again.pc);
    assert [third, Waiting(u)][1 := lost] == [third, lost];
    assert [[OwnerOf(2)], [again]][1 := []] == [[OwnerOf(2)], []];
    run := CallSucceeds(u, run, left, [third, lost], [[OwnerOf(2)], []], [], 0, line, zeros);
    assert [third, lost][0 := Idle(3, Same(line))] == [Idle(3, Same(line)), lost];
    assert [[OwnerOf(2)], []][0 := []] == [[], []];
    Forget(u, run, Lay(left, line, zeros), [Idle(3, Same(line)), lost], [[], []],
           [] + [Fact(OpId(0, 2), Same(line), true)]);
  }

  lemma CleanedAlong(u: Setup, other: seq<Addr>)
    requires Moving(u, other)
    ensures RevertFrom(Along(Left(u, other), u.line), Same(u.line), |u.line| - 1, Marker(0, 0))
         == One(|u.line|, 0, Clean(0))
  {
    forall x | 0 <= x < |u.line|
      ensures Left(u, other)[u.line[x]] == Marker(0, 0) || Left(u, other)[u.line[x]] == Clean(0)
    {
      assert u.mem[u.line[x]] == Clean(0);
    }
  }

  // A run without `stable`, wherever calls can have the targets of the setup and, in
  // place of all of them, targets `other`, one of which is not among the former: no
  // call is in flight any more, and that word still holds the marker of an operation
  // that ended.
  lemma ReuseLeavesMarkers(u: Setup, other: seq<Addr>, p: nat) returns (run: seq<World>)
    requires Moving(u, other) && p < |other| && other[p] !in u.line
    ensures Run(u.cfg, run) && |run[0].stacks| == 2 + u.idle && AllReturned(Last(run))
    ensures other[p] < |Last(run).sh.mem| && Last(run).sh.mem[other[p]] == Marker(0, 0)
    ensures |Last(run).sh.slots| > 0 && Last(run).sh.slots[0].seqno == 3
  {
    run := BothReturn(u, other);
    assert PlaceOf(u.line, other[p]) == |u.line|;
    LayAt(u.mem, other, All(|other|, Marker(0, 0)), p);
  }
}
