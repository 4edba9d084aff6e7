// A run of the repository's test, with four threads, after which its assertion does
// not hold: a slot given up early is taken by a later thread while two helpers are
// still at work on the first thread's operation.
module TestFails {
  import opened KcasTypes
  import opened StepMachine
  import opened CallerPromises
  import opened Linearizability
  import opened CallPhases
  import opened WitnessRuns
  import opened ConcurrencyTest

  // Thread 0 keeps the targets at 0. Thread 1 meets its marker, helps and has loaded
  // the expected value 0; thread 2 helps it in its set phase. Thread 0 ends, and
  // thread 3 gets its slot and publishes its words. Thread 2 loads thread 3's desired
  // value 3, thread 1 marks the first word once more for thread 0, and thread 2
  // replaces that marker by 3. No call succeeds any more.

  function Call(u: Setup, i: nat): (words: seq<KWord>)
    ensures |words| == |u.line|
  {
    seq(|u.line|, x requires 0 <= x < |u.line| => KWord(Some(u.line[x]), Clean(0), Clean(i)))
  }

  lemma CallValues(u: Setup, i: nat)
    ensures OnLine(Call(u, i), u.line) && NonDecreasing(Call(u, i))
    ensures Expecteds(Call(u, i)) == All(|u.line|, Clean(0))
    ensures Desireds(Call(u, i)) == All(|u.line|, Clean(i))
    ensures TestWords(Call(u, i), u.line, i)
  {
  }

  // Three slots make calls of at least two words, and descriptors may be reused.
  ghost predicate Reusable(u: Setup) {
    && Ready(u) && u.busy == 3 && |u.line| >= 2 && !u.cfg.stable
    && forall x :: 0 <= x < |u.line| ==> u.mem[u.line[x]] == Clean(0)
  }

  function Claiming(u: Setup, i: nat): Slot {
    Slot(Stage.Claiming, 0, Call(u, i))
  }

  function Over(u: Setup, i: nat, seqno: nat): Slot {
    Slot(Inactive, seqno, Call(u, i))
  }

  function Zeros(u: Setup): seq<Value> {
    All(|u.line|, Clean(0))
  }

  function Marks(u: Setup): seq<Value> {
    All(|u.line|, Marker(0, 0))
  }

  function AskerOf(u: Setup, t: nat): Frame
    requires u.line != []
  {
    Asker(t, 0, u.line, Clean(0))
  }

  const OWNER := Frame(0, 0, true, DecideSetting)
  const HELPER := Frame(0, 0, false, DecideSetting)

  // Thread 1's helper about to claim the first word, and thread 2's in the set phase.
  function Claimer(u: Setup): seq<Frame>
    requires u.line != []
  {
    [AskerOf(u, 1), HELPER.(pc := ClaimCas(0, u.line[0], Clean(0)))]
  }

  function Setter(u: Setup, pc: Pc): seq<Frame>
    requires u.line != []
  {
    [AskerOf(u, 2), HELPER.(pc := pc)]
  }

  function Facts(u: Setup): seq<Fact> {
    [Fact(OpId(0, 0), Call(u, 0), false), Fact(OpId(1, 0), Call(u, 1), false), Fact(OpId(0, 0), Call(u, 0), true),
     Fact(OpId(2, 0), Call(u, 2), false), Fact(OpId(0, 1), Call(u, 3), false)]
  }

  // Thread 0 claims all words.
  lemma ZeroClaims(u: Setup) returns (run: seq<World>)
    requires Reusable(u)
    ensures Reached(u, run, Mem(u, Marks(u)), [Claiming(u, 0), IdleSlot(u.cfg.k), IdleSlot(u.cfg.k)], [[OWNER], [], []],
                    Facts(u)[..1])
  {
    hide Reached;
    var idle, f := IdleSlot(u.cfg.k), OWNER.(pc := ClaimLoadTarget(0));
    run := Opens(u);
    var nobody: seq<seq<Frame>> := seq(u.busy, _ => []);
    assert seq(u.busy, _ => idle) == [idle, idle, idle] && nobody == [[], [], []];
    assert u.mem == Mem(u, Zeros(u));
    CallValues(u, 0);
    run := CallStarts(u, run, u.mem, [idle, idle, idle], [[], [], []], [], 0, u.line, Call(u, 0));
    assert [idle, idle, idle][0 := Claiming(u, 0)] == [Claiming(u, 0), idle, idle];
    assert [[], [], []][0 := [f]] == [[f], [], []] && [] + [Fact(OpId(0, 0), Call(u, 0), false)] == Facts(u)[..1];
    run := OwnerMarks(u, run, u.mem, [Claiming(u, 0), idle, idle], [[f], [], []], Facts(u)[..1], 0, u.line, Zeros(u));
    assert [[f], [], []][0 := [OWNER]] == [[OWNER], [], []];
  }

  // Thread 1 starts to help and loads the first expected value.
  lemma OneHelps(u: Setup) returns (run: seq<World>)
    requires Reusable(u)
    ensures Reached(u, run, Mem(u, Marks(u)), [Claiming(u, 0), Claiming(u, 1), IdleSlot(u.cfg.k)],
                    [[OWNER], Claimer(u), []], Facts(u)[..2])
  {
    hide Reached;
    var line, idle, mem := u.line, IdleSlot(u.cfg.k), Mem(u, Marks(u));
    var f, h := Frame(1, 0, true, ClaimLoadTarget(0)), HELPER.(pc := ClaimLoadTarget(0));
    run := ZeroClaims(u);
    CallValues(u, 0);
    CallValues(u, 1);
    run := CallStarts(u, run, mem, [Claiming(u, 0), idle, idle], [[OWNER], [], []], Facts(u)[..1], 1, line, Call(u, 1));
    assert [Claiming(u, 0), idle, idle][1 := Claiming(u, 1)] == [Claiming(u, 0), Claiming(u, 1), idle];
    assert [[OWNER], [], []][1 := [f]] == [[OWNER], [f], []];
    assert Facts(u)[..1] + [Fact(OpId(1, 0), Call(u, 1), false)] == Facts(u)[..2];
    run := HelperEnters(u, run, u.mem, [Claiming(u, 0), Claiming(u, 1), idle], [[OWNER], [f], []], Facts(u)[..2], 1,
                        line, Marks(u), 0);
    assert [[OWNER], [f], []][1 := [AskerOf(u, 1), h]] == [[OWNER], [AskerOf(u, 1), h], []];
    run := HelperLoads(u, run, mem, [Claiming(u, 0), Claiming(u, 1), idle], [[OWNER], [AskerOf(u, 1), h], []],
                       Facts(u)[..2], 1, line, AskerOf(u, 1), h);
    assert [[OWNER], [AskerOf(u, 1), h], []][1 := Claimer(u)] == [[OWNER], Claimer(u), []];
  }

  // Thread 0 commits, and thread 2 comes to help with the set phase.
  lemma TwoHelps(u: Setup) returns (run: seq<World>)
    requires Reusable(u)
    ensures Reached(u, run, Mem(u, Marks(u)), [Slot(Setting, 0, Call(u, 0)), Claiming(u, 1), Claiming(u, 2)],
                    [[OWNER.(pc := SetLoadTarget(0))], Claimer(u), Setter(u, SetLoadTarget(0))], Facts(u)[..4])
  {
    hide Reached;
    var line, idle, mem := u.line, IdleSlot(u.cfg.k), Mem(u, Marks(u));
    var setting, paused, f := Slot(Setting, 0, Call(u, 0)), [OWNER.(pc := SetLoadTarget(0))],
                              Frame(2, 0, true, ClaimLoadTarget(0));
    run := OneHelps(u);
    CallValues(u, 0);
    CallValues(u, 2);
    run := OwnerDecides(u, run, u.mem, [Claiming(u, 0), Claiming(u, 1), idle], [[OWNER], Claimer(u), []], Facts(u)[..2],
                        0, line);
    assert [Claiming(u, 0), Claiming(u, 1), idle][0 := setting] == [setting, Claiming(u, 1), idle];
    assert [[OWNER], Claimer(u), []][0 := paused] == [paused, Claimer(u), []];
    assert Facts(u)[..2] + [Fact(OpId(0, 0), Call(u, 0), true)] == Facts(u)[..3];
    run := CallStarts(u, run, mem, [setting, Claiming(u, 1), idle], [paused, Claimer(u), []], Facts(u)[..3], 2, line,
                      Call(u, 2));
    assert [setting, Claiming(u, 1), idle][2 := Claiming(u, 2)] == [setting, Claiming(u, 1), Claiming(u, 2)];
    assert [paused, Claimer(u), []][2 := [f]] == [paused, Claimer(u), [f]];
    assert Facts(u)[..3] + [Fact(OpId(2, 0), Call(u, 2), false)] == Facts(u)[..4];
    run := HelperEnters(u, run, u.mem, [setting, Claiming(u, 1), Claiming(u, 2)], [paused, Claimer(u), [f]],
                        Facts(u)[..4], 2, line, Marks(u), 0);
    assert [paused, Claimer(u), [f]][2 := Setter(u, SetLoadTarget(0))]
        == [paused, Claimer(u), Setter(u, SetLoadTarget(0))];
  }

  // Thread 0 returns and drops its wrapper; thread 3 gets the slot.
  lemma ThreeComes(u: Setup) returns (run: seq<World>)
    requires Reusable(u)
    ensures Reached(u, run, Mem(u, Zeros(u)), [Over(u, 0, 1), Claiming(u, 1), Claiming(u, 2)],
                    [[], Claimer(u), Setter(u, SetLoadTarget(0))], Facts(u)[..4])
  {
    hide Reached;
    var line, setting, facts := u.line, Slot(Setting, 0, Call(u, 0)), Facts(u)[..4];
    var f, g, set0 := OWNER.(pc := SetLoadTarget(0)), OWNER.(pc := Prepare(Ok)), Setter(u, SetLoadTarget(0));
    var slots := [setting, Claiming(u, 1), Claiming(u, 2)];
    run := TwoHelps(u);
    CallValues(u, 0);
    run := OwnerSets(u, run, u.mem, slots, [[f], Claimer(u), set0], facts, 0, line);
    assert [[f], Claimer(u), set0][0 := [g]] == [[g], Claimer(u), set0];
    run := OwnerResets(u, run, Mem(u, Zeros(u)), slots, [[g], Claimer(u), set0], facts, 0);
    assert slots[0 := Over(u, 0, 1)] == [Over(u, 0, 1), Claiming(u, 1), Claiming(u, 2)];
    assert [[g], Claimer(u), set0][0 := []] == [[], Claimer(u), set0];
    run := ChangesHands(u, run, Mem(u, Zeros(u)), [Over(u, 0, 1), Claiming(u, 1), Claiming(u, 2)],
                        [[], Claimer(u), set0], facts, 0);
  }

  // Thread 3 publishes its words, and thread 2's helper loads the desired value 3.
  lemma TwoMisreads(u: Setup) returns (run: seq<World>)
    requires Reusable(u)
    ensures Reached(u, run, Mem(u, Zeros(u)), [Slot(Stage.Claiming, 1, Call(u, 3)), Claiming(u, 1), Claiming(u, 2)],
                    [[Frame(0, 1, true, ClaimLoadTarget(0))], Claimer(u), Setter(u, SetCas(0, u.line[0], Clean(3)))],
                    Facts(u))
  {
    hide Reached;
    var line, mem, f := u.line, Mem(u, Zeros(u)), Frame(0, 1, true, ClaimLoadTarget(0));
    var third, slots := Slot(Stage.Claiming, 1, Call(u, 3)), [Over(u, 0, 1), Claiming(u, 1), Claiming(u, 2)];
    var set0, set1 := Setter(u, SetLoadTarget(0)), Setter(u, SetCas(0, line[0], Clean(3)));
    run := ThreeComes(u);
    CallValues(u, 3);
    run := CallStarts(u, run, mem, slots, [[], Claimer(u), set0], Facts(u)[..4], 0, line, Call(u, 3));
    assert slots[0 := third] == [third, Claiming(u, 1), Claiming(u, 2)];
    assert [[], Claimer(u), set0][0 := [f]] == [[f], Claimer(u), set0];
    assert Facts(u)[..4] + [Fact(OpId(0, 1), Call(u, 3), false)] == Facts(u);
    run := HelperLoadsDesired(u, run, mem, [third, Claiming(u, 1), Claiming(u, 2)], [[f], Claimer(u), set0], Facts(u),
                              2, line, AskerOf(u, 2), set0[1]);
    assert [[f], Claimer(u), set0][2 := set1] == [[f], Claimer(u), set1];
  }

  // Thread 1's helper marks the first word, and thread 2's replaces the marker by 3.
  lemma ThreeAppears(u: Setup) returns (run: seq<World>)
    requires Reusable(u)
    ensures Reached(u, run, Mem(u, One(|u.line|, 0, Clean(3))),
                    [Slot(Stage.Claiming, 1, Call(u, 3)), Claiming(u, 1), Claiming(u, 2)],
                    [[Frame(0, 1, true, ClaimLoadTarget(0))], [AskerOf(u, 1), HELPER.(pc := ClaimLoadTarget(1))],
                     Setter(u, RevertLoadTarget(|u.line| - 1, HelpOutdated))], Facts(u))
  {
    hide Reached;
    var line, k, owner, facts := u.line, |u.line|, [Frame(0, 1, true, ClaimLoadTarget(0))], Facts(u);
    var slots := [Slot(Stage.Claiming, 1, Call(u, 3)), Claiming(u, 1), Claiming(u, 2)];
    var set1, set2 := Setter(u, SetCas(0, line[0], Clean(3))), Setter(u, RevertLoadTarget(k - 1, HelpOutdated));
    var next := [AskerOf(u, 1), HELPER.(pc := ClaimLoadTarget(1))];
    run := TwoMisreads(u);
    CallValues(u, 3);
    run := HelperMarksNext(u, run, u.mem, slots, [owner, Claimer(u), set1], facts, 1, line, Zeros(u), AskerOf(u, 1),
                           Claimer(u)[1], 0);
    assert [owner, Claimer(u), set1][1 := next] == [owner, next, set1];
    assert Zeros(u)[0 := Marker(0, 0)] == One(k, 0, Marker(0, 0));
    run := HelperSetsFirst(u, run, u.mem, slots, [owner, next, set1], facts, 2, line, One(k, 0, Marker(0, 0)),
                           AskerOf(u, 2), set1[1], Clean(3));
    assert [owner, next, set1][2 := set2] == [owner, next, set2];
    assert One(k, 0, Marker(0, 0))[0 := Clean(3)] == One(k, 0, Clean(3));
  }

  // Thread 2's helper cleans up, and its call fails.
  lemma TwoReturns(u: Setup) returns (run: seq<World>)
    requires Reusable(u)
    ensures Reached(u, run, Mem(u, One(|u.line|, 0, Clean(3))),
                    [Slot(Stage.Claiming, 1, Call(u, 3)), Claiming(u, 1), Over(u, 2, 1)],
                    [[Frame(0, 1, true, ClaimLoadTarget(0))], [AskerOf(u, 1), HELPER.(pc := ClaimLoadTarget(1))], []],
                    Facts(u))
  {
    hide Reached;
    var line, vs, third, facts := u.line, One(|u.line|, 0, Clean(3)), Slot(Stage.Claiming, 1, Call(u, 3)), Facts(u);
    var owner, next := [Frame(0, 1, true, ClaimLoadTarget(0))], [AskerOf(u, 1), HELPER.(pc := ClaimLoadTarget(1))];
    var help, again := Setter(u, RevertLoadTarget(|line| - 1, HelpOutdated)),
                       AskerOf(u, 2).(pc := ClaimCas(0, line[0], Clean(0)));
    var slots := [third, Claiming(u, 1), Claiming(u, 2)];
    run := ThreeAppears(u);
    CallValues(u, 3);
    CallValues(u, 2);
    run := HelperCleans(u, run, u.mem, slots, [owner, next, help], facts, 2, line, vs, AskerOf(u, 2), help[1]);
    assert RevertFrom(vs, Call(u, 3), |line| - 1, Marker(0, 0)) == vs;
    assert [owner, next, help][2 := [again]] == [owner, next, [again]];
    run := CallFails(u, run, u.mem, slots, [owner, next, [again]], facts, 2, line, vs, again.pc);
    assert slots[2 := Over(u, 2, 1)] == [third, Claiming(u, 1), Over(u, 2, 1)];
    assert [owner, next, [again]][2 := []] == [owner, next, []];
  }

  // So does thread 1's helper after it has marked the other words.
  lemma OneCleans(u: Setup) returns (run: seq<World>)
    requires Reusable(u)
    ensures Reached(u, run, Mem(u, One(|u.line|, 0, Clean(3))),
                    [Slot(Stage.Claiming, 1, Call(u, 3)), Claiming(u, 1), Over(u, 2, 1)],
                    [[Frame(0, 1, true, ClaimLoadTarget(0))],
                     [AskerOf(u, 1).(pc := ClaimCas(0, u.line[0], Clean(0)))], []], Facts(u))
  {
    hide Reached;
    var line, vs, third, facts := u.line, One(|u.line|, 0, Clean(3)), Slot(Stage.Claiming, 1, Call(u, 3)), Facts(u);
    var owner, f := [Frame(0, 1, true, ClaimLoadTarget(0))], HELPER.(pc := ClaimLoadTarget(1));
    var asker, again := AskerOf(u, 1), AskerOf(u, 1).(pc := ClaimCas(0, line[0], Clean(0)));
    var slots, cleaning := [third, Claiming(u, 1), Over(u, 2, 1)],
                           HELPER.(pc := RevertLoadTarget(|line| - 1, HelpOutdated));
    run := TwoReturns(u);
    CallValues(u, 3);
    run := HelperMarksRest(u, run, u.mem, slots, [owner, [asker, f], []], facts, 1, line, vs, asker, f, 1);
    var marked := MarkFrom(vs, 1, Marker(0, 0));
    assert [owner, [asker, f], []][1 := [asker, HELPER]] == [owner, [asker, HELPER], []];
    run := HelperIsOutdated(u, run, Mem(u, marked), slots, [owner, [asker, HELPER], []], facts, 1, asker, HELPER);
    assert [owner, [asker, HELPER], []][1 := [asker, cleaning]] == [owner, [asker, cleaning], []];
    run := HelperCleans(u, run, u.mem, slots, [owner, [asker, cleaning], []], facts, 1, line, marked, asker, cleaning);
    assert RevertFrom(marked, Call(u, 3), |line| - 1, Marker(0, 0)) == vs;
    assert [owner, [asker, cleaning], []][1 := [again]] == [owner, [again], []];
  }

  // The other calls fail too.
  lemma AllReturn(u: Setup) returns (run: seq<World>)
    requires Reusable(u)
    ensures Reached(u, run, Mem(u, One(|u.line|, 0, Clean(3))), [Over(u, 3, 2), Over(u, 1, 1), Over(u, 2, 1)],
                    [[], [], []], Facts(u))
  {
    hide Reached;
    var line, vs, third, facts := u.line, One(|u.line|, 0, Clean(3)), Slot(Stage.Claiming, 1, Call(u, 3)), Facts(u);
    var f, again := Frame(0, 1, true, ClaimLoadTarget(0)), AskerOf(u, 1).(pc := ClaimCas(0, line[0], Clean(0)));
    run := OneCleans(u);
    CallValues(u, 1);
    CallValues(u, 3);
    run := CallFails(u, run, u.mem, [third, Claiming(u, 1), Over(u, 2, 1)], [[f], [again], []], facts, 1, line, vs,
                     again.pc);
    assert [third, Claiming(u, 1), Over(u, 2, 1)][1 := Over(u, 1, 1)] == [third, Over(u, 1, 1), Over(u, 2, 1)];
    assert [[f], [again], []][1 := []] == [[f], [], []];
    run := CallFails(u, run, u.mem, [third, Over(u, 1, 1), Over(u, 2, 1)], [[f], [], []], facts, 0, line, vs, f.pc);
    assert [third, Over(u, 1, 1), Over(u, 2, 1)][0 := Over(u, 3, 2)] == [Over(u, 3, 2), Over(u, 1, 1), Over(u, 2, 1)];
    assert [[f], [], []][0 := []] == [[], [], []];
  }

  // ------------------------------------------------------- it is a test run

  lemma RecordedCalls(u: Setup, run: seq<World>, op: OpId)
    requires Reusable(u)
    requires Reached(u, run, Mem(u, One(|u.line|, 0, Clean(3))), [Over(u, 3, 2), Over(u, 1, 1), Over(u, 2, 1)],
                     [[], [], []], Facts(u))
    requires op in Last(run).hist.began
    ensures op == OpId(0, 0) || op == OpId(1, 0) || op == OpId(2, 0) || op == OpId(0, 1)
    ensures Last(run).hist.began[op] == Call(u, if op == OpId(0, 1) then 3 else op.slot)
  {
    BegunFinished(u, run, Mem(u, One(|u.line|, 0, Clean(3))), [Over(u, 3, 2), Over(u, 1, 1), Over(u, 2, 1)],
                  [[], [], []], Facts(u), op);
    assert Holds(Last(run), Facts(u)[0]) && Holds(Last(run), Facts(u)[1]);
    assert Holds(Last(run), Facts(u)[3]) && Holds(Last(run), Facts(u)[4]);
  }

  lemma CallsAreTest(u: Setup, run: seq<World>, m: nat)
    requires Reusable(u) && m + 1 < |run|
    requires Reached(u, run, Mem(u, One(|u.line|, 0, Clean(3))), [Over(u, 3, 2), Over(u, 1, 1), Over(u, 2, 1)],
                     [[], [], []], Facts(u))
    ensures GoodCallsAt(u.cfg, TestCalls(u.line, 4), run, m)
  {
    var w, w' := run[m], run[m + 1];
    forall t, words | Begin(u.cfg, w, w', t, words) ensures TestCalls(u.line, 4)(words) {
      assert CallAt(u.cfg, run, m, t, words);
      CallRecorded(u.cfg, run, m, t, words);
      var op :| op in Last(run).hist.began && Last(run).hist.began[op] == words;
      RecordedCalls(u, run, op);
      CallValues(u, if op == OpId(0, 1) then 3 else op.slot);
    }
  }

  // A run of the test, for any number of words from two and of slots from three: each
  // thread from 0 to 3 makes one call, all calls return, and the targets end with
  // different numbers.
  lemma TestCanFail(u: Setup) returns (run: seq<World>)
    requires Reusable(u)
    ensures TestRun(u.cfg, run, u.line, 4) && |run[0].stacks| == 3 + u.idle && AllReturned(Last(run))
    ensures forall op, p ::
              (op in Last(run).hist.began && p in Last(run).hist.began
               && Last(run).hist.began[op] == Last(run).hist.began[p])
              ==> op == p
    ensures OpId(0, 0) in Last(run).hist.results
    ensures HoldsNumber(Last(run).sh.mem, u.line[0], 3) && HoldsNumber(Last(run).sh.mem, u.line[1], 0)
  {
    run := AllReturn(u);
    forall m | 0 <= m < |run| - 1 ensures GoodCallsAt(u.cfg, TestCalls(u.line, 4), run, m) {
      CallsAreTest(u, run, m);
    }
    forall op, p | op in Last(run).hist.began && p in Last(run).hist.began
                   && Last(run).hist.began[op] == Last(run).hist.began[p]
      ensures op == p
    {
      RecordedCalls(u, run, op);
      RecordedCalls(u, run, p);
      assert Call(u, if op == OpId(0, 1) then 3 else op.slot)[0].desired
          == Call(u, if p == OpId(0, 1) then 3 else p.slot)[0].desired;
    }
    LayAt(u.mem, u.line, One(|u.line|, 0, Clean(3)), 0);
    LayAt(u.mem, u.line, One(|u.line|, 0, Clean(3)), 1);
    QuietRecord(u, run, Last(run).sh.mem, [Over(u, 3, 2), Over(u, 1, 1), Over(u, 2, 1)], [[], [], []], Facts(u));
    assert Facts(u)[2].committed;
  }

  // ------------------------------------------------------- what it depends on

  // Whenever the calls of the test have returned, its assertion holds.
  ghost predicate TestHolds(cfg: Config, slots: nat, targets: seq<Addr>, n: nat) {
    forall run: seq<World>, someone ::
      TestRun(cfg, run, targets, n) && |run[0].stacks| == slots && AllReturned(Last(run))
      && someone in Last(run).hist.results
      ==> OneNumber(Last(run).sh.mem, targets, n)
  }

  // For at least four threads, two words and three slots in use the test's assertion
  // holds in all runs if and only if no descriptor is reused under a helper.
  lemma TestDecided(cfg: Config, slots: nat, targets: seq<Addr>, n: nat)
    requires Chain(cfg, targets) && cfg.k >= 2 && slots >= 3 && n >= 4
    ensures TestHolds(cfg, slots, targets, n) <==> cfg.stable
  {
    if cfg.stable {
      forall run: seq<World>, someone | TestRun(cfg, run, targets, n) && |run[0].stacks| == slots
                                        && AllReturned(Last(run)) && someone in Last(run).hist.results
        ensures OneNumber(Last(run).sh.mem, targets, n)
      {
        TestOutcome(cfg, run, targets, n, someone);
      }
    } else {
      var u := Setup(cfg, targets, 3, slots - 3, seq(|cfg.rank|, _ => Clean(0)));
      var run := TestCanFail(u);
      MoreThreads(cfg, run, targets, n);
      assert !OneNumber(Last(run).sh.mem, targets, n);
    }
  }

  lemma MoreThreads(cfg: Config, run: seq<World>, targets: seq<Addr>, n: nat)
    requires TestRun(cfg, run, targets, 4) && n >= 4
    ensures TestRun(cfg, run, targets, n)
  {
    forall m | 0 <= m < |run| - 1 ensures GoodCallsAt(cfg, TestCalls(targets, n), run, m) {
      assert GoodCallsAt(cfg, TestCalls(targets, 4), run, m);
      MoreCalls(cfg, run[m], run[m + 1], targets, n);
    }
  }

  lemma MoreCalls(cfg: Config, w: World, w': World, targets: seq<Addr>, n: nat)
    requires GoodCalls(cfg, TestCalls(targets, 4), w, w') && n >= 4
    ensures GoodCalls(cfg, TestCalls(targets, n), w, w')
  {
    forall t, words | Begin(cfg, w, w', t, words) ensures TestCalls(targets, n)(words) {
      assert TestCalls(targets, 4)(words);
    }
  }
}
