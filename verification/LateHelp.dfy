// The beginning of the runs in which a helper comes too late: slot 0 claims its
// words, slot 1 runs into its marker and starts to help, and slot 0 commits. The
// helper pauses either as it starts to claim, so that it loads the words of a later
// operation of the slot, or with an expected value loaded, so that its first
// compare-and-swap comes after the commit. The runs that go on from here are in the
// modules on recurring values, reused descriptors and dead markers.
module LateHelp {
  import opened KcasTypes
  import opened StepMachine
  import opened WitnessRuns

  // At least two slots make calls, and the words hold 0 at first.
  ghost predicate Scenario(u: Setup) {
    && Ready(u) && u.busy >= 2
    && forall x :: 0 <= x < |u.line| ==> u.mem[u.line[x]] == Clean(0)
  }

  // Slot 0 takes word 0 from 0 to `d`; slot 1's call expects 2 there.
  function Up(u: Setup, d: nat): seq<KWord> {
    Op(u.line, 0, 0, d)
  }

  function Other(u: Setup): seq<KWord> {
    Op(u.line, 0, 2, 3)
  }

  function Waiting(u: Setup): Slot {
    Slot(Claiming, 0, Other(u))
  }

  const OWNER := Frame(0, 0, true, DecideSetting)
  const HELPER := Frame(0, 0, false, ClaimLoadTarget(0))

  function AskerOf(u: Setup): Frame
    requires u.line != []
  {
    Asker(1, 0, u.line, Clean(2))
  }

  function Loaded(u: Setup): Frame
    requires u.line != []
  {
    HELPER.(pc := ClaimCas(0, u.line[0], Clean(0)))
  }

  // The line holds `v` and then zeros, or nothing but slot 0's marker.
  function Holding(u: Setup, v: Value): seq<Value> {
    Mem(u, One(|u.line|, 0, v))
  }

  function Claimed(u: Setup): seq<Value> {
    Mem(u, All(|u.line|, Marker(0, 0)))
  }

  function Two(u: Setup, a: Slot, b: Slot): seq<Slot>
    requires u.busy >= 2
  {
    [a, b] + seq(u.busy - 2, _ => IdleSlot(u.cfg.k))
  }

  function TwoStacks(u: Setup, s: seq<Frame>, t: seq<Frame>): seq<seq<Frame>>
    requires u.busy >= 2
  {
    [s, t] + seq(u.busy - 2, _ => [])
  }

  function Called(u: Setup, d: nat): seq<Fact> {
    [Fact(OpId(0, 0), Up(u, d), false), Fact(OpId(1, 0), Other(u), false)]
  }

  lemma Opened(u: Setup) returns (run: seq<World>)
    requires Scenario(u)
    ensures Reached(u, run, Holding(u, Clean(0)), Two(u, IdleSlot(u.cfg.k), IdleSlot(u.cfg.k)),
                    TwoStacks(u, [], []), [])
  {
    run := Opens(u);
    var idle := IdleSlot(u.cfg.k);
    assert seq(u.busy, _ => idle) == Two(u, idle, idle);
    assert seq(u.busy, _ => []) == TwoStacks(u, [], []);
    assert Holding(u, Clean(0)) == u.mem;
  }

  // Slot 0 claims its words and pauses before it commits.
  lemma FirstClaims(u: Setup, d: nat) returns (run: seq<World>)
    requires Scenario(u)
    ensures Reached(u, run, Claimed(u), Two(u, Slot(Claiming, 0, Up(u, d)), IdleSlot(u.cfg.k)),
                    TwoStacks(u, [OWNER], []), Called(u, d)[..1])
  {
    hide Reached;
    var k, idle, up, f := u.cfg.k, IdleSlot(u.cfg.k), Slot(Claiming, 0, Up(u, d)), OWNER.(pc := ClaimLoadTarget(0));
    run := Opened(u);
    OpValues(u.line, 0, 0, d);
    assert !HelperAtWork(TwoStacks(u, [], []), 0);
    run := CallStarts(u, run, Holding(u, Clean(0)), Two(u, idle, idle), TwoStacks(u, [], []), [], 0, u.line, Up(u, d));
    assert Two(u, idle, idle)[0 := up] == Two(u, up, idle);
    assert TwoStacks(u, [], [])[0 := [f]] == TwoStacks(u, [f], []);
    assert [] + [Fact(OpId(0, 0), Up(u, d), false)] == Called(u, d)[..1];
    run := OwnerMarks(u, run, u.mem, Two(u, up, idle), TwoStacks(u, [f], []), Called(u, d)[..1], 0, u.line,
                      One(|u.line|, 0, Clean(0)));
    assert TwoStacks(u, [f], [])[0 := [OWNER]] == TwoStacks(u, [OWNER], []);
  }

  // Slot 1 runs into the marker and starts to help.
  lemma HelperComes(u: Setup, d: nat) returns (run: seq<World>)
    requires Scenario(u)
    ensures Reached(u, run, Claimed(u), Two(u, Slot(Claiming, 0, Up(u, d)), Waiting(u)),
                    TwoStacks(u, [OWNER], [AskerOf(u), HELPER]), Called(u, d))
  {
    hide Reached;
    var idle, up, f := IdleSlot(u.cfg.k), Slot(Claiming, 0, Up(u, d)), AskerOf(u).(pc := ClaimLoadTarget(0));
    run := FirstClaims(u, d);
    OpValues(u.line, 0, 2, 3);
    OpValues(u.line, 0, 0, d);
    assert !HelperAtWork(TwoStacks(u, [OWNER], []), 1);
    run := CallStarts(u, run, Claimed(u), Two(u, up, idle), TwoStacks(u, [OWNER], []), Called(u, d)[..1], 1,
                      u.line, Other(u));
    assert Two(u, up, idle)[1 := Waiting(u)] == Two(u, up, Waiting(u));
    assert TwoStacks(u, [OWNER], [])[1 := [f]] == TwoStacks(u, [OWNER], [f]);
    assert Called(u, d)[..1] + [Fact(OpId(1, 0), Other(u), false)] == Called(u, d);
    run := HelperEnters(u, run, u.mem, Two(u, up, Waiting(u)), TwoStacks(u, [OWNER], [f]), Called(u, d), 1, u.line,
                        All(|u.line|, Marker(0, 0)), 0);
    assert TwoStacks(u, [OWNER], [f])[1 := [AskerOf(u), HELPER]] == TwoStacks(u, [OWNER], [AskerOf(u), HELPER]);
  }

  // The helper has loaded the expected value 0 and pauses.
  lemma HelperPauses(u: Setup, d: nat) returns (run: seq<World>)
    requires Scenario(u)
    ensures Reached(u, run, Claimed(u), Two(u, Slot(Claiming, 0, Up(u, d)), Waiting(u)),
                    TwoStacks(u, [OWNER], [AskerOf(u), Loaded(u)]), Called(u, d))
  {
    hide Reached;
    var up := Slot(Claiming, 0, Up(u, d));
    run := HelperComes(u, d);
    OpValues(u.line, 0, 0, d);
    run := HelperLoads(u, run, Claimed(u), Two(u, up, Waiting(u)), TwoStacks(u, [OWNER], [AskerOf(u), HELPER]),
                       Called(u, d), 1, u.line, AskerOf(u), HELPER);
    assert TwoStacks(u, [OWNER], [AskerOf(u), HELPER])[1 := [AskerOf(u), Loaded(u)]]
        == TwoStacks(u, [OWNER], [AskerOf(u), Loaded(u)]);
  }

  // Slot 0 commits, switches its words and pauses before its reset.
  lemma FirstCommits(u: Setup, d: nat, run: seq<World>, helper: Frame) returns (longer: seq<World>)
    requires Scenario(u)
    requires Reached(u, run, Claimed(u), Two(u, Slot(Claiming, 0, Up(u, d)), Waiting(u)),
                     TwoStacks(u, [OWNER], [AskerOf(u), helper]), Called(u, d))
    ensures Reached(u, longer, Holding(u, Clean(d)), Two(u, Slot(Setting, 0, Up(u, d)), Waiting(u)),
                    TwoStacks(u, [OWNER.(pc := Prepare(Ok))], [AskerOf(u), helper]),
                    Called(u, d) + [Fact(OpId(0, 0), Up(u, d), true)])
  {
    hide Reached;
    var up, paused, help := Slot(Claiming, 0, Up(u, d)), OWNER.(pc := Prepare(Ok)), [AskerOf(u), helper];
    OpValues(u.line, 0, 0, d);
    longer := OwnerCommits(u, run, u.mem, Two(u, up, Waiting(u)), TwoStacks(u, [OWNER], help), Called(u, d), 0, u.line);
    assert Two(u, up, Waiting(u))[0 := Slot(Setting, 0, Up(u, d))] == Two(u, Slot(Setting, 0, Up(u, d)), Waiting(u));
    assert TwoStacks(u, [OWNER], help)[0 := [paused]] == TwoStacks(u, [paused], help);
  }

  // Slot 0 resets its slot and returns.
  lemma FirstReturns(u: Setup, d: nat, run: seq<World>, helper: Frame) returns (longer: seq<World>)
    requires Scenario(u)
    requires Reached(u, run, Claimed(u), Two(u, Slot(Claiming, 0, Up(u, d)), Waiting(u)),
                     TwoStacks(u, [OWNER], [AskerOf(u), helper]), Called(u, d))
    ensures Reached(u, longer, Holding(u, Clean(d)), Two(u, Slot(Inactive, 1, Up(u, d)), Waiting(u)),
                    TwoStacks(u, [], [AskerOf(u), helper]), Called(u, d) + [Fact(OpId(0, 0), Up(u, d), true)])
  {
    hide Reached;
    var setting, paused, help := Slot(Setting, 0, Up(u, d)), OWNER.(pc := Prepare(Ok)), [AskerOf(u), helper];
    longer := FirstCommits(u, d, run, helper);
    longer := OwnerResets(u, longer, Holding(u, Clean(d)), Two(u, setting, Waiting(u)), TwoStacks(u, [paused], help),
                          Called(u, d) + [Fact(OpId(0, 0), Up(u, d), true)], 0);
    assert Two(u, setting, Waiting(u))[0 := Slot(Inactive, 1, Up(u, d))]
        == Two(u, Slot(Inactive, 1, Up(u, d)), Waiting(u));
    assert TwoStacks(u, [paused], help)[0 := []] == TwoStacks(u, [], help);
  }
}
