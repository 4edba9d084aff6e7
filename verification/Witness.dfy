// Building blocks for concrete runs: the phases of a call as moves of one thread
// of a run, for any configuration in which a call can be made at all, any number of
// words and any number of further slots and addresses. A run is described by its last
// state, memory, the slots that make calls and their stacks, and by what it has put on
// record. Each lemma lets one thread go on for a phase and says what it has come to.
module WitnessRuns {
  import opened KcasTypes
  import opened StepMachine
  import opened ProtocolInvariant
  import opened SoloRuns
  import opened SoloSteps
  import opened SoloMeetsMachine
  import opened Linearizability
  import opened SequentialHistory
  import opened CallPhases

  // A caller may name `line` as the targets of a call.
  ghost predicate Chain(cfg: Config, line: seq<Addr>) {
    && cfg.k > 0 && |line| == cfg.k && Line(line, |cfg.rank|)
    && (cfg.ranked ==> forall x, y :: 0 <= x < y < |line| ==> cfg.rank[line[x]] < cfg.rank[line[y]])
  }

  // An operation that takes word `p` from `v` to `w` and compares the others with 0.
  function Op(line: seq<Addr>, p: nat, v: nat, w: nat): (words: seq<KWord>)
    ensures |words| == |line|
  {
    seq(|line|, x requires 0 <= x < |line| =>
      KWord(Some(line[x]), Clean(if x == p then v else 0), Clean(if x == p then w else 0)))
  }

  // A line of zeros with `v` at place `p`.
  function One(k: nat, p: nat, v: Value): (vs: seq<Value>)
    ensures |vs| == k
  {
    seq(k, x => if x == p then v else Clean(0))
  }

  function All(k: nat, v: Value): (vs: seq<Value>)
    ensures |vs| == k
  {
    seq(k, _ => v)
  }

  lemma OpValues(line: seq<Addr>, p: nat, v: nat, w: nat)
    ensures OnLine(Op(line, p, v, w), line)
    ensures Expecteds(Op(line, p, v, w)) == One(|line|, p, Clean(v))
    ensures Desireds(Op(line, p, v, w)) == One(|line|, p, Clean(w))
    ensures v <= w ==> NonDecreasing(Op(line, p, v, w))
  {
  }

  lemma LinePlace(line: seq<Addr>, size: nat, words: seq<KWord>, x: nat)
    requires Line(line, size) && OnLine(words, line) && x < |line|
    ensures DistinctTargets(words) && WordAt(words, line[x]) == x
  {
  }

  lemma OnChain(cfg: Config, line: seq<Addr>, words: seq<KWord>)
    requires Chain(cfg, line) && OnLine(words, line)
    ensures ValidWords(words, cfg.k, |cfg.rank|) && (cfg.ranked ==> Ranked(words, cfg.rank))
  {
    assert forall x :: 0 <= x < |line| ==> RankOf(words[x].target, cfg.rank) == cfg.rank[line[x]];
  }

  // ------------------------------------------------------- states of a run

  // A configuration, the targets of its calls, the numbers of slots that make calls
  // and of idle ones, and the first memory.
  datatype Setup = Setup(cfg: Config, line: seq<Addr>, busy: nat, idle: nat, mem: seq<Value>)

  ghost predicate Ready(u: Setup) {
    && Chain(u.cfg, u.line) && |u.cfg.rank| == |u.mem|
    && forall a :: 0 <= a < |u.mem| ==> u.mem[a].Clean?
  }

  function IdleSlot(k: nat): Slot {
    Slot(Inactive, 0, seq(k, _ => NULL_WORD))
  }

  function State(u: Setup, mem: seq<Value>, slots: seq<Slot>): Shared {
    Shared(mem, slots + seq(u.idle, _ => IdleSlot(u.cfg.k)))
  }

  // Memory with the values `vs` along the line.
  function Mem(u: Setup, vs: seq<Value>): seq<Value>
    requires |vs| == |u.line|
  {
    Lay(u.mem, u.line, vs)
  }

  function Threads(u: Setup, stacks: seq<seq<Frame>>): seq<seq<Frame>> {
    stacks + seq(u.idle, _ => [])
  }

  // What a run has put on record: an operation's words, and perhaps its commit.
  datatype Fact = Fact(op: OpId, words: seq<KWord>, committed: bool)

  ghost predicate Holds(w: World, fact: Fact) {
    && fact.op in w.hist.began && w.hist.began[fact.op] == fact.words
    && (fact.committed ==> fact.op in w.hist.committed)
  }

  ghost predicate AllHold(w: World, facts: seq<Fact>) {
    forall i :: 0 <= i < |facts| ==> Holds(w, facts[i])
  }

  ghost predicate Reached(u: Setup, run: seq<World>, mem: seq<Value>, slots: seq<Slot>, stacks: seq<seq<Frame>>,
                          facts: seq<Fact>) {
    && Ready(u) && Run(u.cfg, run) && |run[0].stacks| == u.busy + u.idle && run[0].sh.mem == u.mem
    && |slots| == |stacks| == u.busy && |mem| == |u.mem|
    && Last(run).sh == State(u, mem, slots) && Last(run).stacks == Threads(u, stacks)
    && Last(run).taken == seq(u.busy, _ => true) + seq(u.idle, _ => false)
    && AllHold(Last(run), facts)
  }

  lemma FactsStay(cfg: Config, run: seq<World>, longer: seq<World>, facts: seq<Fact>)
    requires Run(cfg, longer) && run != [] && run <= longer && AllHold(Last(run), facts)
    ensures AllHold(Last(longer), facts)
  {
    var m := |run| - 1;
    assert longer[m] == Last(run);
    CommittedStays(cfg, longer, m, |longer| - 1);
    forall i | 0 <= i < |facts| ensures Holds(Last(longer), facts[i]) {
      assert Holds(Last(run), facts[i]);
      WordsStay(cfg, longer, m, |longer| - 1, facts[i].op);
    }
  }

  // An operation under way is on record with its words, and so is its commit.
  lemma Learns(u: Setup, run: seq<World>, mem: seq<Value>, slots: seq<Slot>, stacks: seq<seq<Frame>>,
               facts: seq<Fact>, i: nat)
    requires Reached(u, run, mem, slots, stacks, facts) && i < u.busy && slots[i].stage != Inactive
    ensures var fact := Fact(OpId(i, slots[i].seqno), slots[i].words, Committed(slots[i].stage));
            Reached(u, run, mem, slots, stacks, facts + [fact])
  {
    RunInvariant(u.cfg, run, |run| - 1);
    assert SlotHistory(Last(run).sh, Last(run).hist, i);
  }

  function StackOf(s: SoloState): seq<Frame> {
    if s.Halted? then [] else s.below + [s.frame]
  }

  // Thread `t` runs alone for a while.
  lemma Moves(u: Setup, run: seq<World>, mem: seq<Value>, slots: seq<Slot>, stacks: seq<seq<Frame>>, facts: seq<Fact>,
              t: nat, s: SoloState, s': SoloState, mem': seq<Value>, slots': seq<Slot>)
    returns (longer: seq<World>)
    requires Reached(u, run, mem, slots, stacks, facts) && t < u.busy && stacks[t] == StackOf(s)
    requires s.Running? && s.sh == State(u, mem, slots) && s'.sh == State(u, mem', slots')
    requires Leads(u.cfg.k, s, s') && |slots'| == u.busy && |mem'| == |u.mem|
    ensures Reached(u, longer, mem', slots', stacks[t := StackOf(s')], facts)
  {
    var trace :| Links(u.cfg.k, trace, s, s');
    longer := TraceContinues(u.cfg, run, t, trace, |trace| - 1);
    FactsStay(u.cfg, run, longer, facts);
    assert Last(longer).stacks == Threads(u, stacks[t := StackOf(s')]);
  }

  lemma SlotStored(u: Setup, mem: seq<Value>, slots: seq<Slot>, t: nat, stage: Stage, seqno: nat)
    requires t < |slots|
    ensures StoreStage(State(u, mem, slots), t, stage, seqno)
         == State(u, mem, slots[t := Slot(stage, seqno, slots[t].words)])
  {
  }

  // ----------------------------------------------------- what a thread does

  // The first `busy` slots of a fresh state are taken by wrappers.
  lemma Opens(u: Setup) returns (run: seq<World>)
    requires Ready(u)
    ensures Reached(u, run, u.mem, seq(u.busy, _ => IdleSlot(u.cfg.k)), seq(u.busy, _ => []), [])
  {
    var slots, stacks := seq(u.busy, _ => IdleSlot(u.cfg.k)), seq(u.busy, _ => []);
    var w := World(State(u, u.mem, slots), Threads(u, stacks), seq(u.busy + u.idle, _ => false), NO_HISTORY);
    assert Init(u.cfg, w);
    run := Takes(u.cfg, [w], u.busy);
    assert Last(run).taken == seq(u.busy, _ => true) + seq(u.idle, _ => false);
  }

  lemma {:induction false} Takes(cfg: Config, run: seq<World>, n: nat) returns (longer: seq<World>)
    requires Run(cfg, run) && n <= |Last(run).taken| && forall t :: 0 <= t < n ==> !Last(run).taken[t]
    ensures Run(cfg, longer) && longer[0] == run[0]
    ensures Last(longer) == Last(run).(taken := seq(n, _ => true) + Last(run).taken[n..])
    decreases n
  {
    if n == 0 {
      longer := run;
      assert seq(0, _ => true) + Last(run).taken[0..] == Last(run).taken;
    } else {
      longer := Takes(cfg, run, n - 1);
      var w := Last(longer).(taken := Last(longer).taken[n - 1 := true]);
      assert Acquire(Last(longer), w, n - 1);
      Append(cfg, longer, w);
      longer := longer + [w];
      assert w.taken == seq(n, _ => true) + Last(run).taken[n..];
    }
  }

  // The wrapper of slot `t` is dropped, and a new one gets the slot.
  lemma ChangesHands(u: Setup, run: seq<World>, mem: seq<Value>, slots: seq<Slot>, stacks: seq<seq<Frame>>,
                     facts: seq<Fact>, t: nat)
    returns (longer: seq<World>)
    requires Reached(u, run, mem, slots, stacks, facts) && t < u.busy && stacks[t] == []
    ensures Reached(u, longer, mem, slots, stacks, facts)
    ensures |longer| == |run| + 2 && run <= longer
    ensures Release(Last(run), longer[|run|], t) && Acquire(longer[|run|], Last(longer), t)
  {
    var w := Last(run);
    var w1 := w.(taken := w.taken[t := false]);
    assert Release(w, w1, t);
    Append(u.cfg, run, w1);
    assert w == w1.(taken := w1.taken[t := true]);
    assert Acquire(w1, w, t);
    Append(u.cfg, run + [w1], w);
    longer := run + [w1] + [w];
  }

  // The words may be passed to a call of slot `t` now.
  ghost predicate Welcome(u: Setup, stacks: seq<seq<Frame>>, t: nat, line: seq<Addr>, words: seq<KWord>) {
    && Chain(u.cfg, line) && OnLine(words, line)
    && (u.cfg.mono ==> NonDecreasing(words)) && (u.cfg.stable ==> !HelperAtWork(stacks, t))
  }

  // The owner of slot `t` calls kcas and publishes its operation.
  lemma CallStarts(u: Setup, run: seq<World>, mem: seq<Value>, slots: seq<Slot>, stacks: seq<seq<Frame>>,
                   facts: seq<Fact>, t: nat, line: seq<Addr>, words: seq<KWord>)
    returns (longer: seq<World>)
    requires Reached(u, run, mem, slots, stacks, facts) && t < u.busy && stacks[t] == []
    requires Welcome(u, stacks, t, line, words)
    ensures var q := slots[t].seqno;
            Reached(u, longer, mem, slots[t := Slot(Claiming, q, words)],
                    stacks[t := [Frame(t, q, true, ClaimLoadTarget(0))]], facts + [Fact(OpId(t, q), words, false)])
  {
    var q, sh, slots' := slots[t].seqno, State(u, mem, slots), slots[t := Slot(Claiming, slots[t].seqno, words)];
    var first := Frame(t, 0, true, InitTarget(words, 0));
    longer := Calls(u, run, mem, slots, stacks, facts, t, line, words);
    RunInvariant(u.cfg, run, |run| - 1);
    assert SlotShape(Last(run).sh, u.cfg.k, t);
    Starts(sh, t, words);
    assert sh.slots[t := Slot(Claiming, q, words)] == State(u, mem, slots').slots;
    var s0, s1 := Running(sh, [], first), Running(State(u, mem, slots'), [], Frame(t, q, true, ClaimLoadTarget(0)));
    assert StackOf(s0) == [first] && StackOf(s1) == [s1.frame];
    longer := Moves(u, longer, mem, slots, stacks[t := [first]], facts, t, s0, s1, mem, slots');
    assert stacks[t := [first]][t := [s1.frame]] == stacks[t := [s1.frame]];
    Learns(u, longer, mem, slots', stacks[t := [s1.frame]], facts, t);
  }

  lemma Calls(u: Setup, run: seq<World>, mem: seq<Value>, slots: seq<Slot>, stacks: seq<seq<Frame>>,
              facts: seq<Fact>, t: nat, line: seq<Addr>, words: seq<KWord>)
    returns (longer: seq<World>)
    requires Reached(u, run, mem, slots, stacks, facts) && t < u.busy && stacks[t] == []
    requires Welcome(u, stacks, t, line, words)
    ensures Reached(u, longer, mem, slots, stacks[t := [Frame(t, 0, true, InitTarget(words, 0))]], facts)
  {
    var w := Last(run);
    var w' := w.(stacks := w.stacks[t := [Frame(t, 0, true, InitTarget(words, 0))]]);
    OnChain(u.cfg, line, words);
    IdleHelpNobody(u, stacks, t);
    assert Allowed(u.cfg, w, t, words);
    assert Begin(u.cfg, w, w', t, words);
    Append(u.cfg, run, w');
    longer := run + [w'];
    assert w'.stacks == Threads(u, stacks[t := [Frame(t, 0, true, InitTarget(words, 0))]]);
  }

  lemma IdleHelpNobody(u: Setup, stacks: seq<seq<Frame>>, t: nat)
    ensures HelperAtWork(Threads(u, stacks), t) ==> HelperAtWork(stacks, t)
  {
    var all := Threads(u, stacks);
    if HelperAtWork(all, t) {
      var v, d :| 0 <= v < |all| && 0 <= d < |all[v]| && all[v][d].slot == t && !all[v][d].pc.HelpLoad?;
      assert stacks[v][d].slot == t;
    }
  }

  // ------------------------------------------------- the owner's own phases

  // A published operation, the frame of its owner, and the values of its line.
  ghost predicate Published(u: Setup, slots: seq<Slot>, stacks: seq<seq<Frame>>, t: nat, line: seq<Addr>, pc: Pc,
                            vs: seq<Value>) {
    && t < u.busy == |slots| == |stacks| && slots[t].stage == Claiming && OnLine(slots[t].words, line)
    && Chain(u.cfg, line) && |vs| == |line|
    && stacks[t] == [Frame(t, slots[t].seqno, true, pc)]
  }

  // It claims all its words.
  lemma OwnerMarks(u: Setup, run: seq<World>, base: seq<Value>, slots: seq<Slot>, stacks: seq<seq<Frame>>,
                   facts: seq<Fact>, t: nat, line: seq<Addr>, vs: seq<Value>)
    returns (longer: seq<World>)
    requires Published(u, slots, stacks, t, line, ClaimLoadTarget(0), vs) && |base| == |u.mem|
    requires Reached(u, run, Lay(base, line, vs), slots, stacks, facts) && vs == Expecteds(slots[t].words)
    ensures var f := Frame(t, slots[t].seqno, true, DecideSetting);
            Reached(u, longer, Lay(base, line, All(|line|, MarkerOf(f))), slots, stacks[t := [f]], facts)
  {
    var sh, f := State(u, base, slots), Frame(t, slots[t].seqno, true, DecideSetting);
    ClaimsFrom(sh, line, vs, [], f, 0);
    assert MarkFrom(vs, 0, MarkerOf(f)) == All(|line|, MarkerOf(f));
    var s0, s1 := At(On(sh, line, vs), [], f, ClaimLoadTarget(0)),
                  Running(On(sh, line, All(|line|, MarkerOf(f))), [], f);
    assert StackOf(s0) == stacks[t] && StackOf(s1) == [f];
    longer := Moves(u, run, Lay(base, line, vs), slots, stacks, facts, t, s0, s1, s1.sh.mem, slots);
  }

  // It commits and stops before its set phase.
  lemma OwnerDecides(u: Setup, run: seq<World>, base: seq<Value>, slots: seq<Slot>, stacks: seq<seq<Frame>>,
                     facts: seq<Fact>, t: nat, line: seq<Addr>)
    returns (longer: seq<World>)
    requires t < |slots|
    requires Published(u, slots, stacks, t, line, DecideSetting, All(|line|, Marker(t, slots[t].seqno)))
    requires |base| == |u.mem|
    requires Reached(u, run, Lay(base, line, All(|line|, Marker(t, slots[t].seqno))), slots, stacks, facts)
    ensures var q, words := slots[t].seqno, slots[t].words;
            Reached(u, longer, Lay(base, line, All(|line|, Marker(t, q))), slots[t := Slot(Setting, q, words)],
                    stacks[t := [Frame(t, q, true, SetLoadTarget(0))]], facts + [Fact(OpId(t, q), words, true)])
  {
    var f, mem := stacks[t][0], Lay(base, line, All(|line|, Marker(t, slots[t].seqno)));
    var sh, slots' := State(u, mem, slots), slots[t := Slot(Setting, f.seqno, slots[t].words)];
    CommitStep(sh, [], f, u.cfg.k);
    SlotStored(u, mem, slots, t, Setting, f.seqno);
    var s0, s1 := At(sh, [], f, DecideSetting), At(State(u, mem, slots'), [], f, SetLoadTarget(0));
    Step(u.cfg.k, s0, s1);
    assert StackOf(s0) == stacks[t] && StackOf(s1) == [s1.frame];
    longer := Moves(u, run, mem, slots, stacks, facts, t, s0, s1, mem, slots');
    Learns(u, longer, mem, slots', stacks[t := [s1.frame]], facts, t);
  }

  // It switches its words and stops before its reset.
  lemma OwnerSets(u: Setup, run: seq<World>, base: seq<Value>, slots: seq<Slot>, stacks: seq<seq<Frame>>,
                  facts: seq<Fact>, t: nat, line: seq<Addr>)
    returns (longer: seq<World>)
    requires Chain(u.cfg, line) && |base| == |u.mem| && t < u.busy == |slots| == |stacks|
    requires Reached(u, run, Lay(base, line, All(|line|, Marker(t, slots[t].seqno))), slots, stacks, facts)
    requires stacks[t] == [Frame(t, slots[t].seqno, true, SetLoadTarget(0))]
    requires OnLine(slots[t].words, line) && slots[t].stage == Setting
    ensures Reached(u, longer, Lay(base, line, Desireds(slots[t].words)), slots,
                    stacks[t := [Frame(t, slots[t].seqno, true, Prepare(Ok))]], facts)
  {
    var sh, f, vs := State(u, base, slots), stacks[t][0], All(|line|, Marker(t, slots[t].seqno));
    Sets(sh, line, vs, [], f, 0);
    assert SetFrom(vs, slots[t].words, 0) == Desireds(slots[t].words);
    var s0, s1 := Running(On(sh, line, vs), [], f), At(On(sh, line, Desireds(slots[t].words)), [], f, Prepare(Ok));
    assert StackOf(s0) == stacks[t] && StackOf(s1) == [s1.frame];
    longer := Moves(u, run, Lay(base, line, vs), slots, stacks, facts, t, s0, s1, s1.sh.mem, slots);
  }

  // It commits, switches its words and stops before its reset.
  lemma OwnerCommits(u: Setup, run: seq<World>, base: seq<Value>, slots: seq<Slot>, stacks: seq<seq<Frame>>,
                     facts: seq<Fact>, t: nat, line: seq<Addr>)
    returns (longer: seq<World>)
    requires t < |slots|
    requires Published(u, slots, stacks, t, line, DecideSetting, All(|line|, Marker(t, slots[t].seqno)))
    requires |base| == |u.mem|
    requires Reached(u, run, Lay(base, line, All(|line|, Marker(t, slots[t].seqno))), slots, stacks, facts)
    ensures var q, words := slots[t].seqno, slots[t].words;
            Reached(u, longer, Lay(base, line, Desireds(words)), slots[t := Slot(Setting, q, words)],
                    stacks[t := [Frame(t, q, true, Prepare(Ok))]], facts + [Fact(OpId(t, q), words, true)])
  {
    hide Reached;
    var q, words := slots[t].seqno, slots[t].words;
    var f, g, slots' := Frame(t, q, true, SetLoadTarget(0)), Frame(t, q, true, Prepare(Ok)),
                        slots[t := Slot(Setting, q, words)];
    longer := OwnerDecides(u, run, base, slots, stacks, facts, t, line);
    longer := OwnerSets(u, longer, base, slots', stacks[t := [f]], facts + [Fact(OpId(t, q), words, true)], t, line);
    assert stacks[t := [f]][t := [g]] == stacks[t := [g]];
  }

  // It resets its slot and returns.
  lemma OwnerResets(u: Setup, run: seq<World>, mem: seq<Value>, slots: seq<Slot>, stacks: seq<seq<Frame>>,
                    facts: seq<Fact>, t: nat)
    returns (longer: seq<World>)
    requires Reached(u, run, mem, slots, stacks, facts) && t < u.busy
    requires stacks[t] == [Frame(t, slots[t].seqno, true, Prepare(Ok))]
    ensures Reached(u, longer, mem, slots[t := Slot(Inactive, slots[t].seqno + 1, slots[t].words)],
                    stacks[t := []], facts)
  {
    var sh, f, slots' := State(u, mem, slots), stacks[t][0],
                         slots[t := Slot(Inactive, slots[t].seqno + 1, slots[t].words)];
    RunInvariant(u.cfg, run, |run| - 1);
    assert SlotShape(Last(run).sh, u.cfg.k, t);
    ResetStep(sh, f, u.cfg.k, Ok);
    SlotStored(u, mem, slots, t, Inactive, f.seqno + 1);
    var s0, s1 := At(sh, [], f, Prepare(Ok)), Halted(State(u, mem, slots'), Ok);
    Step(u.cfg.k, s0, s1);
    assert StackOf(s0) == stacks[t];
    longer := Moves(u, run, mem, slots, stacks, facts, t, s0, s1, mem, slots');
  }

  // A published operation whose words hold their expected values succeeds.
  lemma CallSucceeds(u: Setup, run: seq<World>, base: seq<Value>, slots: seq<Slot>, stacks: seq<seq<Frame>>,
                     facts: seq<Fact>, t: nat, line: seq<Addr>, vs: seq<Value>)
    returns (longer: seq<World>)
    requires Published(u, slots, stacks, t, line, ClaimLoadTarget(0), vs) && |base| == |u.mem|
    requires Reached(u, run, Lay(base, line, vs), slots, stacks, facts) && vs == Expecteds(slots[t].words)
    ensures var q, words := slots[t].seqno, slots[t].words;
            Reached(u, longer, Lay(base, line, Desireds(words)), slots[t := Slot(Inactive, q + 1, words)],
                    stacks[t := []], facts + [Fact(OpId(t, q), words, true)])
  {
    hide Reached;
    var q, words := slots[t].seqno, slots[t].words;
    var f, g := Frame(t, q, true, DecideSetting), Frame(t, q, true, Prepare(Ok));
    longer := OwnerMarks(u, run, base, slots, stacks, facts, t, line, vs);
    longer := OwnerCommits(u, longer, base, slots, stacks[t := [f]], facts, t, line);
    assert stacks[t := [f]][t := [g]] == stacks[t := [g]];
    var slots1, facts1 := slots[t := Slot(Setting, q, words)], facts + [Fact(OpId(t, q), words, true)];
    longer := OwnerResets(u, longer, Lay(base, line, Desireds(words)), slots1, stacks[t := [g]], facts1, t);
    assert stacks[t := [g]][t := []] == stacks[t := []];
    assert slots1[t := Slot(Inactive, q + 1, words)] == slots[t := Slot(Inactive, q + 1, words)];
  }

  // A published operation gets ready to compare its first word.
  lemma OwnerLoads(u: Setup, run: seq<World>, mem: seq<Value>, slots: seq<Slot>, stacks: seq<seq<Frame>>,
                   facts: seq<Fact>, t: nat, line: seq<Addr>)
    returns (longer: seq<World>)
    requires Reached(u, run, mem, slots, stacks, facts) && t < u.busy && Chain(u.cfg, line)
    requires OnLine(slots[t].words, line) && stacks[t] == [Frame(t, slots[t].seqno, true, ClaimLoadTarget(0))]
    ensures Reached(u, longer, mem, slots,
                    stacks[t := [stacks[t][0].(pc := ClaimCas(0, line[0], slots[t].words[0].expected))]], facts)
  {
    var sh, f := State(u, mem, slots), stacks[t][0];
    Loads(sh, line, [], f, 0);
    var s0, s1 := Running(sh, [], f), At(sh, [], f, ClaimCas(0, line[0], slots[t].words[0].expected));
    assert StackOf(s0) == stacks[t] && StackOf(s1) == [s1.frame];
    longer := Moves(u, run, mem, slots, stacks, facts, t, s0, s1, mem, slots);
  }

  // It claims its first word and gets ready to compare the second one.
  lemma OwnerMarksFirst(u: Setup, run: seq<World>, base: seq<Value>, slots: seq<Slot>, stacks: seq<seq<Frame>>,
                        facts: seq<Fact>, t: nat, line: seq<Addr>, vs: seq<Value>)
    returns (longer: seq<World>)
    requires Published(u, slots, stacks, t, line, ClaimLoadTarget(0), vs) && |base| == |u.mem| && |line| > 1
    requires Reached(u, run, Lay(base, line, vs), slots, stacks, facts) && vs[0] == slots[t].words[0].expected
    ensures var f := Frame(t, slots[t].seqno, true, ClaimCas(1, line[1], slots[t].words[1].expected));
            Reached(u, longer, Lay(base, line, vs[0 := MarkerOf(f)]), slots, stacks[t := [f]], facts)
  {
    hide StepsTo;
    var sh, f, k := State(u, base, slots), stacks[t][0], u.cfg.k;
    var vs', e0, e1 := vs[0 := MarkerOf(f)], slots[t].words[0].expected, slots[t].words[1].expected;
    var s0, s1 := Running(On(sh, line, vs), [], f), At(On(sh, line, vs), [], f, ClaimCas(0, line[0], e0));
    var s2, s3 := At(On(sh, line, vs'), [], f, ClaimLoadTarget(1)),
                  At(On(sh, line, vs'), [], f, ClaimCas(1, line[1], e1));
    Loads(On(sh, line, vs), line, [], f, 0);
    ClaimsWord(sh, line, vs, [], f, 0, e0);
    Loads(On(sh, line, vs'), line, [], f, 1);
    StepJoin(k, s0, s1, s2);
    Join(k, s0, s2, s3);
    assert StackOf(s0) == stacks[t] && StackOf(s3) == [s3.frame];
    longer := Moves(u, run, Lay(base, line, vs), slots, stacks, facts, t, s0, s3, s3.sh.mem, slots);
  }

  // An owner about to compare word `w` with the value it holds claims that word.
  lemma OwnerMarksNext(u: Setup, run: seq<World>, base: seq<Value>, slots: seq<Slot>, stacks: seq<seq<Frame>>,
                       facts: seq<Fact>, t: nat, line: seq<Addr>, vs: seq<Value>, w: nat, e: Value)
    returns (longer: seq<World>)
    requires Chain(u.cfg, line) && |vs| == |line| && |base| == |u.mem| && t < u.busy && w < |line| && vs[w] == e
    requires Reached(u, run, Lay(base, line, vs), slots, stacks, facts) && OnLine(slots[t].words, line)
    requires stacks[t] == [Frame(t, slots[t].seqno, true, ClaimCas(w, line[w], e))]
    ensures var f := Frame(t, slots[t].seqno, true, AfterClaim(w, |line|));
            Reached(u, longer, Lay(base, line, vs[w := MarkerOf(f)]), slots, stacks[t := [f]], facts)
  {
    var sh, f := State(u, base, slots), stacks[t][0];
    ClaimsWord(sh, line, vs, [], f, w, e);
    var s0, s1 := Running(On(sh, line, vs), [], f),
                  At(On(sh, line, vs[w := MarkerOf(f)]), [], f, AfterClaim(w, |line|));
    Step(u.cfg.k, s0, s1);
    assert StackOf(s0) == stacks[t] && StackOf(s1) == [s1.frame];
    longer := Moves(u, run, Lay(base, line, vs), slots, stacks, facts, t, s0, s1, s1.sh.mem, slots);
  }

  // An operation about to compare its first word, which holds another user value,
  // fails.
  lemma CallFails(u: Setup, run: seq<World>, base: seq<Value>, slots: seq<Slot>, stacks: seq<seq<Frame>>,
                  facts: seq<Fact>, t: nat, line: seq<Addr>, vs: seq<Value>, pc: Pc)
    returns (longer: seq<World>)
    requires Published(u, slots, stacks, t, line, pc, vs) && |base| == |u.mem|
    requires Reached(u, run, Lay(base, line, vs), slots, stacks, facts)
    requires pc == ClaimLoadTarget(0) || pc == ClaimCas(0, line[0], slots[t].words[0].expected)
    requires vs[0].Clean? && vs[0] != slots[t].words[0].expected
    ensures Reached(u, longer, Lay(base, line, vs), slots[t := Slot(Inactive, slots[t].seqno + 1, slots[t].words)],
                    stacks[t := []], facts)
  {
    var sh, f, mem, e := State(u, base, slots), stacks[t][0], Lay(base, line, vs), slots[t].words[0].expected;
    var slots' := slots[t := Slot(Inactive, slots[t].seqno + 1, slots[t].words)];
    Fails(sh, line, vs, f);
    SlotStored(u, base, slots, t, Inactive, f.seqno + 1);
    var s0, s1 := Running(On(sh, line, vs), [], f), At(On(sh, line, vs), [], f, ClaimCas(0, line[0], e));
    var s2 := Halted(State(u, mem, slots'), ValueWasNotExpectedValue);
    if pc == ClaimLoadTarget(0) {
      Loads(On(sh, line, vs), line, [], f, 0);
      Join(u.cfg.k, s0, s1, s2);
    }
    assert StackOf(s0) == stacks[t];
    longer := Moves(u, run, mem, slots, stacks, facts, t, s0, s2, mem, slots');
  }

  // ---------------------------------------------------------------- helpers

  // The frame of thread `t`'s call while it has asked for help at its first word.
  function Asker(t: nat, seqno: nat, line: seq<Addr>, e: Value): Frame
    requires line != []
  {
    Frame(t, seqno, true, ClaimHelping(0, line[0], e))
  }

  // A helper of slot `i`'s operation that has looked at its stage.
  function Entered(slot: Slot, i: nat): Frame {
    Frame(i, slot.seqno, false, if slot.stage == Claiming then ClaimLoadTarget(0) else SetLoadTarget(0))
  }

  // A published operation runs into the marker of slot `i`'s operation at its first
  // word and starts to help it.
  lemma HelperEnters(u: Setup, run: seq<World>, base: seq<Value>, slots: seq<Slot>, stacks: seq<seq<Frame>>,
                     facts: seq<Fact>, t: nat, line: seq<Addr>, vs: seq<Value>, i: nat)
    returns (longer: seq<World>)
    requires Published(u, slots, stacks, t, line, ClaimLoadTarget(0), vs) && |base| == |u.mem|
    requires Reached(u, run, Lay(base, line, vs), slots, stacks, facts)
    requires i < |slots| && i != t && OnLine(slots[i].words, line) && vs[0] == Marker(i, slots[i].seqno)
    requires slots[i].stage == Claiming || slots[i].stage == Setting
    ensures var asker := Asker(t, slots[t].seqno, line, slots[t].words[0].expected);
            Reached(u, longer, Lay(base, line, vs), slots, stacks[t := [asker, Entered(slots[i], i)]], facts)
  {
    var sh0 := State(u, base, slots);
    var sh, f, k, mem := On(sh0, line, vs), stacks[t][0], u.cfg.k, Lay(base, line, vs);
    var e := slots[t].words[0].expected;
    LayAt(base, line, vs, 0);
    Loads(sh, line, [], f, 0);
    AsksForHelp(sh, line, f, 0, e, i);
    var asker := Asker(t, f.seqno, line, e);
    var s0, s1, s2 := Running(sh, [], f), At(sh, [], f, ClaimCas(0, line[0], e)),
                      Running(sh, [asker], Entered(slots[i], i));
    Join(k, s0, s1, s2);
    assert StackOf(s0) == stacks[t] && StackOf(s2) == [asker, s2.frame];
    longer := Moves(u, run, mem, slots, stacks, facts, t, s0, s2, mem, slots);
  }

  // The helper of slot `f.slot` loads its first word's expected value.
  lemma HelperLoads(u: Setup, run: seq<World>, mem: seq<Value>, slots: seq<Slot>, stacks: seq<seq<Frame>>,
                    facts: seq<Fact>, t: nat, line: seq<Addr>, asker: Frame, f: Frame)
    returns (longer: seq<World>)
    requires Reached(u, run, mem, slots, stacks, facts) && t < u.busy && Chain(u.cfg, line)
    requires stacks[t] == [asker, f] && f.pc == ClaimLoadTarget(0)
    requires f.slot < u.busy && OnLine(slots[f.slot].words, line)
    ensures Reached(u, longer, mem, slots,
                    stacks[t := [asker, f.(pc := ClaimCas(0, line[0], slots[f.slot].words[0].expected))]], facts)
  {
    var sh := State(u, mem, slots);
    Loads(sh, line, [asker], f, 0);
    var s0, s1 := Running(sh, [asker], f),
                  At(sh, [asker], f, ClaimCas(0, line[0], slots[f.slot].words[0].expected));
    assert StackOf(s0) == stacks[t] && StackOf(s1) == [asker, s1.frame];
    longer := Moves(u, run, mem, slots, stacks, facts, t, s0, s1, mem, slots);
  }

  // A helper whose operation is outdated has just claimed the last word: it cleans
  // up the words its descriptor names now and gives up the help.
  lemma HelperCleans(u: Setup, run: seq<World>, base: seq<Value>, slots: seq<Slot>, stacks: seq<seq<Frame>>,
                     facts: seq<Fact>, t: nat, line: seq<Addr>, vs: seq<Value>, asker: Frame, f: Frame)
    returns (longer: seq<World>)
    requires |vs| == |line| && Chain(u.cfg, line) && |base| == |u.mem| && t < u.busy
    requires Reached(u, run, Lay(base, line, vs), slots, stacks, facts)
    requires stacks[t] == [asker, f] && f.pc == RevertLoadTarget(|line| - 1, HelpOutdated) && !f.owner
    requires f.slot < u.busy && OnLine(slots[f.slot].words, line) && slots[f.slot].seqno != f.seqno
    ensures var vs' := RevertFrom(vs, slots[f.slot].words, |line| - 1, MarkerOf(f));
            Reached(u, longer, Lay(base, line, vs'), slots,
                    stacks[t := [Resume(asker, SequenceChangedWhileHelping)]], facts)
  {
    var sh, mem := State(u, base, slots), Lay(base, line, vs);
    OutdatedHelp(sh, line, vs, asker, f);
    var vs' := RevertFrom(vs, slots[f.slot].words, |line| - 1, MarkerOf(f));
    var s0, s1 := Running(On(sh, line, vs), [asker], f),
                  Running(On(sh, line, vs'), [], Resume(asker, SequenceChangedWhileHelping));
    assert StackOf(s0) == stacks[t] && StackOf(s1) == [s1.frame];
    longer := Moves(u, run, mem, slots, stacks, facts, t, s0, s1, s1.sh.mem, slots);
  }

  // A helper about to compare word `w` with `e`, which it loaded long ago, claims
  // that word and the ones after it.
  lemma HelperMarks(u: Setup, run: seq<World>, base: seq<Value>, slots: seq<Slot>, stacks: seq<seq<Frame>>,
                    facts: seq<Fact>, t: nat, line: seq<Addr>, vs: seq<Value>, asker: Frame, f: Frame, e: Value)
    returns (longer: seq<World>)
    requires |vs| == |line| && Chain(u.cfg, line) && |base| == |u.mem| && t < u.busy && vs[0] == e
    requires Reached(u, run, Lay(base, line, vs), slots, stacks, facts)
    requires stacks[t] == [asker, f] && f.pc == ClaimCas(0, line[0], e)
    requires f.slot < u.busy && OnLine(slots[f.slot].words, line)
    requires Claimable(vs, slots[f.slot].words, 1, MarkerOf(f))
    ensures Reached(u, longer, Lay(base, line, All(|line|, MarkerOf(f))), slots,
                    stacks[t := [asker, f.(pc := DecideSetting)]], facts)
  {
    var sh, mem := State(u, base, slots), Lay(base, line, vs);
    LateClaims(sh, line, vs, [asker], f, 0, e);
    assert MarkFrom(vs, 0, MarkerOf(f)) == All(|line|, MarkerOf(f));
    var s0, s1 := Running(On(sh, line, vs), [asker], f),
                  At(On(sh, line, All(|line|, MarkerOf(f))), [asker], f, DecideSetting);
    assert StackOf(s0) == stacks[t] && StackOf(s1) == [asker, s1.frame];
    longer := Moves(u, run, mem, slots, stacks, facts, t, s0, s1, s1.sh.mem, slots);
  }

  // A helper about to compare word `w` with the value it holds claims that word.
  lemma HelperMarksNext(u: Setup, run: seq<World>, base: seq<Value>, slots: seq<Slot>, stacks: seq<seq<Frame>>,
                        facts: seq<Fact>, t: nat, line: seq<Addr>, vs: seq<Value>, asker: Frame, f: Frame, w: nat)
    returns (longer: seq<World>)
    requires Chain(u.cfg, line) && |vs| == |line| && |base| == |u.mem| && t < u.busy && w < |line|
    requires Reached(u, run, Lay(base, line, vs), slots, stacks, facts)
    requires stacks[t] == [asker, f] && f.pc == ClaimCas(w, line[w], vs[w])
    requires f.slot < u.busy && OnLine(slots[f.slot].words, line)
    ensures Reached(u, longer, Lay(base, line, vs[w := MarkerOf(f)]), slots,
                    stacks[t := [asker, f.(pc := AfterClaim(w, |line|))]], facts)
  {
    var sh := State(u, base, slots);
    ClaimsWord(sh, line, vs, [asker], f, w, vs[w]);
    var s0, s1 := Running(On(sh, line, vs), [asker], f),
                  At(On(sh, line, vs[w := MarkerOf(f)]), [asker], f, AfterClaim(w, |line|));
    Step(u.cfg.k, s0, s1);
    assert StackOf(s0) == stacks[t] && StackOf(s1) == [asker, s1.frame];
    longer := Moves(u, run, Lay(base, line, vs), slots, stacks, facts, t, s0, s1, s1.sh.mem, slots);
  }

  // A helper claims the words from `w` on.
  lemma HelperMarksRest(u: Setup, run: seq<World>, base: seq<Value>, slots: seq<Slot>, stacks: seq<seq<Frame>>,
                        facts: seq<Fact>, t: nat, line: seq<Addr>, vs: seq<Value>, asker: Frame, f: Frame, w: nat)
    returns (longer: seq<World>)
    requires Chain(u.cfg, line) && |vs| == |line| && |base| == |u.mem| && t < u.busy && w < |line|
    requires Reached(u, run, Lay(base, line, vs), slots, stacks, facts)
    requires stacks[t] == [asker, f] && f.pc == ClaimLoadTarget(w)
    requires f.slot < u.busy && OnLine(slots[f.slot].words, line)
    requires Claimable(vs, slots[f.slot].words, w, MarkerOf(f))
    ensures Reached(u, longer, Lay(base, line, MarkFrom(vs, w, MarkerOf(f))), slots,
                    stacks[t := [asker, f.(pc := DecideSetting)]], facts)
  {
    var sh := State(u, base, slots);
    ClaimsFrom(sh, line, vs, [asker], f, w);
    var s0, s1 := Running(On(sh, line, vs), [asker], f),
                  At(On(sh, line, MarkFrom(vs, w, MarkerOf(f))), [asker], f, DecideSetting);
    assert StackOf(s0) == stacks[t] && StackOf(s1) == [asker, s1.frame];
    longer := Moves(u, run, Lay(base, line, vs), slots, stacks, facts, t, s0, s1, s1.sh.mem, slots);
  }

  // A helper in the set phase loads its first word's desired value.
  lemma HelperLoadsDesired(u: Setup, run: seq<World>, mem: seq<Value>, slots: seq<Slot>, stacks: seq<seq<Frame>>,
                           facts: seq<Fact>, t: nat, line: seq<Addr>, asker: Frame, f: Frame)
    returns (longer: seq<World>)
    requires Reached(u, run, mem, slots, stacks, facts) && t < u.busy && Chain(u.cfg, line)
    requires stacks[t] == [asker, f] && f.pc == SetLoadTarget(0)
    requires f.slot < u.busy && OnLine(slots[f.slot].words, line)
    ensures Reached(u, longer, mem, slots,
                    stacks[t := [asker, f.(pc := SetCas(0, line[0], slots[f.slot].words[0].desired))]], facts)
  {
    hide StepsTo;
    var sh, k, d := State(u, mem, slots), u.cfg.k, slots[f.slot].words[0].desired;
    SetLoadSteps(sh, [asker], f, k, 0);
    var s0, s1 := Running(sh, [asker], f), At(sh, [asker], f, SetLoadDesired(0, line[0]));
    var s2 := At(sh, [asker], f, SetCas(0, line[0], d));
    Step(k, s0, s1);
    StepJoin(k, s0, s1, s2);
    assert StackOf(s0) == stacks[t] && StackOf(s2) == [asker, s2.frame];
    longer := Moves(u, run, mem, slots, stacks, facts, t, s0, s2, mem, slots);
  }

  // A helper whose operation is outdated replaces the marker it finds on the first
  // word by the value it has loaded, and finds the second word without a marker.
  lemma HelperSetsFirst(u: Setup, run: seq<World>, base: seq<Value>, slots: seq<Slot>, stacks: seq<seq<Frame>>,
                        facts: seq<Fact>, t: nat, line: seq<Addr>, vs: seq<Value>, asker: Frame, f: Frame, d: Value)
    returns (longer: seq<World>)
    requires Chain(u.cfg, line) && |vs| == |line| > 1 && |base| == |u.mem| && t < u.busy
    requires Reached(u, run, Lay(base, line, vs), slots, stacks, facts)
    requires stacks[t] == [asker, f] && f.pc == SetCas(0, line[0], d) && !f.owner
    requires f.slot < u.busy && OnLine(slots[f.slot].words, line) && slots[f.slot].seqno != f.seqno
    requires vs[0] == MarkerOf(f) && vs[1] != MarkerOf(f)
    ensures Reached(u, longer, Lay(base, line, vs[0 := d]), slots,
                    stacks[t := [asker, f.(pc := RevertLoadTarget(|line| - 1, HelpOutdated))]], facts)
  {
    var sh := State(u, base, slots);
    OutdatedSets(sh, line, vs, [asker], f, d);
    var s0, s1 := Running(On(sh, line, vs), [asker], f),
                  At(On(sh, line, vs[0 := d]), [asker], f, RevertLoadTarget(|line| - 1, HelpOutdated));
    assert StackOf(s0) == stacks[t] && StackOf(s1) == [asker, s1.frame];
    longer := Moves(u, run, Lay(base, line, vs), slots, stacks, facts, t, s0, s1, s1.sh.mem, slots);
  }

  // A helper finds that the descriptor serves a later operation.
  lemma HelperIsOutdated(u: Setup, run: seq<World>, mem: seq<Value>, slots: seq<Slot>, stacks: seq<seq<Frame>>,
                         facts: seq<Fact>, t: nat, asker: Frame, f: Frame)
    returns (longer: seq<World>)
    requires Reached(u, run, mem, slots, stacks, facts) && t < u.busy
    requires stacks[t] == [asker, f] && f.pc == DecideSetting && !f.owner
    requires f.slot < u.busy && slots[f.slot].seqno != f.seqno
    ensures Reached(u, longer, mem, slots,
                    stacks[t := [asker, f.(pc := RevertLoadTarget(u.cfg.k - 1, HelpOutdated))]], facts)
  {
    hide StepsTo;
    var sh, k := State(u, mem, slots), u.cfg.k;
    assert |slots[f.slot].words| == k by {
      RunInvariant(u.cfg, run, |run| - 1);
      assert SlotShape(Last(run).sh, k, f.slot);
    }
    var s0, s1 := Running(sh, [asker], f), At(sh, [asker], f, RevertLoadTarget(k - 1, HelpOutdated));
    OutdatedDecision(sh, [asker], f, k);
    Step(k, s0, s1);
    assert StackOf(s0) == stacks[t] && StackOf(s1) == [asker, s1.frame];
    longer := Moves(u, run, mem, slots, stacks, facts, t, s0, s1, mem, slots);
  }

  // A helper that has claimed all words of an operation that committed meanwhile
  // switches them once more.
  lemma HelperSets(u: Setup, run: seq<World>, base: seq<Value>, slots: seq<Slot>, stacks: seq<seq<Frame>>,
                   facts: seq<Fact>, t: nat, line: seq<Addr>, asker: Frame, f: Frame)
    returns (longer: seq<World>)
    requires Chain(u.cfg, line) && |base| == |u.mem| && t < u.busy
    requires Reached(u, run, Lay(base, line, All(|line|, MarkerOf(f))), slots, stacks, facts)
    requires stacks[t] == [asker, f] && f.pc == DecideSetting && !f.owner && f.slot < u.busy
    requires OnLine(slots[f.slot].words, line) && slots[f.slot].seqno == f.seqno && slots[f.slot].stage == Setting
    ensures Reached(u, longer, Lay(base, line, Desireds(slots[f.slot].words)), slots,
                    stacks[t := [asker, f.(pc := FinishSuccessful)]], facts)
  {
    hide StepsTo;
    var sh, vs, ds := State(u, base, slots), All(|line|, MarkerOf(f)), Desireds(slots[f.slot].words);
    LateSets(sh, line, vs, [asker], f);
    var s0, s1 := Running(On(sh, line, vs), [asker], f), At(On(sh, line, ds), [asker], f, FinishSuccessful);
    assert StackOf(s0) == stacks[t] && StackOf(s1) == [asker, s1.frame];
    longer := Moves(u, run, Lay(base, line, vs), slots, stacks, facts, t, s0, s1, s1.sh.mem, slots);
  }

  // A helper that has just looked at a claiming operation commits it.
  lemma HelperCommits(u: Setup, run: seq<World>, base: seq<Value>, slots: seq<Slot>, stacks: seq<seq<Frame>>,
                      facts: seq<Fact>, t: nat, line: seq<Addr>, vs: seq<Value>, asker: Frame, f: Frame)
    returns (longer: seq<World>)
    requires Chain(u.cfg, line) && |base| == |u.mem| && t < u.busy && |vs| == |line|
    requires Reached(u, run, Lay(base, line, vs), slots, stacks, facts)
    requires stacks[t] == [asker, f] && f.pc == ClaimLoadTarget(0) && !f.owner && f.slot < u.busy
    requires OnLine(slots[f.slot].words, line) && slots[f.slot].seqno == f.seqno && slots[f.slot].stage == Claiming
    requires Claimable(vs, slots[f.slot].words, 0, MarkerOf(f))
    ensures var words := slots[f.slot].words;
            Reached(u, longer, Lay(base, line, Desireds(words)), slots[f.slot := Slot(Setting, f.seqno, words)],
                    stacks[t := [asker, f.(pc := FinishSuccessful)]],
                    facts + [Fact(OpId(f.slot, f.seqno), words, true)])
  {
    hide StepsTo;
    var sh, marks, ds := State(u, base, slots), All(|line|, MarkerOf(f)), Desireds(slots[f.slot].words);
    var slots' := slots[f.slot := Slot(Setting, f.seqno, slots[f.slot].words)];
    ClaimsFrom(sh, line, vs, [asker], f, 0);
    assert MarkFrom(vs, 0, MarkerOf(f)) == marks;
    Commits(sh, line, marks, [asker], f);
    SlotStored(u, base, slots, f.slot, Setting, f.seqno);
    var s0, s1 := Running(On(sh, line, vs), [asker], f), At(On(sh, line, marks), [asker], f, DecideSetting);
    var s2 := At(On(State(u, base, slots'), line, ds), [asker], f, FinishSuccessful);
    Join(u.cfg.k, s0, s1, s2);
    assert StackOf(s0) == stacks[t] && StackOf(s2) == [asker, s2.frame];
    longer := Moves(u, run, Lay(base, line, vs), slots, stacks, facts, t, s0, s2, s2.sh.mem, slots');
    Learns(u, longer, s2.sh.mem, slots', stacks[t := [asker, s2.frame]], facts, f.slot);
  }

  // A helper ends the operation it has set.
  lemma HelperEnds(u: Setup, run: seq<World>, base: seq<Value>, slots: seq<Slot>, stacks: seq<seq<Frame>>,
                   facts: seq<Fact>, t: nat, line: seq<Addr>, vs: seq<Value>, asker: Frame, f: Frame)
    returns (longer: seq<World>)
    requires Chain(u.cfg, line) && |base| == |u.mem| && t < u.busy && |vs| == |line|
    requires Reached(u, run, Lay(base, line, vs), slots, stacks, facts)
    requires stacks[t] == [asker, f] && f.pc == FinishSuccessful && !f.owner && f.slot < u.busy
    requires OnLine(slots[f.slot].words, line) && slots[f.slot].seqno == f.seqno && slots[f.slot].stage == Setting
    ensures Reached(u, longer, Lay(base, line, vs),
                    slots[f.slot := Slot(Successful, f.seqno, slots[f.slot].words)],
                    stacks[t := [Resume(asker, Ok)]], facts)
  {
    hide StepsTo;
    var sh, slots' := State(u, base, slots), slots[f.slot := Slot(Successful, f.seqno, slots[f.slot].words)];
    HelperFinishes(sh, line, vs, asker, f);
    SlotStored(u, base, slots, f.slot, Successful, f.seqno);
    var s0 := Running(On(sh, line, vs), [asker], f);
    var s1 := Running(On(State(u, base, slots'), line, vs), [], Resume(asker, Ok));
    Step(u.cfg.k, s0, s1);
    assert StackOf(s0) == stacks[t] && StackOf(s1) == [s1.frame];
    longer := Moves(u, run, Lay(base, line, vs), slots, stacks, facts, t, s0, s1, s1.sh.mem, slots');
  }

  // The next step of a thread claims word `w` for an operation that has committed:
  // logical memory moves from the value held to the desired one.
  lemma LateMark(u: Setup, run: seq<World>, slots: seq<Slot>, stacks: seq<seq<Frame>>, facts: seq<Fact>, t: nat,
                 vs: seq<Value>, f: Frame, w: nat)
    returns (longer: seq<World>)
    requires Ready(u) && |vs| == |u.line| && w < |vs| && vs[w].Clean?
    requires Reached(u, run, Mem(u, vs), slots, stacks, facts) && t < u.busy
    requires stacks[t] != [] && Last(stacks[t]) == f && f.pc == ClaimCas(w, u.line[w], vs[w])
    requires f.slot < u.busy && OnLine(slots[f.slot].words, u.line)
    requires slots[f.slot].seqno == f.seqno && Committed(slots[f.slot].stage)
    ensures Run(u.cfg, longer) && run <= longer && |longer| == |run| + 1 && Last(longer).hist == Last(run).hist
    ensures u.line[w] < |Last(run).sh.mem| && u.line[w] < |Last(longer).sh.mem|
    ensures LogicalAt(Last(run).sh, u.line[w]) == vs[w].bits
    ensures LogicalAt(Last(longer).sh, u.line[w]) == BitsOf(slots[f.slot].words[w].desired)
  {
    var now, a := Last(run), u.line[w];
    LayAt(u.mem, u.line, vs, w);
    LinePlace(u.line, |u.mem|, slots[f.slot].words, w);
    var next := After(now, t, f, Exec(now.sh, f, u.cfg.k));
    assert Last(now.stacks[t]) == f && Execute(u.cfg, now, next, t);
    Append(u.cfg, run, next);
    longer := run + [next];
    assert next.sh == StoreMem(now.sh, a, MarkerOf(f));
  }

  // ------------------------------------------------------- how runs end

  // When all calls of a run have returned, the operations on record are those its
  // slots have gone through, and the committed ones succeeded.
  lemma QuietRecord(u: Setup, run: seq<World>, mem: seq<Value>, slots: seq<Slot>, stacks: seq<seq<Frame>>,
                    facts: seq<Fact>)
    requires Reached(u, run, mem, slots, stacks, facts) && forall t :: 0 <= t < |stacks| ==> stacks[t] == []
    ensures AllReturned(Last(run))
    ensures forall op :: Succeeded(Last(run), op) ==>
              Finished(State(u, mem, slots), op.slot, op.seqno) && op in Last(run).hist.began
    ensures forall i :: 0 <= i < |facts| && facts[i].committed ==> Succeeded(Last(run), facts[i].op)
  {
    RunInvariant(u.cfg, run, |run| - 1);
    forall op | Succeeded(Last(run), op)
      ensures Finished(State(u, mem, slots), op.slot, op.seqno) && op in Last(run).hist.began
    {
      assert OpHistory(Last(run).sh, Last(run).hist, op);
    }
    forall i | 0 <= i < |facts| && facts[i].committed ensures Succeeded(Last(run), facts[i].op) {
      assert Holds(Last(run), facts[i]);
      SucceededCommitted(u.cfg, run, facts[i].op);
    }
  }

  // Every operation begun is one its slot has gone through.
  lemma BegunFinished(u: Setup, run: seq<World>, mem: seq<Value>, slots: seq<Slot>, stacks: seq<seq<Frame>>,
                      facts: seq<Fact>, op: OpId)
    requires Reached(u, run, mem, slots, stacks, facts) && forall t :: 0 <= t < |stacks| ==> stacks[t] == []
    requires op in Last(run).hist.began
    ensures op.slot < |slots| && op.seqno < slots[op.slot].seqno
  {
    RunInvariant(u.cfg, run, |run| - 1);
    assert OpHistory(Last(run).sh, Last(run).hist, op);
    assert Last(run).stacks[op.slot] == [];
  }
}
