// The refinement read along whole runs: every completed operation takes effect
// atomically at one moment between its start and its return.
module Linearizability {
  import opened KcasTypes
  import opened StepMachine
  import opened ProtocolInvariant
  import opened SafetyTheorems
  import opened AtomicRefinement

  // The caller's words of operation `op`, on record since it began.
  function WordsOf(w: World, op: OpId): seq<KWord> {
    if op in w.hist.began then w.hist.began[op] else []
  }

  ghost predicate CommitsAt(run: seq<World>, n: nat, op: OpId) {
    MovesAt(run, n, op, Claiming, Setting)
  }

  lemma LiveWords(cfg: Config, run: seq<World>, n: nat, op: OpId)
    requires Run(cfg, run) && n < |run| && op.slot < |run[n].sh.slots|
    requires run[n].sh.slots[op.slot].seqno == op.seqno && run[n].sh.slots[op.slot].stage != Inactive
    ensures op in run[n].hist.began && WordsOf(run[n], op) == run[n].sh.slots[op.slot].words
  {
    RunInvariant(cfg, run, n);
    assert SlotHistory(run[n].sh, run[n].hist, op.slot);
  }

  lemma {:induction false} WordsStay(cfg: Config, run: seq<World>, n: nat, m: nat, op: OpId)
    requires Run(cfg, run) && n <= m < |run| && op in run[n].hist.began
    ensures op in run[m].hist.began && WordsOf(run[m], op) == WordsOf(run[n], op)
    decreases m
  {
    if n < m {
      WordsStay(cfg, run, n, m - 1, op);
      RunStep(cfg, run, m - 1);
      BeganGrows(cfg, run[m - 1], run[m], op);
    }
  }

  lemma BeganGrows(cfg: Config, w: World, w': World, op: OpId)
    requires Inv(cfg, w) && Inv(cfg, w') && Next(cfg, w, w') && op in w.hist.began
    ensures op in w'.hist.began && w'.hist.began[op] == w.hist.began[op]
  {
    var mover := NextRely(cfg, w, w');
    assert OpHistory(w.sh, w.hist, op) && OpHistory(w'.sh, w'.hist, op);
    StartedStable(w.sh, w.hist, w'.sh, w'.hist, mover, op.slot, op.seqno);
    BeganStays(cfg, w, w', op);
  }

  // --------------------------------------------------------- one step

  // A step that commits an operation is an atomic multi-word compare-and-swap
  // of that operation's words on logical memory.
  lemma TimelyCommit(cfg: Config, run: seq<World>, n: nat, op: OpId)
    requires Timely(cfg, run) && CommitsAt(run, n, op)
    ensures AtomicKcas(Logical(run[n].sh), Logical(run[n + 1].sh), WordsOf(run[n], op))
  {
    hide Timely;
    hide AtomicInv;
    hide OnTime;
    assert cfg.stable && Run(cfg, run) by { TimelyIsRun(cfg, run); }
    TimelyAtomic(cfg, run, n);
    TimelyAtomic(cfg, run, n + 1);
    RunStep(cfg, run, n);
    LiveWords(cfg, run, n, op);
    CommitIsNew(cfg, run, n, op);
    var t := WhoCommitted(cfg, run[n], run[n + 1], op);
    CommitIsAtomic(cfg, run[n], run[n + 1], t, op);
  }

  lemma CommitRefines(cfg: Config, run: seq<World>, n: nat, op: OpId)
    requires cfg.stable && cfg.mono && Run(cfg, run) && CommitsAt(run, n, op)
    ensures AtomicKcas(Logical(run[n].sh), Logical(run[n + 1].sh), WordsOf(run[n], op))
  {
    NeverShrinkingIsTimely(cfg, run);
    TimelyCommit(cfg, run, n, op);
  }

  lemma TimelyIsRun(cfg: Config, run: seq<World>)
    requires Timely(cfg, run)
    ensures cfg.stable && Run(cfg, run)
  {
  }

  lemma CommitIsNew(cfg: Config, run: seq<World>, n: nat, op: OpId)
    requires Run(cfg, run) && CommitsAt(run, n, op)
    ensures CommitsIn(run[n], run[n + 1], op)
  {
    RunStep(cfg, run, n);
    assert SlotHistory(run[n].sh, run[n].hist, op.slot) && SlotHistory(run[n + 1].sh, run[n + 1].hist, op.slot);
  }

  // One step decides one operation.
  lemma OneCommitPerStep(cfg: Config, run: seq<World>, m: nat, op: OpId, p: OpId)
    requires Run(cfg, run) && CommitsAt(run, m, op) && CommitsAt(run, m, p)
    ensures op == p
  {
    CommitIsNew(cfg, run, m, op);
    CommitIsNew(cfg, run, m, p);
    RunStep(cfg, run, m);
    var t := WhoCommitted(cfg, run[m], run[m + 1], op);
    RecordNew(run[m].hist, OpOf(Last(run[m].stacks[t])), Exec(run[m].sh, Last(run[m].stacks[t]), cfg.k).event, p, 0);
  }

  // Every other step leaves logical memory unchanged.
  lemma TimelySilence(cfg: Config, run: seq<World>, n: nat)
    requires Timely(cfg, run) && n + 1 < |run|
    requires forall op :: !CommitsAt(run, n, op)
    ensures Logical(run[n + 1].sh) == Logical(run[n].sh)
  {
    hide Timely;
    hide AtomicInv;
    hide OnTime;
    assert cfg.stable && Run(cfg, run) by { TimelyIsRun(cfg, run); }
    TimelyAtomic(cfg, run, n);
    TimelyAtomic(cfg, run, n + 1);
    RunStep(cfg, run, n);
    if run[n + 1].sh != run[n].sh {
      var t := WhoMoved(cfg, run[n], run[n + 1]);
      NobodyCommits(cfg, run, n, t);
      OtherStepsSilent(cfg, run[n], run[n + 1], t);
    }
  }

  lemma OtherwiseSilent(cfg: Config, run: seq<World>, n: nat)
    requires cfg.stable && cfg.mono && Run(cfg, run) && n + 1 < |run|
    requires forall op :: !CommitsAt(run, n, op)
    ensures Logical(run[n + 1].sh) == Logical(run[n].sh)
  {
    NeverShrinkingIsTimely(cfg, run);
    TimelySilence(cfg, run, n);
  }

  lemma NobodyCommits(cfg: Config, run: seq<World>, n: nat, t: nat)
    requires Run(cfg, run) && n + 1 < |run| && Inv(cfg, run[n]) && Execute(cfg, run[n], run[n + 1], t)
    requires forall op :: !CommitsAt(run, n, op)
    ensures run[n + 1].hist.committed == run[n].hist.committed
  {
    var op := OpOf(Last(run[n].stacks[t]));
    assert !CommitsAt(run, n, op);
    if Took(cfg, run[n], run[n + 1], t, op, Commit) {
      CommitMeans(cfg, run[n], run[n + 1], t, op);
    }
  }

  // ----------------------------------------------------- whole operations

  lemma UnexpectedReads(cfg: Config, run: seq<World>, m: nat, op: OpId, x: nat)
    requires Run(cfg, run) && m < |run| && Unexpected(run[m], op, x)
    ensures !Matches(Logical(run[m].sh), WordsOf(run[m], op))
  {
    LiveWords(cfg, run, m, op);
    RunInvariant(cfg, run, m);
    assert SlotShape(run[m].sh, cfg.k, op.slot);
    var word := run[m].sh.slots[op.slot].words[x];
    assert WordShape(word, |run[m].sh.mem|);
    assert !WordMatches(Logical(run[m].sh), word);
  }

  lemma ReturnOf(cfg: Config, run: seq<World>, n: nat, op: OpId) returns (r: nat)
    requires Run(cfg, run) && n < |run| && op in run[n].hist.results
    ensures r < n && op !in run[r].hist.results && op in run[r + 1].hist.results
    ensures EventAt(cfg, run, r, op, Returned(run[r + 1].hist.results[op]))
    ensures forall j :: r < j <= n ==> op in run[j].hist.results
  {
    ghost var bs := seq(|run|, j requires 0 <= j < |run| => op in run[j].hist.results);
    r := Rises(bs, 0, n);
    forall j | r < j <= n ensures op in run[j].hist.results { assert bs[j]; }
    ReturnStep(cfg, run, r, op);
  }

  lemma ReturnStep(cfg: Config, run: seq<World>, r: nat, op: OpId)
    requires Run(cfg, run) && r + 1 < |run|
    requires op !in run[r].hist.results && op in run[r + 1].hist.results
    ensures EventAt(cfg, run, r, op, Returned(run[r + 1].hist.results[op]))
  {
    RunStep(cfg, run, r);
    var w, w' := run[r], run[r + 1];
    var t := WhoMoved(cfg, w, w');
    RecordNew(w.hist, OpOf(Last(w.stacks[t])), Exec(w.sh, Last(w.stacks[t]), cfg.k).event, op, 0);
    assert Took(cfg, w, w', t, op, Returned(w'.hist.results[op]));
  }

  lemma ResultStays(cfg: Config, run: seq<World>, r: nat, n: nat, op: OpId)
    requires Run(cfg, run) && r <= n < |run| && op in run[r].hist.results && op in run[n].hist.results
    ensures run[n].hist.results[op] == run[r].hist.results[op]
  {
    ResultIsDecision(cfg, run, r, op);
    ResultIsDecision(cfg, run, n, op);
    ResultRecorded(cfg, run, r, op);
    ResultRecorded(cfg, run, n, op);
    if CommittedBy(run, r, op) {
      assert CommittedBy(run, n, op);
    } else {
      assert AbortedBy(run, r, op);
      assert AbortedBy(run, n, op);
    }
  }

  // An operation that is live at step m was started before m and returns after it.
  lemma LiveWithin(cfg: Config, run: seq<World>, b: nat, m: nat, r: nat, op: OpId, words: seq<KWord>)
    requires Run(cfg, run) && b + 1 < |run| && r + 1 < |run| && m < |run|
    requires EventAt(cfg, run, b, op, Began(words))
    requires op !in run[r].hist.results && op in run[r + 1].hist.results
    requires op.slot < |run[m].sh.slots| && run[m].sh.slots[op.slot].seqno == op.seqno
    requires run[m].sh.slots[op.slot].stage != Inactive
    ensures b < m <= r
  {
    StartMeans(cfg, run, b, op, words);
    if m <= b {
      StartedForever(cfg, run, m, b, op);
    }
    FinishedAfter(cfg, run, r + 1, op);
    if r + 1 <= m {
      SlotsAdvance(cfg, run, r + 1, m, op.slot);
    }
  }

  lemma FinishedAfter(cfg: Config, run: seq<World>, n: nat, op: OpId)
    requires Run(cfg, run) && n < |run| && op in run[n].hist.results
    ensures Finished(run[n].sh, op.slot, op.seqno)
    ensures Started(run[n].sh, op.slot, op.seqno)
  {
    RunInvariant(cfg, run, n);
    assert OpHistory(run[n].sh, run[n].hist, op);
  }

  // Linearizability. A completed operation was started by step b and returned
  // by step r, and at step m in between it took effect: if it returned Ok, step
  // m swapped all of its words atomically; if it failed, logical memory did not
  // match its expected values at m.
  lemma Linearizable(cfg: Config, run: seq<World>, n: nat, op: OpId) returns (b: nat, m: nat, r: nat)
    requires cfg.stable && cfg.mono && Run(cfg, run) && n < |run| && op in run[n].hist.results
    ensures b < m <= r < n
    ensures op in run[n].hist.began
    ensures EventAt(cfg, run, b, op, Began(WordsOf(run[n], op)))
    ensures EventAt(cfg, run, r, op, Returned(run[n].hist.results[op]))
    ensures run[n].hist.results[op] == Ok ==>
              CommitsAt(run, m, op) && AtomicKcas(Logical(run[m].sh), Logical(run[m + 1].sh), WordsOf(run[n], op))
    ensures run[n].hist.results[op] != Ok ==>
              run[n].hist.results[op] == ValueWasNotExpectedValue && !Matches(Logical(run[m].sh), WordsOf(run[n], op))
  {
    FinishedAfter(cfg, run, n, op);
    StartedBegan(cfg, run, n, op);
    b := StartOf(cfg, run, n, op);
    r := ReturnOf(cfg, run, n, op);
    ResultStays(cfg, run, r + 1, n, op);
    ResultRecorded(cfg, run, n, op);
    if run[n].hist.results[op] == Ok {
      m := CommitOf(cfg, run, n, op);
      CommitRefines(cfg, run, m, op);
    } else {
      var c := AbortOf(cfg, run, n, op);
      var x;
      m, x := AbortsAreJustified(cfg, run, c, op);
      UnexpectedReads(cfg, run, m, op, x);
    }
    LiveWithin(cfg, run, b, m, r, op, WordsOf(run[n], op));
    LiveWords(cfg, run, m, op);
    WordsStay(cfg, run, m, n, op);
  }

  // ------------------------------------------------------- quiet states

  ghost predicate AllReturned(w: World) {
    forall t :: 0 <= t < |w.stacks| ==> w.stacks[t] == []
  }

  // A committed operation whose call is over returned Ok.
  lemma CommittedReturnedOk(cfg: Config, run: seq<World>, m: nat, op: OpId)
    requires Run(cfg, run) && CommitsAt(run, m, op) && AllReturned(Last(run))
    ensures op in Last(run).hist.results && Last(run).hist.results[op] == Ok
  {
    var last := |run| - 1;
    SlotsAdvance(cfg, run, m, last, op.slot);
    OverInTheEnd(cfg, run, op);
    assert CommittedBy(run, last, op);
    ResultIsDecision(cfg, run, last, op);
  }

  lemma OverInTheEnd(cfg: Config, run: seq<World>, op: OpId)
    requires Run(cfg, run) && AllReturned(Last(run)) && Started(Last(run).sh, op.slot, op.seqno)
    ensures op in Last(run).hist.results
  {
    var w := Last(run);
    RunInvariant(cfg, run, |run| - 1);
    assert w.stacks[op.slot] == [];
    assert OpHistory(w.sh, w.hist, op);
  }

  // ------------------------------------------------- calls come on record

  ghost predicate CallAt(cfg: Config, run: seq<World>, n: nat, t: nat, words: seq<KWord>) {
    n + 1 < |run| && Begin(cfg, run[n], run[n + 1], t, words)
  }

  predicate Carries(pc: Pc, words: seq<KWord>) {
    match pc
    case InitTarget(args, _) => args == words
    case InitExpected(args, _) => args == words
    case InitDesired(args, _) => args == words
    case InitLoad(args) => args == words
    case InitStage(args) => args == words
    case _ => false
  }

  ghost predicate OnRecord(w: World, words: seq<KWord>) {
    exists op :: op in w.hist.began && w.hist.began[op] == words
  }

  // Thread `t` is still filling its descriptor with the words, or they are on record.
  ghost predicate Submitted(w: World, t: nat, words: seq<KWord>) {
    OnRecord(w, words) || (t < |w.stacks| && |w.stacks[t]| == 1 && Carries(w.stacks[t][0].pc, words))
  }

  lemma CarryStep(sh: Shared, h: History, k: nat, f: Frame, words: seq<KWord>)
    requires FrameInv(sh, h, k, f) && InRange(sh, f, k) && Carries(f.pc, words)
    ensures var o := Exec(sh, f, k);
            o.move.Goto? && (o.event == Began(words) || Carries(o.move.frame.pc, words))
  {
  }

  lemma SubmittedStep(cfg: Config, run: seq<World>, n: nat, t: nat, words: seq<KWord>)
    requires Run(cfg, run) && n + 1 < |run| && Submitted(run[n], t, words)
    ensures Submitted(run[n + 1], t, words)
  {
    RunStep(cfg, run, n);
    hide Inv;
    hide Next;
    hide Carries;
    if OnRecord(run[n], words) {
      var op :| op in run[n].hist.began && run[n].hist.began[op] == words;
      BeganGrows(cfg, run[n], run[n + 1], op);
    } else {
      StillFilling(cfg, run[n], run[n + 1], t, words);
    }
  }

  lemma StillFilling(cfg: Config, w: World, w': World, t: nat, words: seq<KWord>)
    requires Inv(cfg, w) && Next(cfg, w, w')
    requires t < |w.stacks| && |w.stacks[t]| == 1 && Carries(w.stacks[t][0].pc, words)
    ensures Submitted(w', t, words)
  {
    hide Inv;
    hide Exec;
    hide Carries;
    if u: nat :| Execute(cfg, w, w', u) && u == t {
      FillingStep(cfg, w, w', t, words);
    } else {
      assert w'.stacks[t] == w.stacks[t];
    }
  }

  lemma FillingStep(cfg: Config, w: World, w': World, t: nat, words: seq<KWord>)
    requires Inv(cfg, w) && Execute(cfg, w, w', t) && |w.stacks[t]| == 1 && Carries(w.stacks[t][0].pc, words)
    ensures Submitted(w', t, words)
  {
    hide Exec;
    hide Inv;
    var f := w.stacks[t][0];
    FrameOfStep(cfg, w, w', t);
    CarryStep(w.sh, w.hist, cfg.k, f, words);
    if Exec(w.sh, f, cfg.k).event == Began(words) {
      assert OpOf(f) in w'.hist.began;
    }
  }

  lemma {:induction false} CallSubmitted(cfg: Config, run: seq<World>, n: nat, m: nat, t: nat, words: seq<KWord>)
    requires Run(cfg, run) && CallAt(cfg, run, n, t, words) && n < m < |run|
    ensures Submitted(run[m], t, words)
    decreases m
  {
    if m > n + 1 {
      CallSubmitted(cfg, run, n, m - 1, t, words);
      SubmittedStep(cfg, run, m - 1, t, words);
    }
  }

  // When all calls have returned, the words of each of them are on record.
  lemma CallRecorded(cfg: Config, run: seq<World>, n: nat, t: nat, words: seq<KWord>)
    requires Run(cfg, run) && CallAt(cfg, run, n, t, words) && AllReturned(Last(run))
    ensures OnRecord(Last(run), words)
  {
    CallSubmitted(cfg, run, n, |run| - 1, t, words);
  }

  // --------------------------------------------------- exactly one switch

  // Word `x` of the operation changes its value.
  ghost predicate Changes(w: World, op: OpId, x: nat) {
    x < |WordsOf(w, op)| && !ComparesOnly(WordsOf(w, op)[x])
  }

  // Under the same assumptions each target of a committed operation whose value
  // changes is switched from marker to desired value in one step only.
  lemma SwitchedExactlyOnce(cfg: Config, run: seq<World>, n: nat, m: nat, op: OpId, x: nat)
    requires cfg.stable && cfg.mono && Run(cfg, run)
    requires EventAt(cfg, run, n, op, Switched(x)) && EventAt(cfg, run, m, op, Switched(x))
    requires Changes(Last(run), op, x)
    ensures n == m
  {
    if n < m {
      NoSecondSwitch(cfg, run, n, m, op, x);
    } else if m < n {
      NoSecondSwitch(cfg, run, m, n, op, x);
    }
  }

  lemma NoSecondSwitch(cfg: Config, run: seq<World>, n: nat, m: nat, op: OpId, x: nat)
    requires cfg.stable && cfg.mono && Run(cfg, run)
    requires EventAt(cfg, run, n, op, Switched(x)) && n < m && Changes(Last(run), op, x)
    ensures !EventAt(cfg, run, m, op, Switched(x))
  {
    if EventAt(cfg, run, m, op, Switched(x)) {
      SwitchRecorded(cfg, run, n, op, x);
      StaysSwitched(cfg, run, n + 1, m, op, x);
      CountedOnce(cfg, run, m + 1, op, x);
      SwitchRecorded(cfg, run, m, op, x);
    }
  }

  lemma CountedOnce(cfg: Config, run: seq<World>, n: nat, op: OpId, x: nat)
    requires cfg.stable && cfg.mono && Run(cfg, run) && n < |run| && Changes(Last(run), op, x)
    ensures run[n].hist.switched[(op, x)] <= 1
  {
    RunAtomic(cfg, run, n);
    assert SwitchedOnce(run[n].hist, op, x);
    if op in run[n].hist.began { WordsStay(cfg, run, n, |run| - 1, op); }
  }

  // Once switched, a target whose value changes never holds the operation's
  // marker again.
  lemma NeverRemarked(cfg: Config, run: seq<World>, n: nat, m: nat, op: OpId, x: nat, a: Addr)
    requires cfg.stable && cfg.mono && Run(cfg, run)
    requires EventAt(cfg, run, n, op, Switched(x)) && n < m < |run| && Changes(run[m], op, x)
    requires a < |run[m].sh.mem| && WordAt(WordsOf(run[m], op), a) == x
    ensures run[m].sh.mem[a] != Marker(op.slot, op.seqno)
  {
    SwitchRecorded(cfg, run, n, op, x);
    StaysSwitched(cfg, run, n + 1, m, op, x);
    MarkedUnswitched(cfg, run, m, op, x, a);
  }

  lemma MarkedUnswitched(cfg: Config, run: seq<World>, m: nat, op: OpId, x: nat, a: Addr)
    requires cfg.stable && cfg.mono && Run(cfg, run) && m < |run|
    requires IsSwitched(run[m].hist, op, x) && Changes(run[m], op, x)
    requires a < |run[m].sh.mem| && WordAt(WordsOf(run[m], op), a) == x
    ensures run[m].sh.mem[a] != Marker(op.slot, op.seqno)
  {
    RunAtomic(cfg, run, m);
    assert SwitchedOnce(run[m].hist, op, x);
    assert FirstMark(run[m], a);
    assert Kept(run[m], op);
  }

  lemma SwitchRecorded(cfg: Config, run: seq<World>, n: nat, op: OpId, x: nat)
    requires EventAt(cfg, run, n, op, Switched(x))
    ensures IsSwitched(run[n + 1].hist, op, x)
    ensures run[n + 1].hist.switched[(op, x)] == run[n].hist.switched[(op, x)] + 1
  {
    var t :| Took(cfg, run[n], run[n + 1], t, op, Switched(x));
  }

  lemma {:induction false} StaysSwitched(cfg: Config, run: seq<World>, n: nat, m: nat, op: OpId, x: nat)
    requires Run(cfg, run) && n <= m < |run| && IsSwitched(run[n].hist, op, x)
    ensures IsSwitched(run[m].hist, op, x)
    decreases m
  {
    if n < m {
      StaysSwitched(cfg, run, n, m - 1, op, x);
      RunStep(cfg, run, m - 1);
      var mover := NextRely(cfg, run[m - 1], run[m]);
    }
  }
}
