// Past claiming nothing waits. A frame that has decided its operation, or finds it
// decided, ends after a number of its own steps that is linear in the number of words,
// whatever the other threads do, and returns what has become of the operation.
module BoundedEndings {
  import opened KcasTypes
  import opened StepMachine
  import opened ProtocolInvariant
  import opened SafetyTheorems
  import opened NoOrphanMarkers
  import opened Linearizability
  import opened SoloRuns
  import opened SoloMeetsMachine

  // ------------------------------------------------------- steps still to take

  predicate Past(pc: Pc) {
    || pc.DecideSetting? || pc.DecideReverting? || SetPc(pc) || RevertPc(pc)
    || pc.FinishSuccessful? || pc.FinishReverted? || pc.Prepare? || pc.Fail?
  }

  // The frame has left its claim, or its operation is claiming no more.
  ghost predicate Leaves(sh: Shared, f: Frame) {
    !InitPc(f.pc) && !f.pc.ClaimHelping? && (Past(f.pc) || !Live(sh, f, Claiming))
  }

  // What is left after the last compare-and-swap of a revert pass at word `w`.
  function RevertLeft(w: nat, after: AfterRevert, k: nat): nat {
    3 * w + if after == MarkReverted then 3 * k + 2 else 1
  }

  // The steps a frame at this position takes at most before it returns, once its
  // operation is decided: four for each word to claim or to set, three for each word
  // to revert.
  function StepsLeft(pc: Pc, k: nat): int {
    match pc
    case HelpLoad => 14 * k + 5
    case ClaimLoadTarget(w) => 10 * k + 4 + 4 * (k - w)
    case ClaimLoadExpected(w, _) => 10 * k + 3 + 4 * (k - w)
    case ClaimCas(w, _, _) => 10 * k + 2 + 4 * (k - w)
    case ClaimVerify(w, _, _, _) => 10 * k + 1 + 4 * (k - w)
    case DecideSetting => 10 * k + 4
    case DecideReverting(_) => 10 * k + 4
    case SetLoadTarget(w) => 6 * k + 3 + 4 * (k - w)
    case SetLoadDesired(w, _) => 6 * k + 2 + 4 * (k - w)
    case SetCas(w, _, _) => 6 * k + 1 + 4 * (k - w)
    case SetVerify(w) => 6 * k + 4 * (k - w)
    case FinishSuccessful => 6 * k + 3
    case RevertLoadTarget(w, after) => RevertLeft(w, after, k) + 3
    case RevertLoadExpected(w, _, after) => RevertLeft(w, after, k) + 2
    case RevertCas(w, _, _, after) => RevertLeft(w, after, k) + 1
    case FinishReverted => 3 * k + 2
    case _ => 1
  }

  lemma StepsBounded(sh: Shared, f: Frame, k: nat)
    requires InRange(sh, f, k) && Leaves(sh, f)
    ensures 1 <= StepsLeft(f.pc, k) <= 14 * k + 5
  {
  }

  ghost predicate Nearer(m: Move, f: Frame, k: nat) {
    m.Return? || (m.Goto? && !m.frame.pc.ClaimHelping? && StepsLeft(m.frame.pc, k) < StepsLeft(f.pc, k))
  }

  // Every own step brings the end nearer.
  lemma EndingStep(sh: Shared, h: History, k: nat, f: Frame)
    requires FrameInv(sh, h, k, f) && InRange(sh, f, k) && Leaves(sh, f)
    ensures Nearer(Exec(sh, f, k).move, f, k)
  {
    if ClaimPc(f.pc) {
      ClaimEnding(sh, k, f);
    } else if f.pc.DecideSetting? || f.pc.DecideReverting? {
      DecideEnding(sh, k, f);
    } else if SetPc(f.pc) {
      SetEnding(sh, k, f);
    } else if RevertPc(f.pc) {
      RevertEnding(sh, k, f);
    } else {
      LastEnding(sh, h, k, f);
    }
  }

  lemma ClaimEnding(sh: Shared, k: nat, f: Frame)
    requires InRange(sh, f, k) && Leaves(sh, f) && ClaimPc(f.pc)
    ensures Nearer(Exec(sh, f, k).move, f, k)
  {
    if f.pc.ClaimVerify? { ClaimVerifyEnding(sh, k, f); }
  }

  lemma ClaimVerifyEnding(sh: Shared, k: nat, f: Frame)
    requires InRange(sh, f, k) && Leaves(sh, f) && f.pc.ClaimVerify?
    ensures Nearer(Exec(sh, f, k).move, f, k)
  {
  }

  lemma DecideEnding(sh: Shared, k: nat, f: Frame)
    requires InRange(sh, f, k) && (f.pc.DecideSetting? || f.pc.DecideReverting?)
    ensures Nearer(Exec(sh, f, k).move, f, k)
  {
  }

  lemma SetEnding(sh: Shared, k: nat, f: Frame)
    requires InRange(sh, f, k) && SetPc(f.pc)
    ensures Nearer(Exec(sh, f, k).move, f, k)
  {
    if f.pc.SetVerify? { VerifyEnding(sh, k, f); }
  }

  lemma VerifyEnding(sh: Shared, k: nat, f: Frame)
    requires InRange(sh, f, k) && f.pc.SetVerify?
    ensures Nearer(Exec(sh, f, k).move, f, k)
  {
  }

  lemma RevertEnding(sh: Shared, k: nat, f: Frame)
    requires InRange(sh, f, k) && RevertPc(f.pc)
    ensures Nearer(Exec(sh, f, k).move, f, k)
  {
  }

  lemma LastEnding(sh: Shared, h: History, k: nat, f: Frame)
    requires FrameInv(sh, h, k, f) && InRange(sh, f, k) && Leaves(sh, f)
    requires f.pc.FinishSuccessful? || f.pc.FinishReverted? || f.pc.Prepare? || f.pc.HelpLoad? || f.pc.Fail?
    ensures Nearer(Exec(sh, f, k).move, f, k)
  {
  }

  // An operation that claims no more never claims again, and a frame past its claim
  // stays past it.
  lemma DecidedStays(sh: Shared, h: History, sh': Shared, h': History, mover: int, f: Frame)
    requires Rely(sh, h, sh', h', mover) && Started(sh, f.slot, f.seqno) && !Live(sh, f, Claiming)
    ensures !Live(sh', f, Claiming)
  {
    if Live(sh', f, Claiming) { LiveBefore(sh, h, sh', h', mover, f); }
  }

  lemma SameCall(sh: Shared, f: Frame, k: nat)
    requires InRange(sh, f, k) && !f.pc.ClaimHelping? && !InitPc(f.pc) && Exec(sh, f, k).move.Goto?
    ensures var g := Exec(sh, f, k).move.frame;
            && OpOf(g) == OpOf(f) && g.owner == f.owner && !InitPc(g.pc)
            && (Past(f.pc) ==> Past(g.pc))
  {
  }

  // ------------------------------------------------------------ along a run

  // Thread `t` takes the step from state `j`.
  ghost predicate Ran(cfg: Config, run: seq<World>, j: nat, t: nat) {
    j + 1 < |run| && Execute(cfg, run[j], run[j + 1], t)
  }

  // How many steps thread `t` takes from state `n` to state `m`.
  ghost function OwnSteps(cfg: Config, run: seq<World>, t: nat, n: nat, m: nat): nat
    requires n <= m
    decreases m - n
  {
    if n == m then 0 else (if Ran(cfg, run, n, t) then 1 else 0) + OwnSteps(cfg, run, t, n + 1, m)
  }

  ghost predicate Leaving(w: World, t: nat) {
    t < |w.stacks| && w.stacks[t] != [] && Leaves(w.sh, Last(w.stacks[t]))
  }

  // The thread still runs the same frame for the same operation.
  ghost predicate SameFrame(w: World, w': World, t: nat) {
    && t < |w.stacks| && t < |w'.stacks| && w.stacks[t] != [] && |w'.stacks[t]| == |w.stacks[t]|
    && w'.stacks[t][..|w.stacks[t]| - 1] == w.stacks[t][..|w.stacks[t]| - 1]
    && OpOf(Last(w'.stacks[t])) == OpOf(Last(w.stacks[t])) && Last(w'.stacks[t]).owner == Last(w.stacks[t]).owner
  }

  // A helper whose operation's sequence has moved on, and that has not yet begun to
  // clean up for another reason.
  ghost predicate Outdated(sh: Shared, f: Frame) {
    && !f.owner && !InitPc(f.pc) && !f.pc.Fail?
    && f.slot < |sh.slots| && f.seqno < sh.slots[f.slot].seqno
    && match f.pc
       case RevertLoadTarget(_, after) => after == HelpOutdated
       case RevertLoadExpected(_, _, after) => after == HelpOutdated
       case RevertCas(_, _, _, after) => after == HelpOutdated
       case _ => true
  }

  lemma OutdatedStep(sh: Shared, h: History, k: nat, f: Frame)
    requires FrameInv(sh, h, k, f) && InRange(sh, f, k) && !f.pc.ClaimHelping? && Outdated(sh, f)
    requires AtWork(f) ==> forall y :: 0 <= y < k ==> sh.slots[f.slot].words[y].target.Some?
    ensures var m := Exec(sh, f, k).move;
            m == Return(SequenceChangedWhileHelping) || (m.Goto? && Outdated(sh, m.frame))
  {
  }

  lemma OutdatedStays(sh: Shared, h: History, sh': Shared, h': History, mover: int, f: Frame)
    requires Rely(sh, h, sh', h', mover) && Outdated(sh, f)
    ensures Outdated(sh', f)
  {
    assert SlotRely(sh, sh', f.slot, mover);
  }

  // The frame goes on, or the thread's step ends it.
  lemma LeavingStep(cfg: Config, run: seq<World>, n: nat, t: nat)
    requires Run(cfg, run) && n + 1 < |run| && Leaving(run[n], t)
    requires Ran(cfg, run, n, t) && !Exec(run[n].sh, Last(run[n].stacks[t]), cfg.k).move.Return?
    ensures Leaving(run[n + 1], t) && SameFrame(run[n], run[n + 1], t)
    ensures Exec(run[n].sh, Last(run[n].stacks[t]), cfg.k).move == Goto(Last(run[n + 1].stacks[t]))
    ensures StepsLeft(Last(run[n + 1].stacks[t]).pc, cfg.k) < StepsLeft(Last(run[n].stacks[t]).pc, cfg.k)
    ensures Outdated(run[n].sh, Last(run[n].stacks[t])) ==> Outdated(run[n + 1].sh, Last(run[n + 1].stacks[t]))
  {
    hide Exec;
    hide Inv;
    hide StepsLeft;
    hide Outdated;
    var w, w', f := run[n], run[n + 1], Last(run[n].stacks[t]);
    RunStep(cfg, run, n);
    FrameOfStep(cfg, w, w', t);
    StepFacts(cfg, w, w', t);
    EndingStep(w.sh, w.hist, cfg.k, f);
    SameCall(w.sh, f, cfg.k);
    var g := Exec(w.sh, f, cfg.k).move.frame;
    assert Last(w'.stacks[t]) == g;
    if !Past(f.pc) {
      DecidedStays(w.sh, w.hist, w'.sh, w'.hist, MoverOf(f), f);
    }
    if Outdated(w.sh, f) {
      if AtWork(f) { DescriptorClean(cfg, w, f); }
      OutdatedStep(w.sh, w.hist, cfg.k, f);
      OutdatedStays(w.sh, w.hist, w'.sh, w'.hist, MoverOf(f), g);
    }
  }

  // Other threads' steps change nothing of this.
  lemma LeavingWaits(cfg: Config, run: seq<World>, n: nat, t: nat)
    requires Run(cfg, run) && n + 1 < |run| && Leaving(run[n], t) && !Ran(cfg, run, n, t)
    ensures Leaving(run[n + 1], t) && run[n + 1].stacks[t] == run[n].stacks[t] && SameFrame(run[n], run[n + 1], t)
    ensures Outdated(run[n].sh, Last(run[n].stacks[t])) ==> Outdated(run[n + 1].sh, Last(run[n + 1].stacks[t]))
  {
    hide Inv;
    hide Exec;
    hide Outdated;
    var w, w', f := run[n], run[n + 1], Last(run[n].stacks[t]);
    RunStep(cfg, run, n);
    var mover := NextRely(cfg, w, w');
    OthersRun(cfg, w, w', t);
    TopStarted(cfg, w, t);
    if !Past(f.pc) { DecidedStays(w.sh, w.hist, w'.sh, w'.hist, mover, f); }
    if Outdated(w.sh, f) { OutdatedStays(w.sh, w.hist, w'.sh, w'.hist, mover, f); }
  }

  lemma OthersRun(cfg: Config, w: World, w': World, t: nat)
    requires Next(cfg, w, w') && !Execute(cfg, w, w', t) && t < |w.stacks| && w.stacks[t] != []
    ensures t < |w'.stacks| && w'.stacks[t] == w.stacks[t]
  {
  }

  lemma TopStarted(cfg: Config, w: World, t: nat)
    requires Inv(cfg, w) && t < |w.stacks| && w.stacks[t] != [] && !InitPc(Last(w.stacks[t]).pc)
    ensures Started(w.sh, Last(w.stacks[t]).slot, Last(w.stacks[t]).seqno)
    ensures InRange(w.sh, Last(w.stacks[t]), cfg.k) && !Last(w.stacks[t]).pc.ClaimHelping?
  {
    assert FramesInv(w.sh, w.hist, cfg.k, w.stacks[t]) && StackShape(w.stacks[t], t);
    FrameInRange(w.sh, w.hist, cfg.k, Last(w.stacks[t]));
  }

  // In step `r` the frame that thread `t` was running in state `n` returns.
  ghost predicate EndsAt(cfg: Config, run: seq<World>, n: nat, r: nat, t: nat) {
    && n <= r && Ran(cfg, run, r, t) && SameFrame(run[n], run[r], t)
    && Exec(run[r].sh, Last(run[r].stacks[t]), cfg.k).move.Return?
  }

  // The bound. A frame whose operation is decided, or that is past its claim, ends
  // within so many of its thread's own steps, whatever the other threads do.
  lemma {:induction false} EndsInTime(cfg: Config, run: seq<World>, t: nat, n: nat, m: nat) returns (r: nat)
    requires Run(cfg, run) && n <= m < |run| && Leaving(run[n], t)
    requires OwnSteps(cfg, run, t, n, m) >= StepsLeft(Last(run[n].stacks[t]).pc, cfg.k)
    ensures r < m && EndsAt(cfg, run, n, r, t)
    ensures Outdated(run[n].sh, Last(run[n].stacks[t])) ==> Outdated(run[r].sh, Last(run[r].stacks[t]))
    decreases m - n
  {
    hide Exec;
    hide Outdated;
    hide Leaves;
    hide Leaving;
    hide Inv;
    hide Ran;
    hide SameFrame;
    hide Run;
    RunInvariant(cfg, run, n);
    LeavingHasSteps(cfg, run[n], t);
    if Ran(cfg, run, n, t) && Exec(run[n].sh, Last(run[n].stacks[t]), cfg.k).move.Return? {
      r := n;
      SameFrameRefl(run[n], t);
    } else {
      if Ran(cfg, run, n, t) { LeavingStep(cfg, run, n, t); } else { LeavingWaits(cfg, run, n, t); }
      r := EndsInTime(cfg, run, t, n + 1, m);
      SameFrameThen(run[n], run[n + 1], run[r], t);
    }
  }

  lemma SameFrameRefl(w: World, t: nat)
    requires Leaving(w, t)
    ensures SameFrame(w, w, t)
  {
  }

  lemma SameFrameThen(w: World, v: World, u: World, t: nat)
    requires SameFrame(w, v, t) && SameFrame(v, u, t)
    ensures SameFrame(w, u, t)
  {
  }

  lemma LeavingHasSteps(cfg: Config, w: World, t: nat)
    requires Inv(cfg, w) && Leaving(w, t)
    ensures t < |w.stacks| && w.stacks[t] != []
    ensures InRange(w.sh, Last(w.stacks[t]), cfg.k) && !Last(w.stacks[t]).pc.ClaimHelping?
    ensures 1 <= StepsLeft(Last(w.stacks[t]).pc, cfg.k) <= 14 * cfg.k + 5
  {
    TopStarted(cfg, w, t);
    StepsBounded(w.sh, Last(w.stacks[t]), cfg.k);
  }

  // ------------------------------------------------------ what is returned

  // The owner's call is over, with the result that was decided.
  lemma OwnerEnds(cfg: Config, run: seq<World>, t: nat, n: nat, m: nat) returns (r: nat)
    requires Run(cfg, run) && n <= m < |run| && Leaving(run[n], t) && |run[n].stacks[t]| == 1
    requires OwnSteps(cfg, run, t, n, m) >= 14 * cfg.k + 5
    ensures n <= r < m && r + 1 < |run| && t < |run[r + 1].stacks| && run[r + 1].stacks[t] == []
    ensures var op := OpOf(run[n].stacks[t][0]);
            && op in run[r + 1].hist.results
            && (run[r + 1].hist.results[op] == Ok <==> CommittedBy(run, r + 1, op))
            && (run[r + 1].hist.results[op] == ValueWasNotExpectedValue <==> AbortedBy(run, r + 1, op))
  {
    hide Exec;
    hide Leaves;
    RunInvariant(cfg, run, n);
    LeavingHasSteps(cfg, run[n], t);
    r := EndsInTime(cfg, run, t, n, m);
    OwnerReturns(cfg, run, r, t);
    ResultIsDecision(cfg, run, r + 1, OpOf(run[n].stacks[t][0]));
  }

  lemma OwnerReturns(cfg: Config, run: seq<World>, r: nat, t: nat)
    requires Run(cfg, run) && Ran(cfg, run, r, t) && |run[r].stacks[t]| == 1
    requires Exec(run[r].sh, Last(run[r].stacks[t]), cfg.k).move.Return?
    ensures run[r + 1].stacks[t] == []
    ensures var op := OpOf(run[r].stacks[t][0]);
            && op in run[r + 1].hist.results
            && run[r + 1].hist.results[op] == Exec(run[r].sh, Last(run[r].stacks[t]), cfg.k).move.result
  {
    hide Exec;
    hide Inv;
    RunStep(cfg, run, r);
    FrameOfStep(cfg, run[r], run[r + 1], t);
    OwnerReturnEvent(run[r].sh, run[r].hist, run[r].stacks[t][0], cfg.k);
  }

  lemma OwnerReturnEvent(sh: Shared, h: History, f: Frame, k: nat)
    requires FrameInv(sh, h, k, f) && InRange(sh, f, k) && !f.pc.ClaimHelping? && f.owner
    requires Exec(sh, f, k).move.Return?
    ensures Exec(sh, f, k).event == Returned(Exec(sh, f, k).move.result)
  {
  }

  // What a help can return, and what it means.
  ghost predicate HelpAnswer(sh: Shared, sh': Shared, op: OpId, res: Result) {
    && op.slot < |sh.slots| && op.slot < |sh'.slots|
    && (res == Ok || res == SequenceChangedWhileHelping || res == HelpeeStageIsAlreadyTerminal)
    && (res == SequenceChangedWhileHelping ==> sh.slots[op.slot].seqno != op.seqno)
    && (res == HelpeeStageIsAlreadyTerminal ==>
          sh.slots[op.slot].seqno == op.seqno && Terminal(sh.slots[op.slot].stage))
    && (res == Ok ==> sh'.slots[op.slot].seqno != op.seqno || Terminal(sh'.slots[op.slot].stage))
  }

  predicate Terminal(stage: Stage) {
    stage == Successful || stage == Reverted
  }

  lemma HelperReturns(sh: Shared, h: History, k: nat, f: Frame)
    requires FrameInv(sh, h, k, f) && InRange(sh, f, k) && !f.pc.ClaimHelping? && !f.owner
    requires Exec(sh, f, k).move.Return?
    ensures HelpAnswer(sh, Exec(sh, f, k).sh, OpOf(f), Exec(sh, f, k).move.result)
  {
  }

  // The help is over, the claim that asked for it tries again, and if the sequence had
  // moved on at the beginning that is the answer.
  lemma HelperEnds(cfg: Config, run: seq<World>, t: nat, n: nat, m: nat) returns (r: nat, res: Result)
    requires Run(cfg, run) && n <= m < |run| && Leaving(run[n], t) && |run[n].stacks[t]| > 1
    requires OwnSteps(cfg, run, t, n, m) >= 14 * cfg.k + 5
    ensures n <= r < m && r + 1 < |run| && t < |run[r].stacks| && run[r].stacks[t] != []
    ensures HelpAnswer(run[r].sh, run[r + 1].sh, OpOf(Last(run[n].stacks[t])), res)
    ensures Outdated(run[n].sh, Last(run[n].stacks[t])) ==> res == SequenceChangedWhileHelping
    ensures t < |run[r + 1].stacks| && |run[r + 1].stacks[t]| == |run[n].stacks[t]| - 1
    ensures Last(run[r + 1].stacks[t]).pc.ClaimCas?
    ensures OpOf(Last(run[r + 1].stacks[t])) == OpOf(run[n].stacks[t][|run[n].stacks[t]| - 2])
  {
    hide Exec;
    hide Leaves;
    hide Outdated;
    hide HelpAnswer;
    RunInvariant(cfg, run, n);
    LeavingHasSteps(cfg, run[n], t);
    r := EndsInTime(cfg, run, t, n, m);
    res := ReturnResumes(cfg, run, r, t);
  }

  lemma ReturnResumes(cfg: Config, run: seq<World>, r: nat, t: nat) returns (res: Result)
    requires Run(cfg, run) && Ran(cfg, run, r, t) && |run[r].stacks[t]| > 1
    requires Exec(run[r].sh, Last(run[r].stacks[t]), cfg.k).move.Return?
    ensures HelpAnswer(run[r].sh, run[r + 1].sh, OpOf(Last(run[r].stacks[t])), res)
    ensures Outdated(run[r].sh, Last(run[r].stacks[t])) ==> res == SequenceChangedWhileHelping
    ensures var stack := run[r].stacks[t];
            && |run[r + 1].stacks[t]| == |stack| - 1
            && Last(run[r + 1].stacks[t]).pc.ClaimCas?
            && OpOf(Last(run[r + 1].stacks[t])) == OpOf(stack[|stack| - 2])
  {
    hide Exec;
    hide Inv;
    hide Outdated;
    hide HelpAnswer;
    var w, f := run[r], Last(run[r].stacks[t]);
    RunStep(cfg, run, r);
    FrameOfStep(cfg, w, run[r + 1], t);
    res := Exec(w.sh, f, cfg.k).move.result;
    HelperReturns(w.sh, w.hist, cfg.k, f);
    if Outdated(w.sh, f) {
      if AtWork(f) { DescriptorClean(cfg, w, f); }
      OutdatedStep(w.sh, w.hist, cfg.k, f);
    }
    assert Regular(Exec(w.sh, f, cfg.k).move) by { StepFacts(cfg, w, run[r + 1], t); }
  }

  // --------------------------------------------------- a help's first look

  // What a helper answers without doing anything: exactly when the sequence has moved
  // on, and exactly when the operation has ended under the same sequence. Otherwise it
  // goes to work, and never finds a slot that is inactive.
  lemma FirstLook(cfg: Config, run: seq<World>, n: nat, t: nat)
    requires Run(cfg, run) && Ran(cfg, run, n, t) && Last(run[n].stacks[t]).pc == HelpLoad
    ensures var f := Last(run[n].stacks[t]);
            var m := Exec(run[n].sh, f, cfg.k).move;
            && f.slot < |run[n].sh.slots|
            && var slot := run[n].sh.slots[f.slot];
            && (m == Return(SequenceChangedWhileHelping) <==> slot.seqno != f.seqno)
            && (m == Return(HelpeeStageIsAlreadyTerminal) <==>
                  slot.seqno == f.seqno && (slot.stage == Successful || slot.stage == Reverted))
            && (m == Goto(f.(pc := ClaimLoadTarget(0))) <==> slot.seqno == f.seqno && slot.stage == Claiming)
            && (m == Goto(f.(pc := SetLoadTarget(0))) <==> slot.seqno == f.seqno && slot.stage == Setting)
            && (m == Goto(f.(pc := RevertLoadTarget(cfg.k - 1, MarkReverted))) <==>
                  slot.seqno == f.seqno && slot.stage == Reverting)
            && !(slot.seqno == f.seqno && slot.stage == Inactive)
  {
    RunInvariant(cfg, run, n);
    FrameOfStep(cfg, run[n], run[n + 1], t);
    hide Inv;
    LooksOnce(run[n].sh, run[n].hist, cfg.k, Last(run[n].stacks[t]));
  }

  lemma LooksOnce(sh: Shared, h: History, k: nat, f: Frame)
    requires FrameInv(sh, h, k, f) && InRange(sh, f, k) && f.pc == HelpLoad
    ensures var m, slot := Exec(sh, f, k).move, sh.slots[f.slot];
            && (m == Return(SequenceChangedWhileHelping) <==> slot.seqno != f.seqno)
            && (m == Return(HelpeeStageIsAlreadyTerminal) <==>
                  slot.seqno == f.seqno && (slot.stage == Successful || slot.stage == Reverted))
            && (m == Goto(f.(pc := ClaimLoadTarget(0))) <==> slot.seqno == f.seqno && slot.stage == Claiming)
            && (m == Goto(f.(pc := SetLoadTarget(0))) <==> slot.seqno == f.seqno && slot.stage == Setting)
            && (m == Goto(f.(pc := RevertLoadTarget(k - 1, MarkReverted))) <==>
                  slot.seqno == f.seqno && slot.stage == Reverting)
            && !(slot.seqno == f.seqno && slot.stage == Inactive)
  {
  }

  // ----------------------------------------------------------- left alone

  // An owner that has left its claim, or whose operation is decided, reaches the end of
  // its call when it is left alone, within the bound and with the decided result.
  lemma {:induction false} AloneEnds(cfg: Config, run: seq<World>, t: nat)
    returns (longer: seq<World>, trace: seq<SoloState>)
    requires Run(cfg, run) && Leaving(Last(run), t) && |Last(run).stacks[t]| == 1
    ensures run <= longer && Run(cfg, longer) && OnlyMoved(Last(run), Last(longer), t)
    ensures SoloTrace(cfg.k, trace) && trace[0] == Running(Last(run).sh, [], Last(run).stacks[t][0])
    ensures |trace| <= StepsLeft(Last(run).stacks[t][0].pc, cfg.k) + 1
    ensures Last(trace).Halted? && Embeds(Last(longer), t, Last(trace))
    ensures var op := OpOf(Last(run).stacks[t][0]);
            op in Last(longer).hist.results && Last(longer).hist.results[op] == Last(trace).result
    decreases StepsLeft(Last(Last(run).stacks[t]).pc, cfg.k)
  {
    hide Exec;
    hide Leaves;
    hide StepsLeft;
    var w, f, n := Last(run), Last(run).stacks[t][0], |run| - 1;
    assert w.stacks[t] == [f];
    RunInvariant(cfg, run, n);
    LeavingHasSteps(cfg, w, t);
    var o := Exec(w.sh, f, cfg.k);
    var w' := After(w, t, f, o);
    assert Execute(cfg, w, w', t);
    Append(cfg, run, w');
    longer := run + [w'];
    assert Ran(cfg, longer, n, t);
    var s := Running(w.sh, [], f);
    if o.move.Return? {
      OwnerReturns(cfg, longer, n, t);
      trace := [s, Halted(o.sh, o.move.result)];
    } else {
      LeavingStep(cfg, longer, n, t);
      var rest;
      longer, rest := AloneEnds(cfg, longer, t);
      trace := [s] + rest;
      StartsTrace(cfg.k, s, rest);
    }
  }

  lemma StartsTrace(k: nat, s: SoloState, rest: seq<SoloState>)
    requires SoloTrace(k, rest) && rest[0] == SoloNext(k, s)
    ensures SoloTrace(k, [s] + rest)
  {
    forall n | 0 <= n < |[s] + rest| - 1 ensures SoloStepAt(k, [s] + rest, n) {
      if n > 0 { assert SoloStepAt(k, rest, n - 1); }
    }
  }

  // In particular, when a helper has decided the operation, or ended it.
  lemma DecidedOwnerEnds(cfg: Config, run: seq<World>, t: nat)
    returns (longer: seq<World>, trace: seq<SoloState>)
    requires Run(cfg, run) && t < |Last(run).stacks| && |Last(run).stacks[t]| == 1
    requires t < |Last(run).sh.slots| && Last(run).sh.slots[t].stage != Claiming
    requires !InitPc(Last(run).stacks[t][0].pc)
    ensures run <= longer && Run(cfg, longer) && OnlyMoved(Last(run), Last(longer), t)
    ensures SoloTrace(cfg.k, trace) && trace[0] == Running(Last(run).sh, [], Last(run).stacks[t][0])
    ensures |trace| <= 14 * cfg.k + 6 && Embeds(Last(longer), t, Last(trace))
    ensures Last(trace).Halted?
    ensures Last(trace).result
         == (match Last(run).sh.slots[t].stage
             case Setting => Ok
             case Successful => Ok
             case _ => ValueWasNotExpectedValue)
  {
    hide Exec;
    var w, n := Last(run), |run| - 1;
    var op := OpOf(w.stacks[t][0]);
    OwnerAtWork(cfg, run, t);
    LeavingHasSteps(cfg, w, t);
    longer, trace := AloneEnds(cfg, run, t);
    DecidedResult(cfg, longer, n, op);
  }

  lemma OwnerAtWork(cfg: Config, run: seq<World>, t: nat)
    requires Run(cfg, run) && t < |Last(run).stacks| && |Last(run).stacks[t]| == 1
    requires t < |Last(run).sh.slots| && Last(run).sh.slots[t].stage != Claiming
    requires !InitPc(Last(run).stacks[t][0].pc)
    ensures Inv(cfg, Last(run)) && Leaving(Last(run), t)
    ensures var op := OpOf(Last(run).stacks[t][0]);
            op.slot == t && op.seqno == Last(run).sh.slots[t].seqno && Last(run).sh.slots[t].stage != Inactive
  {
    RunInvariant(cfg, run, |run| - 1);
    var w := Last(run);
    assert FramesInv(w.sh, w.hist, cfg.k, w.stacks[t]) && StackShape(w.stacks[t], t);
    assert FrameInv(w.sh, w.hist, cfg.k, w.stacks[t][0]);
  }

  lemma SlotDecided(cfg: Config, run: seq<World>, n: nat, i: nat)
    requires Run(cfg, run) && n < |run| && i < |run[n].sh.slots|
    ensures SlotHistory(run[n].sh, run[n].hist, i)
  {
    RunInvariant(cfg, run, n);
  }

  // A decided operation returns its decision.
  lemma DecidedResult(cfg: Config, run: seq<World>, n: nat, op: OpId)
    requires Run(cfg, run) && n < |run| && op.slot < |run[n].sh.slots|
    requires run[n].sh.slots[op.slot].seqno == op.seqno
    requires run[n].sh.slots[op.slot].stage != Claiming && run[n].sh.slots[op.slot].stage != Inactive
    requires op in Last(run).hist.results
    ensures Committed(run[n].sh.slots[op.slot].stage) ==> Last(run).hist.results[op] == Ok
    ensures Undone(run[n].sh.slots[op.slot].stage) ==> Last(run).hist.results[op] == ValueWasNotExpectedValue
  {
    var last := |run| - 1;
    hide Inv;
    SlotDecided(cfg, run, n, op.slot);
    ResultIsDecision(cfg, run, last, op);
    if Committed(run[n].sh.slots[op.slot].stage) {
      var c := CommitOf(cfg, run, n, op);
      assert CommittedBy(run, last, op);
    } else {
      var c := AbortOf(cfg, run, n, op);
      assert AbortedBy(run, last, op);
    }
  }
}
