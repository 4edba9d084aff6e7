// The step machine run by one thread from a frozen shared state, and the
// sequential meaning of a run: a list of atomic multi-word swaps.
module SoloRuns {
  import opened KcasTypes
  import opened StepMachine
  import opened SoloSpec
  import opened AtomicSwaps

  datatype SoloState =
    | Running(sh: Shared, below: seq<Frame>, frame: Frame)
    | Halted(sh: Shared, result: Result)

  function SoloNext(k: nat, s: SoloState): SoloState {
    if s.Halted? || !InRange(s.sh, s.frame, k) || s.frame.pc.ClaimHelping? then s
    else
      var o := Exec(s.sh, s.frame, k);
      match o.move
      case Goto(f) => Running(o.sh, s.below, f)
      case Call(f, c) => Running(o.sh, s.below + [f], c)
      case Return(r) =>
        if s.below == [] then Halted(o.sh, r)
        else Running(o.sh, s.below[..|s.below| - 1], Resume(Last(s.below), r))
  }

  // The next state is `t`.
  ghost predicate StepsTo(k: nat, s: SoloState, t: SoloState) {
    t == SoloNext(k, s)
  }

  // A run of the thread alone.
  ghost predicate SoloTrace(k: nat, trace: seq<SoloState>) {
    && trace != []
    && forall n :: 0 <= n < |trace| - 1 ==> SoloStepAt(k, trace, n)
  }

  ghost predicate SoloStepAt(k: nat, trace: seq<SoloState>, n: nat)
    requires n + 1 < |trace|
  {
    trace[n + 1] == SoloNext(k, trace[n])
  }

  lemma ExtendTrace(k: nat, trace: seq<SoloState>)
    requires SoloTrace(k, trace)
    ensures SoloTrace(k, trace + [SoloNext(k, trace[|trace| - 1])])
  {
    var more := trace + [SoloNext(k, trace[|trace| - 1])];
    forall n | 0 <= n < |more| - 1 ensures SoloStepAt(k, more, n) {
      if n < |trace| - 1 { assert SoloStepAt(k, trace, n); }
    }
  }

  // The solo steps are steps of the interleaved machine in which only thread
  // `t` moves.
  ghost predicate Embeds(w: World, t: nat, s: SoloState) {
    && t < |w.stacks| && w.sh == s.sh
    && (s.Running? ==> w.stacks[t] == s.below + [s.frame])
    && (s.Halted? ==> w.stacks[t] == [])
  }

  lemma SoloStepIsStep(cfg: Config, w: World, t: nat, s: SoloState) returns (w': World)
    requires Embeds(w, t, s) && SoloNext(cfg.k, s) != s
    ensures Next(cfg, w, w') && Embeds(w', t, SoloNext(cfg.k, s))
    ensures w'.taken == w.taken && |w'.stacks| == |w.stacks|
    ensures forall u :: 0 <= u < |w.stacks| && u != t ==> w'.stacks[u] == w.stacks[u]
  {
    var f, o := s.frame, Exec(s.sh, s.frame, cfg.k);
    assert Last(w.stacks[t]) == f;
    w' := After(w, t, f, o);
    assert Execute(cfg, w, w', t);
    assert w.stacks[t][..|w.stacks[t]| - 1] == s.below;
  }

  // ------------------------------------------ the list kept during a call

  ghost predicate EntryOk(start: Shared, sh: Shared, me: nat, e: Entry) {
    && e.op.slot < |start.slots| && e.op.slot < |sh.slots|
    && sh.slots[e.op.slot].seqno == e.op.seqno && sh.slots[e.op.slot].words == e.words
    && Committed(sh.slots[e.op.slot].stage)
    && (e.op.slot != me ==> Helped(start, e))
  }

  // The operation was claiming when the call began.
  ghost predicate Helped(start: Shared, e: Entry) {
    && e.op.slot < |start.slots|
    && start.slots[e.op.slot] == Slot(Claiming, e.op.seqno, e.words)
  }

  ghost predicate Recorded(log: seq<Entry>, p: nat) {
    exists n :: 0 <= n < |log| && log[n].op.slot == p
  }

  // The operation of slot `p` was claiming at the start and has committed since.
  ghost predicate CommittedSince(start: Shared, sh: Shared, p: nat) {
    && p < |start.slots| && p < |sh.slots|
    && start.slots[p].stage == Claiming && Committed(sh.slots[p].stage)
  }

  // Logical memory has gone from `start` to `sh` by the swaps of `log`: one
  // for each operation committed since, no operation twice.
  ghost predicate Logged(start: Shared, sh: Shared, me: nat, log: seq<Entry>) {
    && |sh.mem| == |start.mem| && |sh.slots| == |start.slots|
    && Fits(Logical(start), log) && Logical(sh) == Replay(Logical(start), log)
    && (forall p :: 0 <= p < |start.slots| && p != me ==> SlotProgress(start, sh, p))
    && (forall n :: 0 <= n < |log| ==> EntryOk(start, sh, me, log[n]))
    && (forall m, n :: 0 <= m < n < |log| ==> log[m].op.slot != log[n].op.slot)
    && (forall p :: p != me && CommittedSince(start, sh, p) ==> Recorded(log, p))
  }

  // No operation commits between the two states.
  ghost predicate NoCommit(sh: Shared, sh': Shared) {
    forall p :: !CommittedSince(sh, sh', p)
  }

  lemma LoggedQuiet(start: Shared, sh: Shared, sh': Shared, me: nat, log: seq<Entry>)
    requires Logged(start, sh, me, log) && Progress(sh, sh') && Logical(sh') == Logical(sh) && NoCommit(sh, sh')
    ensures Logged(start, sh', me, log)
  {
    forall p | 0 <= p < |start.slots| && p != me ensures SlotProgress(start, sh', p) {
      assert SlotProgress(start, sh, p) && SlotProgress(sh, sh', p);
    }
    forall n | 0 <= n < |log| ensures EntryOk(start, sh', me, log[n]) {
      assert EntryOk(start, sh, me, log[n]) && SlotProgress(sh, sh', log[n].op.slot);
    }
    forall p | p != me && CommittedSince(start, sh', p) ensures Recorded(log, p) {
      assert SlotProgress(start, sh, p) && SlotProgress(sh, sh', p);
      assert !CommittedSince(sh, sh', p);
      assert CommittedSince(start, sh, p);
    }
  }

  lemma LoggedCommit(start: Shared, sh: Shared, me: nat, log: seq<Entry>, i: nat)
    requires Logged(start, sh, me, log) && i < |sh.slots| && sh.slots[i].stage == Claiming
    requires AtomicKcas(Logical(sh), Logical(StoreStage(sh, i, Setting, sh.slots[i].seqno)), sh.slots[i].words)
    ensures Logged(start, StoreStage(sh, i, Setting, sh.slots[i].seqno), me,
                   log + [Entry(OpId(i, sh.slots[i].seqno), sh.slots[i].words)])
    ensures Logical(StoreStage(sh, i, Setting, sh.slots[i].seqno))
            == Replay(Logical(start), log + [Entry(OpId(i, sh.slots[i].seqno), sh.slots[i].words)])
  {
    var sh' := StoreStage(sh, i, Setting, sh.slots[i].seqno);
    var e := Entry(OpId(i, sh.slots[i].seqno), sh.slots[i].words);
    var log' := log + [e];
    AtomicIsSwap(Logical(sh), Logical(sh'), e.words);
    Extend(Logical(start), log, e);
    StageSpares(sh, i, Setting);
    forall p | 0 <= p < |start.slots| && p != me ensures SlotProgress(start, sh', p) {
      assert SlotProgress(start, sh, p) && SlotProgress(sh, sh', p);
    }
    forall n | 0 <= n < |log'| ensures EntryOk(start, sh', me, log'[n]) {
      if n < |log| {
        assert log'[n] == log[n];
        assert EntryOk(start, sh, me, log[n]) && SlotProgress(sh, sh', log[n].op.slot);
      } else {
        assert i != me ==> SlotProgress(start, sh, i);
      }
    }
    forall m, n | 0 <= m < n < |log'| ensures log'[m].op.slot != log'[n].op.slot {
      assert EntryOk(start, sh, me, log[m]);
    }
    forall p | p != me && CommittedSince(start, sh', p) ensures Recorded(log', p) {
      if p == i {
        assert log'[|log|].op.slot == p;
      } else {
        assert CommittedSince(start, sh, p);
        var n :| 0 <= n < |log| && log[n].op.slot == p;
        assert log'[n].op.slot == p;
      }
    }
  }

  // A finished call of `own`'s owner: logical memory went through the swaps of
  // `log`, which are those of exactly the other operations that were claiming at
  // the start and have committed since and, last of all and only on success, its
  // own. On failure some word of the operation does not hold its expected value.
  ghost predicate Ended(start: Shared, sh: Shared, own: Entry, log: seq<Entry>, r: Result) {
    var me := own.op.slot;
    && |sh.mem| == |start.mem| && |sh.slots| == |start.slots| && me < |sh.slots|
    && Fits(Logical(start), log) && Logical(sh) == Replay(Logical(start), log)
    && sh.slots[me] == Slot(Inactive, own.op.seqno + 1, own.words)
    && (forall p :: 0 <= p < |start.slots| && p != me ==> SlotProgress(start, sh, p))
    && (forall n :: 0 <= n < |log| && log[n].op.slot != me
          ==> Helped(start, log[n]) && CommittedSince(start, sh, log[n].op.slot))
    && (forall p :: p != me && CommittedSince(start, sh, p) ==> Recorded(log, p))
    && (forall m, n :: 0 <= m < n < |log| ==> log[m].op.slot != log[n].op.slot)
    && (r == Ok || r == ValueWasNotExpectedValue)
    && (r == Ok ==> log != [] && log[|log| - 1] == own)
    && (r == ValueWasNotExpectedValue ==> OthersOnly(log, me) && !Matches(Logical(sh), own.words))
  }

  ghost predicate OthersOnly(log: seq<Entry>, me: nat) {
    forall n :: 0 <= n < |log| ==> log[n].op.slot != me
  }

  // Slot `i` was reset; everyone else's descriptor and stage is as it was.
  ghost predicate Reset(sh: Shared, sh': Shared, i: nat) {
    && i < |sh.slots| && |sh'.slots| == |sh.slots|
    && sh'.slots == sh.slots[i := Slot(Inactive, sh.slots[i].seqno + 1, sh.slots[i].words)]
  }

  lemma EndsAfterReset(start: Shared, sh: Shared, sh': Shared, own: Entry, log: seq<Entry>, r: Result)
    requires Logged(start, sh, own.op.slot, log) && Reset(sh, sh', own.op.slot)
    requires |sh'.mem| == |sh.mem| && Logical(sh') == Logical(sh)
    requires sh.slots[own.op.slot].seqno == own.op.seqno && sh.slots[own.op.slot].words == own.words
    requires || (r == Ok && log != [] && log[|log| - 1] == own)
             || (r == ValueWasNotExpectedValue && sh.slots[own.op.slot].stage == Reverting
                 && !Matches(Logical(sh), own.words))
    ensures Ended(start, sh', own, log, r)
  {
    var me := own.op.slot;
    forall p | 0 <= p < |start.slots| && p != me ensures SlotProgress(start, sh', p) {
      assert SlotProgress(start, sh, p);
    }
    forall n | 0 <= n < |log|
      ensures log[n].op.slot != me ==> Helped(start, log[n]) && CommittedSince(start, sh', log[n].op.slot)
      ensures r == ValueWasNotExpectedValue ==> log[n].op.slot != me
    {
      assert EntryOk(start, sh, me, log[n]);
    }
    forall p | p != me && CommittedSince(start, sh', p) ensures Recorded(log, p) {
      assert CommittedSince(start, sh, p);
    }
  }

  // A call whose descriptor has been filled has committed nothing yet.
  lemma NothingLogged(start: Shared, sh: Shared, me: nat)
    requires |sh.mem| == |start.mem| && |sh.slots| == |start.slots| && Logical(sh) == Logical(start)
    requires forall p :: 0 <= p < |start.slots| && p != me ==> sh.slots[p] == start.slots[p]
    ensures Logged(start, sh, me, [])
  {
  }

  // ------------------------------------------------ the list, step by step

  // The step from `sh` to `sh'` commits the operation of entry `e`.
  ghost predicate CommitsEntry(sh: Shared, sh': Shared, e: Entry) {
    && e.op.slot < |sh.slots| && sh.slots[e.op.slot] == Slot(Claiming, e.op.seqno, e.words)
    && sh' == StoreStage(sh, e.op.slot, Setting, e.op.seqno)
  }

  ghost predicate MomentOk(start: Shared, s: SoloState, log: seq<Entry>, done: nat) {
    done <= |log| && Logical(s.sh) == Replay(Logical(start), log[..done])
  }

  ghost predicate StepOk(s: SoloState, t: SoloState, log: seq<Entry>, done: nat, done': nat) {
    done' == done || (done < |log| && done' == done + 1 && CommitsEntry(s.sh, t.sh, log[done]))
  }

  // Along the trace logical memory goes through the list entry by entry: after
  // step `n` it is the start's after the first `marks[n]` swaps, and a step that
  // takes it one further is the commit of that entry's operation.
  ghost predicate Stepwise(start: Shared, trace: seq<SoloState>, log: seq<Entry>, marks: seq<nat>) {
    && |marks| == |trace| && trace != [] && marks[0] == 0 && Last(marks) == |log|
    && (forall n :: 0 <= n < |trace| ==> MomentOk(start, trace[n], log, marks[n]))
    && (forall n :: 0 <= n < |trace| - 1 ==> StepOk(trace[n], trace[n + 1], log, marks[n], marks[n + 1]))
  }

  lemma QuietStep(start: Shared, trace: seq<SoloState>, log: seq<Entry>, marks: seq<nat>, next: SoloState)
    requires Stepwise(start, trace, log, marks) && Logical(next.sh) == Logical(Last(trace).sh)
    ensures Stepwise(start, trace + [next], log, marks + [|log|])
  {
    var trace', marks' := trace + [next], marks + [|log|];
    assert MomentOk(start, Last(trace), log, Last(marks));
    forall n | 0 <= n < |trace'| - 1 ensures StepOk(trace'[n], trace'[n + 1], log, marks'[n], marks'[n + 1]) {
      if n < |trace| - 1 { assert StepOk(trace[n], trace[n + 1], log, marks[n], marks[n + 1]); }
    }
  }

  lemma CommitStepwise(start: Shared, trace: seq<SoloState>, log: seq<Entry>, marks: seq<nat>,
                       next: SoloState, e: Entry)
    requires Stepwise(start, trace, log, marks) && CommitsEntry(Last(trace).sh, next.sh, e)
    requires Logical(next.sh) == Replay(Logical(start), log + [e])
    ensures Stepwise(start, trace + [next], log + [e], marks + [|log| + 1])
  {
    var trace', marks', log' := trace + [next], marks + [|log| + 1], log + [e];
    assert log'[..|log| + 1] == log';
    forall n | 0 <= n < |trace'| ensures MomentOk(start, trace'[n], log', marks'[n]) {
      if n < |trace| {
        assert MomentOk(start, trace[n], log, marks[n]);
        assert log'[..marks[n]] == log[..marks[n]];
      }
    }
    forall n | 0 <= n < |trace'| - 1 ensures StepOk(trace'[n], trace'[n + 1], log', marks'[n], marks'[n + 1]) {
      if n < |trace| - 1 { assert StepOk(trace[n], trace[n + 1], log, marks[n], marks[n + 1]); }
    }
  }
}
