// What every run guarantees, with full descriptor reuse and recurring values.
module SafetyTheorems {
  import opened KcasTypes
  import opened StepMachine
  import opened ProtocolInvariant

  // ------------------------------------------------------- reading a step

  // The step from `w` to `w'` was taken by operation `op` and meant `e`.
  ghost predicate StepMeans(cfg: Config, w: World, w': World, op: OpId, e: Event) {
    exists t :: Took(cfg, w, w', t, op, e)
  }

  ghost predicate Took(cfg: Config, w: World, w': World, t: nat, op: OpId, e: Event) {
    && Execute(cfg, w, w', t)
    && OpOf(Last(w.stacks[t])) == op
    && Exec(w.sh, Last(w.stacks[t]), cfg.k).event == e
  }

  ghost predicate EventAt(cfg: Config, run: seq<World>, n: nat, op: OpId, e: Event) {
    n + 1 < |run| && StepMeans(cfg, run[n], run[n + 1], op, e)
  }

  // The index at which a property that is false at `lo` and true at `hi`
  // becomes true for the last time.
  lemma Rises(bs: seq<bool>, lo: nat, hi: nat) returns (m: nat)
    requires lo <= hi < |bs| && !bs[lo] && bs[hi]
    ensures lo <= m < hi && !bs[m] && bs[m + 1]
    ensures forall j :: m < j <= hi ==> bs[j]
  {
    m := hi;
    while bs[m]
      invariant lo <= m <= hi
      invariant forall j :: m < j <= hi ==> bs[j]
      decreases m
    {
      m := m - 1;
    }
  }

  lemma FrameOfStep(cfg: Config, w: World, w': World, t: nat)
    requires Inv(cfg, w) && Execute(cfg, w, w', t)
    ensures FrameInv(w.sh, w.hist, cfg.k, Last(w.stacks[t]))
    ensures StackShape(w.stacks[t], t)
  {
    assert FramesInv(w.sh, w.hist, cfg.k, w.stacks[t]);
  }

  // Only an executed step touches memory, descriptors or the history.
  lemma WhoMoved(cfg: Config, w: World, w': World) returns (t: nat)
    requires Next(cfg, w, w') && (w'.sh != w.sh || w'.hist != w.hist)
    ensures Execute(cfg, w, w', t)
  {
    if u: nat :| Execute(cfg, w, w', u) {
      t := u;
    } else {
      assert false;
    }
  }

  // The three ways a target word is written.
  ghost predicate Writes(f: Frame, before: Value, after: Value) {
    || (f.pc.ClaimCas? && before == f.pc.e && after == MarkerOf(f))
    || (f.pc.SetCas? && before == MarkerOf(f) && after == f.pc.d)
    || (f.pc.RevertCas? && before == MarkerOf(f) && after == f.pc.e)
  }

  function AddressOf(pc: Pc): Addr {
    match pc
    case ClaimCas(_, a, _) => a
    case SetCas(_, a, _) => a
    case RevertCas(_, a, _, _) => a
    case _ => 0
  }

  lemma ExecWrites(sh: Shared, f: Frame, k: nat, a: Addr)
    requires InRange(sh, f, k) && !f.pc.ClaimHelping?
    requires a < |sh.mem| && |Exec(sh, f, k).sh.mem| == |sh.mem| && Exec(sh, f, k).sh.mem[a] != sh.mem[a]
    ensures AddressOf(f.pc) == a && Writes(f, sh.mem[a], Exec(sh, f, k).sh.mem[a])
    ensures Exec(sh, f, k).sh.slots == sh.slots
  {
  }

  // `f` took the step from `w` to `w'` and wrote word `a` in it.
  ghost predicate Wrote(cfg: Config, w: World, w': World, f: Frame, a: Addr) {
    && a < |w.sh.mem| && |w'.sh.mem| == |w.sh.mem|
    && FrameInv(w.sh, w.hist, cfg.k, f)
    && AddressOf(f.pc) == a && Writes(f, w.sh.mem[a], w'.sh.mem[a])
    && w'.sh.slots == w.sh.slots
  }

  lemma WhoWrote(cfg: Config, w: World, w': World, a: Addr) returns (f: Frame)
    requires Inv(cfg, w) && Next(cfg, w, w')
    requires a < |w.sh.mem| && |w'.sh.mem| == |w.sh.mem| && w'.sh.mem[a] != w.sh.mem[a]
    ensures Wrote(cfg, w, w', f, a)
  {
    var t := WhoMoved(cfg, w, w');
    f := Last(w.stacks[t]);
    FrameOfStep(cfg, w, w', t);
    ExecWrites(w.sh, f, cfg.k, a);
  }

  // ------------------------------------------------------------ along a run

  // Every step obeys the rely condition.
  lemma NextRely(cfg: Config, w: World, w': World) returns (mover: int)
    requires Inv(cfg, w) && Next(cfg, w, w')
    ensures Rely(w.sh, w.hist, w'.sh, w'.hist, mover)
  {
    if t: nat :| Execute(cfg, w, w', t) {
      ExecuteInvariant(cfg, w, w', t);
      mover := MoverOf(Last(w.stacks[t]));
    } else {
      mover := -1;
      RelyRefl(w.sh, w.hist, w.hist, mover);
    }
  }

  lemma RunStep(cfg: Config, run: seq<World>, n: nat)
    requires Run(cfg, run) && n + 1 < |run|
    ensures Next(cfg, run[n], run[n + 1]) && Inv(cfg, run[n]) && Inv(cfg, run[n + 1])
  {
    assert NextAt(cfg, run, n);
    RunInvariant(cfg, run, n);
    RunInvariant(cfg, run, n + 1);
  }

  ghost predicate SlotLe(a: Slot, b: Slot) {
    || a.seqno < b.seqno
    || (a.seqno == b.seqno && StageLe(a.stage, b.stage) && (a.stage != Inactive ==> b.words == a.words))
  }

  // Each slot's (sequence, stage) only advances, and a live operation's
  // descriptor does not change.
  lemma {:induction false} SlotsAdvance(cfg: Config, run: seq<World>, n: nat, m: nat, i: nat)
    requires Run(cfg, run) && n <= m < |run| && i < |run[n].sh.slots|
    ensures |run[m].sh.slots| == |run[n].sh.slots| && |run[m].sh.mem| == |run[n].sh.mem|
    ensures SlotLe(run[n].sh.slots[i], run[m].sh.slots[i])
    decreases m
  {
    if n < m {
      SlotsAdvance(cfg, run, n, m - 1, i);
      SlotStep(cfg, run, m - 1, i);
    }
  }

  lemma SlotStep(cfg: Config, run: seq<World>, n: nat, i: nat)
    requires Run(cfg, run) && n + 1 < |run| && i < |run[n].sh.slots|
    ensures |run[n + 1].sh.slots| == |run[n].sh.slots| && |run[n + 1].sh.mem| == |run[n].sh.mem|
    ensures SlotLe(run[n].sh.slots[i], run[n + 1].sh.slots[i])
  {
    RunStep(cfg, run, n);
    var mover := NextRely(cfg, run[n], run[n + 1]);
    assert SlotRely(run[n].sh, run[n + 1].sh, i, mover);
  }

  // An operation, once started, stays started.
  lemma StartedForever(cfg: Config, run: seq<World>, n: nat, m: nat, op: OpId)
    requires Run(cfg, run) && n <= m < |run| && Started(run[n].sh, op.slot, op.seqno)
    ensures Started(run[m].sh, op.slot, op.seqno)
  {
    SlotsAdvance(cfg, run, n, m, op.slot);
  }

  // ------------------------------------------------- fatal errors, progress

  // No call ends fatally, no frame is on its way to a fatal return, and every
  // thread in flight has an enabled step.
  lemma NoFatalError(cfg: Config, run: seq<World>, n: nat)
    requires Run(cfg, run) && n < |run|
    ensures forall op :: op in run[n].hist.results
              ==> run[n].hist.results[op] == Ok || run[n].hist.results[op] == ValueWasNotExpectedValue
    ensures forall t, d :: 0 <= t < |run[n].stacks| && 0 <= d < |run[n].stacks[t]|
              ==> !run[n].stacks[t][d].pc.Fail?
    ensures forall t :: 0 <= t < |run[n].stacks| && run[n].stacks[t] != [] ==> Runnable(cfg, run[n], t)
  {
    RunInvariant(cfg, run, n);
    var w := run[n];
    forall op | op in w.hist.results
      ensures w.hist.results[op] == Ok || w.hist.results[op] == ValueWasNotExpectedValue
    {
      assert OpHistory(w.sh, w.hist, op);
    }
    forall t, d | 0 <= t < |w.stacks| && 0 <= d < |w.stacks[t]| ensures !w.stacks[t][d].pc.Fail? {
      assert FramesInv(w.sh, w.hist, cfg.k, w.stacks[t]);
      assert FrameInv(w.sh, w.hist, cfg.k, w.stacks[t][d]);
    }
    forall t | 0 <= t < |w.stacks| && w.stacks[t] != [] ensures Runnable(cfg, w, t) {
      assert FramesInv(w.sh, w.hist, cfg.k, w.stacks[t]);
      FrameInRange(w.sh, w.hist, cfg.k, Last(w.stacks[t]));
      assert StackShape(w.stacks[t], t);
    }
  }

  // ------------------------------------------------------- slots and owners

  ghost predicate AcquiresAt(run: seq<World>, n: nat, t: nat) {
    n + 1 < |run| && Acquire(run[n], run[n + 1], t)
  }

  // A slot is acquired again only after it has been released.
  lemma AcquiredOnce(cfg: Config, run: seq<World>, n: nat, m: nat, t: nat) returns (j: nat)
    requires Run(cfg, run) && n < m && AcquiresAt(run, n, t) && AcquiresAt(run, m, t)
    ensures n < j < m && Release(run[j], run[j + 1], t)
  {
    ghost var free := seq(|run|, i requires 0 <= i < |run| => t >= |run[i].taken| || !run[i].taken[t]);
    j := Rises(free, n + 1, m);
    assert NextAt(cfg, run, j);
    WhoReleased(cfg, run[j], run[j + 1], t);
  }

  lemma WhoReleased(cfg: Config, w: World, w': World, t: nat)
    requires Next(cfg, w, w') && t < |w.taken| && w.taken[t] && (t >= |w'.taken| || !w'.taken[t])
    ensures Release(w, w', t)
  {
  }

  // A slot whose call is in flight belongs to a wrapper, and cannot be released.
  lemma CallsAreOwned(cfg: Config, run: seq<World>, n: nat, t: nat)
    requires Run(cfg, run) && n + 1 < |run| && t < |run[n].stacks| && run[n].stacks[t] != []
    ensures t < |run[n].taken| && run[n].taken[t]
    ensures !Release(run[n], run[n + 1], t) && !AcquiresAt(run, n, t)
  {
    RunInvariant(cfg, run, n);
  }

  // --------------------------------------------------- operation identities

  // (thread, sequence) names one operation for the whole life of the state:
  // two steps that start it are the same step.
  lemma OperationStartsOnce(cfg: Config, run: seq<World>, n: nat, m: nat, op: OpId, us: seq<KWord>, vs: seq<KWord>)
    requires Run(cfg, run) && EventAt(cfg, run, n, op, Began(us)) && EventAt(cfg, run, m, op, Began(vs))
    ensures n == m && us == vs
  {
    StartMeans(cfg, run, n, op, us);
    StartMeans(cfg, run, m, op, vs);
    if n < m {
      StartedForever(cfg, run, n + 1, m, op);
    } else if m < n {
      StartedForever(cfg, run, m + 1, n, op);
    }
  }

  // A start publishes the caller's words and makes the operation live.
  ghost predicate Starts(w: World, w': World, op: OpId, words: seq<KWord>) {
    && op.slot < |w.sh.slots| && op.slot < |w'.sh.slots|
    && !Started(w.sh, op.slot, op.seqno)
    && w'.sh.slots[op.slot] == Slot(Claiming, op.seqno, words)
    && w'.sh.mem == w.sh.mem
    && Started(w'.sh, op.slot, op.seqno)
  }

  lemma StartMeans(cfg: Config, run: seq<World>, n: nat, op: OpId, words: seq<KWord>)
    requires Run(cfg, run) && EventAt(cfg, run, n, op, Began(words))
    ensures Starts(run[n], run[n + 1], op, words)
    ensures ValidWords(words, cfg.k, |run[n].sh.mem|)
  {
    RunStep(cfg, run, n);
    var t :| Took(cfg, run[n], run[n + 1], t, op, Began(words));
    StartStepMeans(cfg, run[n], run[n + 1], t, op, words);
  }

  lemma StartStepMeans(cfg: Config, w: World, w': World, t: nat, op: OpId, words: seq<KWord>)
    requires Inv(cfg, w) && Took(cfg, w, w', t, op, Began(words))
    ensures Starts(w, w', op, words)
    ensures ValidWords(words, cfg.k, |w.sh.mem|)
  {
    hide Inv;
    hide Exec;
    FrameOfStep(cfg, w, w', t);
    StartingFrame(w.sh, w.hist, cfg.k, Last(w.stacks[t]), words);
  }

  lemma StartingFrame(sh: Shared, h: History, k: nat, f: Frame, words: seq<KWord>)
    requires FrameInv(sh, h, k, f) && InRange(sh, f, k) && !f.pc.ClaimHelping?
    requires Exec(sh, f, k).event == Began(words)
    ensures !Started(sh, f.slot, f.seqno) && ValidWords(words, k, |sh.mem|)
    ensures Exec(sh, f, k).sh == Shared(sh.mem, sh.slots[f.slot := Slot(Claiming, f.seqno, words)])
  {
    assert f.pc == InitStage(words);
    assert sh.slots[f.slot].words == words;
  }

  // What a new entry of the history says about the event that made it.
  lemma RecordNew(h: History, p: OpId, e: Event, op: OpId, x: nat)
    ensures var h' := Record(h, p, e);
      && (op in h'.began && (op !in h.began || h.began[op] != h'.began[op]) ==> p == op && e == Began(h'.began[op]))
      && (op in h'.mismatched && op !in h.mismatched ==> p == op && e.Mismatch?)
      && (op in h'.committed && op !in h.committed ==> p == op && e == Commit)
      && (op in h'.aborted && op !in h.aborted ==> p == op && e == Abort)
      && (IsSwitched(h', op, x) && !IsSwitched(h, op, x) ==> p == op && e == Switched(x))
      && (op in h'.results && op !in h.results ==> p == op && e == Returned(h'.results[op]))
  {
  }

  lemma WhoBegan(cfg: Config, w: World, w': World, op: OpId)
    requires Inv(cfg, w) && Next(cfg, w, w') && op in w'.hist.began
    requires op !in w.hist.began || w.hist.began[op] != w'.hist.began[op]
    ensures StepMeans(cfg, w, w', op, Began(w'.hist.began[op]))
  {
    var t := WhoMoved(cfg, w, w');
    RecordNew(w.hist, OpOf(Last(w.stacks[t])), Exec(w.sh, Last(w.stacks[t]), cfg.k).event, op, 0);
    assert Took(cfg, w, w', t, op, Began(w'.hist.began[op]));
  }

  lemma StartedBegan(cfg: Config, run: seq<World>, n: nat, op: OpId)
    requires Run(cfg, run) && n < |run| && Started(run[n].sh, op.slot, op.seqno)
    ensures op in run[n].hist.began
  {
    RunInvariant(cfg, run, n);
    assert OpHistory(run[n].sh, run[n].hist, op);
  }

  ghost predicate BeganWith(w: World, op: OpId, words: seq<KWord>) {
    op in w.hist.began && w.hist.began[op] == words
  }

  lemma BeganStep(cfg: Config, run: seq<World>, n: nat, op: OpId, words: seq<KWord>)
    requires Run(cfg, run) && n + 1 < |run|
    requires !BeganWith(run[n], op, words) && BeganWith(run[n + 1], op, words)
    ensures EventAt(cfg, run, n, op, Began(words))
  {
    RunStep(cfg, run, n);
    WhoBegan(cfg, run[n], run[n + 1], op);
  }

  // The step that started an operation already under way.
  lemma StartOf(cfg: Config, run: seq<World>, n: nat, op: OpId) returns (b: nat)
    requires Run(cfg, run) && n < |run| && op in run[n].hist.began
    ensures b < n
    ensures EventAt(cfg, run, b, op, Began(run[n].hist.began[op]))
  {
    var words := run[n].hist.began[op];
    ghost var bs := seq(|run|, j requires 0 <= j < |run| => BeganWith(run[j], op, words));
    b := Rises(bs, 0, n);
    BeganStep(cfg, run, b, op, words);
  }

  // ------------------------------------------------------------- decisions

  // Operation `op` is live in `w` with the given stage.
  ghost predicate InStage(w: World, op: OpId, stage: Stage) {
    && op.slot < |w.sh.slots|
    && w.sh.slots[op.slot].seqno == op.seqno && w.sh.slots[op.slot].stage == stage
  }

  // The step from run[n] moves `op` from one stage to another.
  ghost predicate MovesAt(run: seq<World>, n: nat, op: OpId, from: Stage, to: Stage) {
    n + 1 < |run| && InStage(run[n], op, from) && InStage(run[n + 1], op, to)
  }

  ghost predicate CommittedBy(run: seq<World>, n: nat, op: OpId) {
    exists m :: 0 <= m < n && MovesAt(run, m, op, Claiming, Setting)
  }

  ghost predicate AbortedBy(run: seq<World>, n: nat, op: OpId) {
    exists m :: 0 <= m < n && MovesAt(run, m, op, Claiming, Reverting)
  }

  // An operation is decided at most once, and one way.
  lemma DecidedOnce(cfg: Config, run: seq<World>, n: nat, m: nat, op: OpId, to: Stage, to': Stage)
    requires Run(cfg, run)
    requires MovesAt(run, n, op, Claiming, to) && MovesAt(run, m, op, Claiming, to')
    requires (to == Setting || to == Reverting) && (to' == Setting || to' == Reverting)
    ensures n == m && to == to'
  {
    if n < m {
      SlotsAdvance(cfg, run, n + 1, m, op.slot);
    } else if m < n {
      SlotsAdvance(cfg, run, m + 1, n, op.slot);
    }
  }

  // A step that takes an operation out of Claiming decides it.
  lemma LeavingClaiming(cfg: Config, run: seq<World>, n: nat, op: OpId)
    requires Run(cfg, run) && n + 1 < |run|
    requires InStage(run[n], op, Claiming) && !InStage(run[n + 1], op, Claiming)
    ensures MovesAt(run, n, op, Claiming, Setting) || MovesAt(run, n, op, Claiming, Reverting)
  {
    RunStep(cfg, run, n);
    var t := WhoMoved(cfg, run[n], run[n + 1]);
    FrameOfStep(cfg, run[n], run[n + 1], t);
    LeavesClaiming(run[n].sh, run[n].hist, cfg.k, Last(run[n].stacks[t]), op.slot);
  }

  lemma LeavesClaiming(sh: Shared, h: History, k: nat, f: Frame, i: nat)
    requires FrameInv(sh, h, k, f) && InRange(sh, f, k) && !f.pc.ClaimHelping?
    requires i < |sh.slots| && sh.slots[i].stage == Claiming
    ensures var sh' := Exec(sh, f, k).sh;
            && |sh'.slots| == |sh.slots|
            && (sh'.slots[i] == sh.slots[i]
                || (sh'.slots[i].seqno == sh.slots[i].seqno
                    && (sh'.slots[i].stage == Setting || sh'.slots[i].stage == Reverting)))
  {
  }

  lemma DecidingFrame(sh: Shared, h: History, k: nat, f: Frame)
    requires FrameInv(sh, h, k, f) && InRange(sh, f, k) && !f.pc.ClaimHelping? && Exec(sh, f, k).event == Commit
    ensures Live(sh, f, Claiming) && MarkedUpTo(sh, f.slot, k)
    ensures Exec(sh, f, k).sh == StoreStage(sh, f.slot, Setting, f.seqno)
  {
    assert f.pc == DecideSetting;
  }

  lemma CommitMeans(cfg: Config, w: World, w': World, t: nat, op: OpId)
    requires Inv(cfg, w) && Took(cfg, w, w', t, op, Commit)
    ensures InStage(w, op, Claiming) && InStage(w', op, Setting)
    ensures MarkedUpTo(w.sh, op.slot, cfg.k)
  {
    hide Inv;
    hide Exec;
    FrameOfStep(cfg, w, w', t);
    DecidingFrame(w.sh, w.hist, cfg.k, Last(w.stacks[t]));
  }

  lemma AbortingFrame(sh: Shared, h: History, k: nat, f: Frame)
    requires FrameInv(sh, h, k, f) && InRange(sh, f, k) && !f.pc.ClaimHelping? && Exec(sh, f, k).event == Abort
    ensures Live(sh, f, Claiming) && Exec(sh, f, k).sh == StoreStage(sh, f.slot, Reverting, f.seqno)
  {
    assert f.pc.DecideReverting?;
  }

  lemma AbortMeans(cfg: Config, w: World, w': World, t: nat, op: OpId)
    requires Inv(cfg, w) && Took(cfg, w, w', t, op, Abort)
    ensures InStage(w, op, Claiming) && InStage(w', op, Reverting)
  {
    hide Inv;
    hide Exec;
    FrameOfStep(cfg, w, w', t);
    AbortingFrame(w.sh, w.hist, cfg.k, Last(w.stacks[t]));
  }

  lemma CommitStep(cfg: Config, run: seq<World>, n: nat, op: OpId)
    requires Run(cfg, run) && n + 1 < |run|
    requires op !in run[n].hist.committed && op in run[n + 1].hist.committed
    ensures MovesAt(run, n, op, Claiming, Setting)
  {
    RunStep(cfg, run, n);
    var t := WhoCommitted(cfg, run[n], run[n + 1], op);
    CommitMeans(cfg, run[n], run[n + 1], t, op);
  }

  lemma AbortStep(cfg: Config, run: seq<World>, n: nat, op: OpId)
    requires Run(cfg, run) && n + 1 < |run|
    requires op !in run[n].hist.aborted && op in run[n + 1].hist.aborted
    ensures MovesAt(run, n, op, Claiming, Reverting)
  {
    RunStep(cfg, run, n);
    var w, w' := run[n], run[n + 1];
    var t := WhoMoved(cfg, w, w');
    RecordNew(w.hist, OpOf(Last(w.stacks[t])), Exec(w.sh, Last(w.stacks[t]), cfg.k).event, op, 0);
    AbortMeans(cfg, w, w', t, op);
  }

  lemma CommitOf(cfg: Config, run: seq<World>, n: nat, op: OpId) returns (m: nat)
    requires Run(cfg, run) && n < |run| && op in run[n].hist.committed
    ensures m < n && MovesAt(run, m, op, Claiming, Setting)
  {
    m := Rises(seq(|run|, j requires 0 <= j < |run| => op in run[j].hist.committed), 0, n);
    CommitStep(cfg, run, m, op);
  }

  lemma AbortOf(cfg: Config, run: seq<World>, n: nat, op: OpId) returns (m: nat)
    requires Run(cfg, run) && n < |run| && op in run[n].hist.aborted
    ensures m < n && MovesAt(run, m, op, Claiming, Reverting)
  {
    m := Rises(seq(|run|, j requires 0 <= j < |run| => op in run[j].hist.aborted), 0, n);
    AbortStep(cfg, run, m, op);
  }

  // The owner's result is the decision, whoever took it: Ok exactly for the
  // operations that went from Claiming to Setting, and
  // ValueWasNotExpectedValue exactly for those that went to Reverting.
  lemma ResultIsDecision(cfg: Config, run: seq<World>, n: nat, op: OpId)
    requires Run(cfg, run) && n < |run| && op in run[n].hist.results
    ensures run[n].hist.results[op] == Ok <==> CommittedBy(run, n, op)
    ensures run[n].hist.results[op] == ValueWasNotExpectedValue <==> AbortedBy(run, n, op)
    ensures CommittedBy(run, n, op) != AbortedBy(run, n, op)
  {
    ResultRecorded(cfg, run, n, op);
    if run[n].hist.results[op] == Ok {
      var m := CommitOf(cfg, run, n, op);
      forall j | 0 <= j < n ensures !MovesAt(run, j, op, Claiming, Reverting) {
        if MovesAt(run, j, op, Claiming, Reverting) { DecidedOnce(cfg, run, m, j, op, Setting, Reverting); }
      }
    } else {
      var m := AbortOf(cfg, run, n, op);
      forall j | 0 <= j < n ensures !MovesAt(run, j, op, Claiming, Setting) {
        if MovesAt(run, j, op, Claiming, Setting) { DecidedOnce(cfg, run, m, j, op, Reverting, Setting); }
      }
    }
  }

  lemma ResultRecorded(cfg: Config, run: seq<World>, n: nat, op: OpId)
    requires Run(cfg, run) && n < |run| && op in run[n].hist.results
    ensures
      || (run[n].hist.results[op] == Ok && op in run[n].hist.committed)
      || (run[n].hist.results[op] == ValueWasNotExpectedValue && op in run[n].hist.aborted)
  {
    RunInvariant(cfg, run, n);
    assert OpHistory(run[n].sh, run[n].hist, op);
  }

  // Only committed operations are ever being set.
  lemma SettersCommitted(cfg: Config, run: seq<World>, n: nat, t: nat, d: nat)
    requires Run(cfg, run) && n < |run|
    requires t < |run[n].stacks| && d < |run[n].stacks[t]|
    requires SetPc(run[n].stacks[t][d].pc) || run[n].stacks[t][d].pc.FinishSuccessful?
    ensures CommittedBy(run, n, OpOf(run[n].stacks[t][d]))
  {
    SetterRecorded(cfg, run, n, t, d);
    var m := CommitOf(cfg, run, n, OpOf(run[n].stacks[t][d]));
  }

  lemma SetterRecorded(cfg: Config, run: seq<World>, n: nat, t: nat, d: nat)
    requires Run(cfg, run) && n < |run|
    requires t < |run[n].stacks| && d < |run[n].stacks[t]|
    requires SetPc(run[n].stacks[t][d].pc) || run[n].stacks[t][d].pc.FinishSuccessful?
    ensures OpOf(run[n].stacks[t][d]) in run[n].hist.committed
  {
    RunInvariant(cfg, run, n);
    var w := run[n];
    assert FramesInv(w.sh, w.hist, cfg.k, w.stacks[t]);
    assert FrameInv(w.sh, w.hist, cfg.k, w.stacks[t][d]);
  }

  // ------------------------------------------------------ justified failure

  // Word `x` of the claiming operation holds a value other than expected.
  ghost predicate Unexpected(w: World, op: OpId, x: nat) {
    && InStage(w, op, Claiming)
    && x < |w.sh.slots[op.slot].words|
    && var word := w.sh.slots[op.slot].words[x];
    && word.target.Some? && word.target.value < |w.sh.mem|
    && w.sh.mem[word.target.value].Clean?
    && w.sh.mem[word.target.value] != word.expected
  }

  lemma MismatchMeans(cfg: Config, w: World, w': World, t: nat, op: OpId, x: nat)
    requires Inv(cfg, w) && Took(cfg, w, w', t, op, Mismatch(x))
    ensures Unexpected(w, op, x)
  {
    FrameOfStep(cfg, w, w', t);
    assert Last(w.stacks[t]).pc.ClaimCas?;
  }

  lemma MismatchStep(cfg: Config, run: seq<World>, n: nat, op: OpId) returns (x: nat)
    requires Run(cfg, run) && n + 1 < |run|
    requires op !in run[n].hist.mismatched && op in run[n + 1].hist.mismatched
    ensures Unexpected(run[n], op, x)
  {
    RunStep(cfg, run, n);
    var w, w' := run[n], run[n + 1];
    var t := WhoMoved(cfg, w, w');
    var e := Exec(w.sh, Last(w.stacks[t]), cfg.k).event;
    RecordNew(w.hist, OpOf(Last(w.stacks[t])), e, op, 0);
    x := e.w;
    MismatchMeans(cfg, w, w', t, op, x);
  }

  lemma AbortRecorded(cfg: Config, run: seq<World>, n: nat, op: OpId)
    requires Run(cfg, run) && MovesAt(run, n, op, Claiming, Reverting)
    ensures op in run[n + 1].hist.mismatched
  {
    RunInvariant(cfg, run, n + 1);
    assert SlotHistory(run[n + 1].sh, run[n + 1].hist, op.slot);
    assert OpHistory(run[n + 1].sh, run[n + 1].hist, op);
  }

  // Whenever an operation is aborted, there was a moment since it became live
  // at which one of its targets held a value other than the expected one.
  lemma AbortsAreJustified(cfg: Config, run: seq<World>, n: nat, op: OpId) returns (m: nat, x: nat)
    requires Run(cfg, run) && MovesAt(run, n, op, Claiming, Reverting)
    ensures m <= n && Unexpected(run[m], op, x)
  {
    AbortRecorded(cfg, run, n, op);
    m := Rises(seq(|run|, j requires 0 <= j < |run| => op in run[j].hist.mismatched), 0, n + 1);
    x := MismatchStep(cfg, run, m, op);
  }

  // ------------------------------------------------------------ claiming

  // The operation's words that hold its marker are exactly its first `p`.
  ghost predicate ClaimedExactly(w: World, op: OpId, p: nat) {
    && op.slot < |w.sh.slots| && p <= |w.sh.slots[op.slot].words|
    && forall x :: 0 <= x < |w.sh.slots[op.slot].words| ==> (Marked(w.sh, op.slot, x) <==> x < p)
  }

  // While an operation is claiming, the words holding its marker are a prefix
  // of its word list, and its marker is nowhere else.
  lemma ClaimsFormPrefix(cfg: Config, run: seq<World>, n: nat, op: OpId) returns (p: nat)
    requires Run(cfg, run) && n < |run| && InStage(run[n], op, Claiming)
    ensures p <= cfg.k && |run[n].sh.slots[op.slot].words| == cfg.k
    ensures ClaimedExactly(run[n], op, p)
    ensures forall a :: 0 <= a < |run[n].sh.mem| && run[n].sh.mem[a] == Marker(op.slot, op.seqno)
              ==> exists x :: 0 <= x < p && run[n].sh.slots[op.slot].words[x].target == Some(a)
  {
    RunInvariant(cfg, run, n);
    var sh := run[n].sh;
    assert SlotShape(sh, cfg.k, op.slot) && SlotMarks(sh, run[n].hist, cfg.k, op.slot);
    p := MarkedPrefix(sh, op.slot, cfg.k);
    forall a | 0 <= a < |sh.mem| && sh.mem[a] == Marker(op.slot, op.seqno)
      ensures exists x :: 0 <= x < p && sh.slots[op.slot].words[x].target == Some(a)
    {
      var x := WordAt(sh.slots[op.slot].words, a);
      assert Marked(sh, op.slot, x);
    }
  }

  lemma MarkedPrefix(sh: Shared, i: nat, k: nat) returns (p: nat)
    requires i < |sh.slots| && |sh.slots[i].words| == k && PrefixMarked(sh, i)
    ensures p <= k && forall x :: 0 <= x < k ==> (Marked(sh, i, x) <==> x < p)
  {
    p := 0;
    while p < k && Marked(sh, i, p)
      invariant p <= k && MarkedUpTo(sh, i, p)
    {
      p := p + 1;
    }
    forall x | p <= x < k ensures !Marked(sh, i, x) {
      assert Marked(sh, i, x) ==> MarkedUpTo(sh, i, x);
    }
  }

  // No step of any thread removes a marker of an operation that is still
  // claiming afterwards.
  lemma ClaimsPersist(cfg: Config, run: seq<World>, n: nat, op: OpId, a: Addr)
    requires Run(cfg, run) && n + 1 < |run| && a < |run[n].sh.mem| && a < |run[n + 1].sh.mem|
    requires InStage(run[n + 1], op, Claiming)
    requires run[n].sh.mem[a] == Marker(op.slot, op.seqno)
    ensures run[n + 1].sh.mem[a] == Marker(op.slot, op.seqno)
  {
    RunStep(cfg, run, n);
    var mover := NextRely(cfg, run[n], run[n + 1]);
    assert ClaimMarker(run[n + 1].sh, run[n].sh.mem[a]);
  }

  // The step from run[n] puts the marker on word `x`, in place of the expected value.
  ghost predicate PlacedAt(run: seq<World>, n: nat, op: OpId, x: nat) {
    && n + 1 < |run|
    && op.slot < |run[n].sh.slots| && x < |run[n].sh.slots[op.slot].words|
    && var word := run[n].sh.slots[op.slot].words[x];
    && word.target.Some? && word.target.value < |run[n].sh.mem| && word.target.value < |run[n + 1].sh.mem|
    && run[n].sh.mem[word.target.value] == word.expected
    && run[n + 1].sh.mem[word.target.value] == Marker(op.slot, op.seqno)
  }

  lemma PlacedFromExpected(cfg: Config, run: seq<World>, n: nat, op: OpId, x: nat)
    requires Run(cfg, run) && n + 1 < |run|
    requires InStage(run[n], op, Claiming) && InStage(run[n + 1], op, Claiming)
    requires !Marked(run[n].sh, op.slot, x) && Marked(run[n + 1].sh, op.slot, x)
    ensures PlacedAt(run, n, op, x)
  {
    SlotStep(cfg, run, n, op.slot);
    RunStep(cfg, run, n);
    var word := run[n].sh.slots[op.slot].words[x];
    var f := WhoWrote(cfg, run[n], run[n + 1], word.target.value);
    PlacingFrame(cfg, run[n], run[n + 1], f, op, x);
  }

  lemma PlacingFrame(cfg: Config, w: World, w': World, f: Frame, op: OpId, x: nat)
    requires Inv(cfg, w) && InStage(w, op, Claiming)
    requires x < |w.sh.slots[op.slot].words| && w.sh.slots[op.slot].words[x].target.Some?
    requires Wrote(cfg, w, w', f, w.sh.slots[op.slot].words[x].target.value)
    requires w'.sh.mem[AddressOf(f.pc)] == Marker(op.slot, op.seqno)
    ensures w.sh.mem[AddressOf(f.pc)] == w.sh.slots[op.slot].words[x].expected
  {
    hide SharedInv;
    hide HistoryInv;
    hide StacksInv;
    assert f.pc.ClaimCas? && OpOf(f) == op && Current(w.sh, f);
    assert DistinctTargets(w.sh.slots[op.slot].words) by { ClaimingTargets(cfg, w, op.slot); }
  }

  lemma ClaimingTargets(cfg: Config, w: World, i: nat)
    requires Inv(cfg, w) && i < |w.sh.slots| && w.sh.slots[i].stage != Inactive
    ensures DistinctTargets(w.sh.slots[i].words)
  {
    assert SlotShape(w.sh, cfg.k, i);
  }

  // The commit point. When an operation goes from Claiming to Setting, every
  // one of its targets holds its marker; each marker was put there by a
  // compare-and-swap from that word's expected value and has stayed since.
  lemma CommitPoint(cfg: Config, run: seq<World>, n: nat, op: OpId, x: nat) returns (m: nat)
    requires Run(cfg, run) && MovesAt(run, n, op, Claiming, Setting) && x < cfg.k
    ensures Marked(run[n].sh, op.slot, x)
    ensures m < n && PlacedAt(run, m, op, x)
    ensures forall j :: m < j <= n ==> InStage(run[j], op, Claiming) && Marked(run[j].sh, op.slot, x)
  {
    AllMarkedAtCommit(cfg, run, n, op);
    StartedBegan(cfg, run, n, op);
    var b := StartOf(cfg, run, n, op);
    StartMeans(cfg, run, b, op, run[n].hist.began[op]);
    NotMarkedAtStart(cfg, run, b, op, x);
    assert Marked(run[n].sh, op.slot, x);
    ghost var bs := seq(|run|, j requires 0 <= j < |run| => Marked(run[j].sh, op.slot, x));
    m := Rises(bs, b + 1, n);
    forall j | b + 1 <= j <= n ensures InStage(run[j], op, Claiming) {
      SlotsAdvance(cfg, run, b + 1, j, op.slot);
      SlotsAdvance(cfg, run, j, n, op.slot);
    }
    forall j | m < j <= n ensures Marked(run[j].sh, op.slot, x) {
      assert bs[j];
    }
    PlacedFromExpected(cfg, run, m, op, x);
  }

  lemma AllMarkedAtCommit(cfg: Config, run: seq<World>, n: nat, op: OpId)
    requires Run(cfg, run) && MovesAt(run, n, op, Claiming, Setting)
    ensures MarkedUpTo(run[n].sh, op.slot, cfg.k)
  {
    RunStep(cfg, run, n);
    var w, w' := run[n], run[n + 1];
    assert SlotHistory(w.sh, w.hist, op.slot) && SlotHistory(w'.sh, w'.hist, op.slot);
    CommitStepMarks(cfg, w, w', op);
  }

  lemma CommitStepMarks(cfg: Config, w: World, w': World, op: OpId)
    requires Inv(cfg, w) && Next(cfg, w, w') && op !in w.hist.committed && op in w'.hist.committed
    ensures MarkedUpTo(w.sh, op.slot, cfg.k)
  {
    var t := WhoCommitted(cfg, w, w', op);
    CommitMeans(cfg, w, w', t, op);
  }

  lemma WhoCommitted(cfg: Config, w: World, w': World, op: OpId) returns (t: nat)
    requires Next(cfg, w, w') && op !in w.hist.committed && op in w'.hist.committed
    ensures Took(cfg, w, w', t, op, Commit)
  {
    t := WhoMoved(cfg, w, w');
    RecordNew(w.hist, OpOf(Last(w.stacks[t])), Exec(w.sh, Last(w.stacks[t]), cfg.k).event, op, 0);
  }

  lemma NotMarkedAtStart(cfg: Config, run: seq<World>, b: nat, op: OpId, x: nat)
    requires Run(cfg, run) && b + 1 < |run| && op.slot < |run[b].sh.slots|
    requires !Started(run[b].sh, op.slot, op.seqno) && run[b + 1].sh.mem == run[b].sh.mem
    requires InStage(run[b + 1], op, Claiming)
    ensures !Marked(run[b + 1].sh, op.slot, x)
  {
    RunStep(cfg, run, b);
    forall a | 0 <= a < |run[b].sh.mem| ensures run[b].sh.mem[a] != Marker(op.slot, op.seqno) {
      assert ValueInv(run[b].sh, run[b].sh.mem[a]);
    }
  }

  // ------------------------------------------------------------- setting

  // The step replaces the marker on word `x` by the word's desired value.
  ghost predicate Switches(w: World, w': World, op: OpId, x: nat) {
    && op.slot < |w.sh.slots| && x < |w.sh.slots[op.slot].words|
    && var word := w.sh.slots[op.slot].words[x];
    && word.target.Some? && word.target.value < |w.sh.mem| && word.target.value < |w'.sh.mem|
    && w.sh.mem[word.target.value] == Marker(op.slot, op.seqno)
    && w'.sh.mem[word.target.value] == word.desired
  }

  ghost predicate SwitchedAt(run: seq<World>, n: nat, op: OpId, x: nat) {
    n + 1 < |run| && Switches(run[n], run[n + 1], op, x)
  }

  lemma SwitchMeans(cfg: Config, w: World, w': World, t: nat, op: OpId, x: nat)
    requires Inv(cfg, w) && Took(cfg, w, w', t, op, Switched(x))
    requires op.slot < |w.sh.slots| && w.sh.slots[op.slot].seqno == op.seqno
    ensures Switches(w, w', op, x)
  {
    var f := Last(w.stacks[t]);
    FrameOfStep(cfg, w, w', t);
    SwitchingFrame(w.sh, f, cfg.k, x);
    SwitchLoaded(cfg, w, f);
  }

  lemma SwitchingFrame(sh: Shared, f: Frame, k: nat, x: nat)
    requires InRange(sh, f, k) && !f.pc.ClaimHelping? && Exec(sh, f, k).event == Switched(x)
    ensures f.pc.SetCas? && f.pc.w == x && sh.mem[f.pc.a] == MarkerOf(f)
    ensures Exec(sh, f, k).sh == StoreMem(sh, f.pc.a, f.pc.d)
  {
  }

  lemma SwitchLoaded(cfg: Config, w: World, f: Frame)
    requires FrameInv(w.sh, w.hist, cfg.k, f) && f.pc.SetCas? && Current(w.sh, f)
    ensures f.pc.w < |w.sh.slots[f.slot].words| && f.pc.a < |w.sh.mem|
    ensures w.sh.slots[f.slot].words[f.pc.w].target == Some(f.pc.a)
    ensures w.sh.slots[f.slot].words[f.pc.w].desired == f.pc.d
  {
  }

  lemma SwitchStep(cfg: Config, run: seq<World>, n: nat, op: OpId, x: nat)
    requires Run(cfg, run) && n + 1 < |run|
    requires !IsSwitched(run[n].hist, op, x) && IsSwitched(run[n + 1].hist, op, x)
    ensures EventAt(cfg, run, n, op, Switched(x))
    ensures Started(run[n].sh, op.slot, op.seqno)
  {
    RunStep(cfg, run, n);
    var w, w' := run[n], run[n + 1];
    var t := WhoMoved(cfg, w, w');
    RecordNew(w.hist, OpOf(Last(w.stacks[t])), Exec(w.sh, Last(w.stacks[t]), cfg.k).event, op, x);
    assert Took(cfg, w, w', t, op, Switched(x));
    FrameOfStep(cfg, w, w', t);
  }

  // Before a committed operation leaves Setting, each of its targets has been
  // switched from its marker to its desired value.
  lemma SettingCompletes(cfg: Config, run: seq<World>, n: nat, op: OpId, x: nat) returns (m: nat)
    requires Run(cfg, run) && n + 1 < |run| && x < cfg.k
    requires InStage(run[n], op, Setting) && !InStage(run[n + 1], op, Setting)
    ensures m < n && SwitchedAt(run, m, op, x)
  {
    AllSwitchedOnLeaving(cfg, run, n, op);
    assert IsSwitched(run[n].hist, op, x);
    m := Rises(seq(|run|, j requires 0 <= j < |run| => IsSwitched(run[j].hist, op, x)), 0, n);
    SwitchStep(cfg, run, m, op, x);
    SlotsAdvance(cfg, run, m, n, op.slot);
    RunStep(cfg, run, m);
    var t :| Took(cfg, run[m], run[m + 1], t, op, Switched(x));
    SwitchMeans(cfg, run[m], run[m + 1], t, op, x);
  }

  lemma AllSwitchedOnLeaving(cfg: Config, run: seq<World>, n: nat, op: OpId)
    requires Run(cfg, run) && n + 1 < |run|
    requires InStage(run[n], op, Setting) && !InStage(run[n + 1], op, Setting)
    ensures AllSwitched(run[n].hist, op, cfg.k)
  {
    RunStep(cfg, run, n);
    var t := WhoMoved(cfg, run[n], run[n + 1]);
    FrameOfStep(cfg, run[n], run[n + 1], t);
    LeavingFrame(run[n].sh, run[n].hist, cfg.k, Last(run[n].stacks[t]), op);
  }

  lemma LeavingFrame(sh: Shared, h: History, k: nat, f: Frame, op: OpId)
    requires FrameInv(sh, h, k, f) && InRange(sh, f, k) && !f.pc.ClaimHelping?
    requires op.slot < |sh.slots| && sh.slots[op.slot].seqno == op.seqno && sh.slots[op.slot].stage == Setting
    requires op.slot < |Exec(sh, f, k).sh.slots|
    requires Exec(sh, f, k).sh.slots[op.slot].seqno != op.seqno || Exec(sh, f, k).sh.slots[op.slot].stage != Setting
    ensures AllSwitched(h, op, k)
  {
    assert f.pc.FinishSuccessful? || f.pc.Prepare?;
  }

  // A word not yet switched keeps its operation in Setting, and a switch clears the
  // marker.
  lemma StaysSetting(sh: Shared, h: History, k: nat, f: Frame, op: OpId, x: nat)
    requires FrameInv(sh, h, k, f) && InRange(sh, f, k) && !f.pc.ClaimHelping? && x < k && !IsSwitched(h, op, x)
    requires op.slot < |sh.slots| && sh.slots[op.slot].seqno == op.seqno && sh.slots[op.slot].stage == Setting
    requires op.slot < |Exec(sh, f, k).sh.slots|
    ensures var slot := Exec(sh, f, k).sh.slots[op.slot]; slot.seqno == op.seqno && slot.stage == Setting
  {
    hide Exec;
    var slot := Exec(sh, f, k).sh.slots[op.slot];
    if slot.seqno != op.seqno || slot.stage != Setting { LeavingFrame(sh, h, k, f, op); }
  }

  lemma SwitchClears(sh: Shared, h: History, k: nat, f: Frame, x: nat, a: Addr)
    requires FrameInv(sh, h, k, f) && InRange(sh, f, k) && !f.pc.ClaimHelping? && Current(sh, f)
    requires Exec(sh, f, k).event == Switched(x)
    requires x < |sh.slots[f.slot].words| && sh.slots[f.slot].words[x].target == Some(a) && a < |sh.mem|
    ensures a < |Exec(sh, f, k).sh.mem| && Exec(sh, f, k).sh.mem[a].Clean?
  {
    SwitchingFrame(sh, f, k, x);
  }

  // While an operation is being set no thread is reverting it.
  lemma NobodyRevertsSetting(cfg: Config, run: seq<World>, n: nat, t: nat, d: nat)
    requires Run(cfg, run) && n < |run| && t < |run[n].stacks| && d < |run[n].stacks[t]|
    requires InStage(run[n], OpOf(run[n].stacks[t][d]), Setting) && !InitPc(run[n].stacks[t][d].pc)
    ensures !RevertPc(run[n].stacks[t][d].pc) && !run[n].stacks[t][d].pc.FinishReverted?
    ensures run[n].stacks[t][d].pc != Prepare(ValueWasNotExpectedValue)
  {
    RunInvariant(cfg, run, n);
    assert FramesInv(run[n].sh, run[n].hist, cfg.k, run[n].stacks[t]);
    assert FrameInv(run[n].sh, run[n].hist, cfg.k, run[n].stacks[t][d]);
  }
}
