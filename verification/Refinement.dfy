// Atomicity. When no word takes a value down and a slot is not reused under a
// working helper, the whole protocol refines an atomic multi-word
// compare-and-swap: logical memory changes only at commit points, and there all
// words of the operation change at once. The theorems over whole runs are in the
// modules on linearizability and on the sequential history.
module AtomicRefinement {
  import opened KcasTypes
  import opened StepMachine
  import opened ProtocolInvariant
  import opened CallerPromises
  import opened SafetyTheorems
  import opened NoOrphanMarkers

  // The held descriptor is the one its operation began with.
  ghost predicate Kept(w: World, op: OpId) {
    Held(w, op) ==> op in w.hist.began && w.hist.began[op] == w.sh.slots[op.slot].words
  }

  // A marker of a committed operation is one that was there at the commit, or its
  // word only compares.
  ghost predicate FirstMark(w: World, a: Addr)
    requires a < |w.sh.mem|
  {
    w.sh.mem[a].Marker? ==>
      && var op := OpId(w.sh.mem[a].slot, w.sh.mem[a].seqno);
      op in w.hist.committed ==> Held(w, op) && MarkedSince(w, op, Home(w, op.slot, a))
  }

  ghost predicate MarkedSince(w: World, op: OpId, x: nat)
    requires op.slot < |w.sh.slots|
  {
    Pending(w, op, x) || (x < |w.sh.slots[op.slot].words| && ComparesOnly(w.sh.slots[op.slot].words[x]))
  }

  ghost predicate SwitchedOnce(h: History, op: OpId, x: nat) {
    && (IsSwitched(h, op, x) ==> op in h.committed)
    && (h.switched[(op, x)] > 1 ==> op in h.began && x < |h.began[op]| && ComparesOnly(h.began[op][x]))
  }

  ghost predicate AtomicInv(w: World) {
    && (forall op :: Kept(w, op))
    && (forall a :: 0 <= a < |w.sh.mem| ==> FirstMark(w, a))
    && (forall op, x :: SwitchedOnce(w.hist, op, x))
  }

  // Everything the step lemmas below rely on.
  ghost predicate AllInv(cfg: Config, w: World) {
    Inv(cfg, w) && PromisesInv(cfg, w) && OrphanInv(w) && AtomicInv(w)
  }

  // A claim about to succeed for an operation that has committed meanwhile only
  // compares.
  ghost predicate ClaimOnTime(w: World, f: Frame) {
    f.pc.ClaimCas? && f.slot < |w.sh.slots| && f.pc.a < |w.sh.mem| && w.sh.mem[f.pc.a] == f.pc.e
    && OpOf(f) in w.hist.committed
    ==> f.pc.w < |w.sh.slots[f.slot].words| && ComparesOnly(w.sh.slots[f.slot].words[f.pc.w])
  }

  ghost predicate OnTime(w: World) {
    forall t :: 0 <= t < |w.stacks| && w.stacks[t] != [] ==> ClaimOnTime(w, Last(w.stacks[t]))
  }

  // ------------------------------------------------ reading a held marker

  lemma HeldAccepted(cfg: Config, w: World, op: OpId)
    requires AllInv(cfg, w) && Held(w, op)
    ensures Accepted(cfg, w.sh.slots[op.slot].words)
    ensures |w.sh.slots[op.slot].words| == cfg.k
  {
    assert Kept(w, op);
    KeptAccepted(cfg, w, op);
  }

  lemma KeptAccepted(cfg: Config, w: World, op: OpId)
    requires Inv(cfg, w) && PromisesInv(cfg, w) && Kept(w, op) && Held(w, op)
    ensures Accepted(cfg, w.sh.slots[op.slot].words)
    ensures |w.sh.slots[op.slot].words| == cfg.k
  {
    assert SlotShape(w.sh, cfg.k, op.slot);
  }

  // A marker reads as desired exactly when its operation is live and committed.
  lemma MarkerReads(sh: Shared, i: nat, s: nat, x: nat, a: Addr)
    requires a < |sh.mem| && sh.mem[a] == Marker(i, s) && i < |sh.slots|
    requires DistinctTargets(sh.slots[i].words) && x < |sh.slots[i].words| && sh.slots[i].words[x].target == Some(a)
    ensures LogicalAt(sh, a) ==
              if sh.slots[i].seqno == s && Committed(sh.slots[i].stage)
              then BitsOf(sh.slots[i].words[x].desired) else BitsOf(sh.slots[i].words[x].expected)
  {
    HomeIs(sh.slots[i].words, x, a);
  }

  lemma LiveCommitted(cfg: Config, w: World, op: OpId)
    requires Inv(cfg, w) && op.slot < |w.sh.slots|
    requires w.sh.slots[op.slot].seqno == op.seqno && Committed(w.sh.slots[op.slot].stage)
    ensures op in w.hist.committed
  {
    assert SlotHistory(w.sh, w.hist, op.slot);
  }

  // ------------------------------------------------------- memory writes

  // Writing a target word never changes what it reads as.
  lemma WriteReads(cfg: Config, w: World, w': World, f: Frame, a: Addr)
    requires AllInv(cfg, w) && ClaimOnTime(w, f) && Wrote(cfg, w, w', f, a) && FrameHeld(w, f)
    ensures LogicalAt(w'.sh, a) == LogicalAt(w.sh, a)
    ensures w'.sh.mem[a].Marker? && OpOf(f) in w.hist.committed ==>
              && Home(w, f.slot, a) < |w.sh.slots[f.slot].words|
              && ComparesOnly(w.sh.slots[f.slot].words[Home(w, f.slot, a)])
  {
    if f.pc.ClaimCas? {
      ClaimReads(cfg, w, w', f, a);
    } else {
      UnmarkReads(cfg, w, w', f, a);
    }
  }

  lemma ClaimReads(cfg: Config, w: World, w': World, f: Frame, a: Addr)
    requires AllInv(cfg, w) && ClaimOnTime(w, f) && Wrote(cfg, w, w', f, a) && FrameHeld(w, f) && f.pc.ClaimCas?
    ensures LogicalAt(w'.sh, a) == LogicalAt(w.sh, a)
    ensures OpOf(f) in w.hist.committed ==>
              && Home(w, f.slot, a) < |w.sh.slots[f.slot].words|
              && ComparesOnly(w.sh.slots[f.slot].words[Home(w, f.slot, a)])
  {
    HeldAccepted(cfg, w, OpOf(f));
    assert SlotShape(w.sh, cfg.k, f.slot);
    hide Inv;
    hide AtomicInv;
    hide OrphanInv;
    hide PromisesInv;
    if Current(w.sh, f) && Committed(w.sh.slots[f.slot].stage) { LiveCommitted(cfg, w, OpOf(f)); }
    MarkerReads(w'.sh, f.slot, f.seqno, f.pc.w, a);
    HomeIs(w.sh.slots[f.slot].words, f.pc.w, a);
  }

  lemma UnmarkReads(cfg: Config, w: World, w': World, f: Frame, a: Addr)
    requires AllInv(cfg, w) && Wrote(cfg, w, w', f, a) && FrameHeld(w, f) && !f.pc.ClaimCas?
    ensures LogicalAt(w'.sh, a) == LogicalAt(w.sh, a) && w'.sh.mem[a].Clean?
  {
    HeldAccepted(cfg, w, OpOf(f));
    assert FirstMark(w, a);
    hide Inv;
    hide AtomicInv;
    hide OrphanInv;
    hide PromisesInv;
    if Current(w.sh, f) && Committed(w.sh.slots[f.slot].stage) { LiveCommitted(cfg, w, OpOf(f)); }
    MarkerReads(w.sh, f.slot, f.seqno, f.pc.w, a);
    HomeIs(w.sh.slots[f.slot].words, f.pc.w, a);
    if f.pc.SetCas? {
      SetReads(w, cfg.k, f, a);
    } else {
      RevertReads(w, cfg.k, f, a);
    }
  }

  // The value a set frame has loaded is what the marker stands for.
  lemma SetReads(w: World, k: nat, f: Frame, a: Addr)
    requires f.pc.SetCas? && FrameInv(w.sh, w.hist, k, f) && FrameHeld(w, f)
    requires a < |w.sh.mem| && w.sh.mem[a] == MarkerOf(f) && FirstMark(w, a) && Home(w, f.slot, a) == f.pc.w
    ensures var word := w.sh.slots[f.slot].words[f.pc.w];
            f.pc.d == if Current(w.sh, f) && Committed(w.sh.slots[f.slot].stage) then word.desired else word.expected
  {
  }

  // And so is the value a revert frame has loaded.
  lemma RevertReads(w: World, k: nat, f: Frame, a: Addr)
    requires f.pc.RevertCas? && FrameInv(w.sh, w.hist, k, f) && FrameHeld(w, f)
    requires a < |w.sh.mem| && w.sh.mem[a] == MarkerOf(f) && FirstMark(w, a) && Home(w, f.slot, a) == f.pc.w
    requires Current(w.sh, f) && Committed(w.sh.slots[f.slot].stage) ==> OpOf(f) in w.hist.committed
    ensures var word := w.sh.slots[f.slot].words[f.pc.w];
            f.pc.e == if Current(w.sh, f) && Committed(w.sh.slots[f.slot].stage) then word.desired else word.expected
  {
  }

  // ------------------------------------------------- markers left in place

  // A marker reads as desired exactly when its operation has committed.
  lemma ReadsByHistory(cfg: Config, w: World, a: Addr, op: OpId)
    requires Inv(cfg, w) && OrphanInv(w)
    requires a < |w.sh.mem| && w.sh.mem[a] == Marker(op.slot, op.seqno) && FirstMark(w, a)
    ensures op.slot < |w.sh.slots| && Home(w, op.slot, a) < |w.sh.slots[op.slot].words|
    ensures var word := w.sh.slots[op.slot].words[Home(w, op.slot, a)];
            LogicalAt(w.sh, a) == if op in w.hist.committed then BitsOf(word.desired) else BitsOf(word.expected)
  {
    assert MarkerHeld(w, a);
    if w.sh.slots[op.slot].seqno == op.seqno && Committed(w.sh.slots[op.slot].stage) {
      LiveCommitted(cfg, w, op);
    }
  }

  // The step commits operation `op`.
  ghost predicate CommitsIn(w: World, w': World, op: OpId) {
    op !in w.hist.committed && op in w'.hist.committed
  }

  lemma FirstMarkStays(cfg: Config, w: World, w': World, t: nat, a: Addr)
    requires AllInv(cfg, w) && Inv(cfg, w') && Execute(cfg, w, w', t)
    requires a < |w.sh.mem| && |w'.sh.mem| == |w.sh.mem| && w'.sh.mem[a] == w.sh.mem[a]
    requires OrphanInv(w')
    ensures FirstMark(w', a)
  {
    if w.sh.mem[a].Marker? {
      var op := OpId(w.sh.mem[a].slot, w.sh.mem[a].seqno);
      assert MarkerHeld(w, a) && FirstMark(w, a) && MarkerHeld(w', a);
      StepFacts(cfg, w, w', t);
      HeldStable(cfg, w, w', t, op);
      var x := Home(w, op.slot, a);
      if op in w.hist.committed {
        assert SlotShape(w.sh, cfg.k, op.slot);
        if Pending(w, op, x) { StillPending(cfg, w, w', t, op, x, a); }
      } else if op in w'.hist.committed {
        FreshPending(cfg, w, w', op, x);
      }
    }
  }

  // Right after the commit nothing has been switched.
  lemma FreshPending(cfg: Config, w: World, w': World, op: OpId, x: nat)
    requires Inv(cfg, w) && AtomicInv(w) && Next(cfg, w, w') && CommitsIn(w, w', op)
    ensures Pending(w', op, x)
  {
    var t := WhoCommitted(cfg, w, w', op);
    CommitMeans(cfg, w, w', t, op);
    RecordNew(w.hist, op, Commit, op, x);
    assert SwitchedOnce(w.hist, op, x);
  }

  // ------------------------------------------------------- logical memory

  ghost predicate SameReading(w: World, w': World, a: Addr) {
    a < |w.sh.mem| && |w'.sh.mem| == |w.sh.mem| && LogicalAt(w'.sh, a) == LogicalAt(w.sh, a)
  }

  // The operation whose marker lies at `a` commits in this step.
  ghost predicate CommittedHere(w: World, w': World, a: Addr)
    requires a < |w.sh.mem|
  {
    w.sh.mem[a].Marker? && CommitsIn(w, w', OpId(w.sh.mem[a].slot, w.sh.mem[a].seqno))
  }

  lemma UntouchedReads(cfg: Config, w: World, w': World, t: nat, a: Addr)
    requires AllInv(cfg, w) && Inv(cfg, w') && OrphanInv(w') && Execute(cfg, w, w', t)
    requires a < |w.sh.mem| && |w'.sh.mem| == |w.sh.mem| && w'.sh.mem[a] == w.sh.mem[a]
    requires !CommittedHere(w, w', a)
    ensures SameReading(w, w', a)
  {
    if w.sh.mem[a].Marker? {
      var op := OpId(w.sh.mem[a].slot, w.sh.mem[a].seqno);
      StepFacts(cfg, w, w', t);
      assert MarkerHeld(w, a);
      HeldStable(cfg, w, w', t, op);
      FirstMarkStays(cfg, w, w', t, a);
      assert FirstMark(w, a);
      ReadsByHistory(cfg, w, a, op);
      ReadsByHistory(cfg, w', a, op);
    }
  }

  // The frame that wrote word `a` is the running one, and its descriptor is held.
  lemma WriterHeld(cfg: Config, w: World, w': World, t: nat, a: Addr)
    requires Inv(cfg, w) && OrphanInv(w) && Execute(cfg, w, w', t)
    requires a < |w.sh.mem| && |w'.sh.mem| == |w.sh.mem| && w'.sh.mem[a] != w.sh.mem[a]
    ensures Wrote(cfg, w, w', Last(w.stacks[t]), a) && FrameHeld(w, Last(w.stacks[t]))
  {
    FrameOfStep(cfg, w, w', t);
    ExecWrites(w.sh, Last(w.stacks[t]), cfg.k, a);
    assert StackHeld(w, w.stacks[t]);
  }

  lemma StepReads(cfg: Config, w: World, w': World, t: nat, a: Addr)
    requires AllInv(cfg, w) && OnTime(w) && Inv(cfg, w') && OrphanInv(w') && Execute(cfg, w, w', t)
    requires a < |w.sh.mem| && |w'.sh.mem| == |w.sh.mem| && !CommittedHere(w, w', a)
    ensures SameReading(w, w', a)
  {
    if w'.sh.mem[a] == w.sh.mem[a] {
      UntouchedReads(cfg, w, w', t, a);
    } else {
      WriterHeld(cfg, w, w', t, a);
      WriteReads(cfg, w, w', Last(w.stacks[t]), a);
    }
  }

  // At the commit every target reads its expected value before the step and
  // its desired value after it.
  lemma CommitReads(cfg: Config, w: World, w': World, t: nat, op: OpId, x: nat)
    requires AllInv(cfg, w) && Took(cfg, w, w', t, op, Commit) && x < cfg.k
    ensures op.slot < |w.sh.slots| && w'.sh == StoreStage(w.sh, op.slot, Setting, op.seqno)
    ensures |w.sh.slots[op.slot].words| == cfg.k
    ensures WordMatches(Logical(w.sh), w.sh.slots[op.slot].words[x])
    ensures WordSet(Logical(w'.sh), w.sh.slots[op.slot].words[x])
  {
    CommitMeans(cfg, w, w', t, op);
    CommitChanges(cfg, w, w', t, op);
    assert Marked(w.sh, op.slot, x);
    assert SlotShape(w.sh, cfg.k, op.slot);
    var a := w.sh.slots[op.slot].words[x].target.value;
    MarkerReads(w.sh, op.slot, op.seqno, x, a);
    MarkerReads(w'.sh, op.slot, op.seqno, x, a);
  }

  lemma CommitChanges(cfg: Config, w: World, w': World, t: nat, op: OpId)
    requires Took(cfg, w, w', t, op, Commit)
    ensures op.slot < |w.sh.slots| && w'.sh == StoreStage(w.sh, op.slot, Setting, op.seqno)
  {
    assert Last(w.stacks[t]).pc == DecideSetting;
  }

  // A word that is no target of the committing operation reads as before.
  lemma CommitSpares(cfg: Config, w: World, w': World, t: nat, op: OpId, a: Addr)
    requires AllInv(cfg, w) && OnTime(w) && Inv(cfg, w') && OrphanInv(w') && Took(cfg, w, w', t, op, Commit)
    requires a < |w.sh.mem| && |w'.sh.mem| == |w.sh.mem|
    requires op.slot < |w.sh.slots| && WordAt(w.sh.slots[op.slot].words, a) == |w.sh.slots[op.slot].words|
    ensures SameReading(w, w', a)
  {
    hide Exec;
    CommitMeans(cfg, w, w', t, op);
    assert SlotMarks(w.sh, w.hist, cfg.k, op.slot);
    assert w'.hist.committed == w.hist.committed + {op};
    hide Inv;
    hide AllInv;
    hide OrphanInv;
    StepReads(cfg, w, w', t, a);
  }

  // A commit is an atomic multi-word compare-and-swap on logical memory.
  lemma CommitIsAtomic(cfg: Config, w: World, w': World, t: nat, op: OpId)
    requires AllInv(cfg, w) && OnTime(w) && Inv(cfg, w') && OrphanInv(w') && Took(cfg, w, w', t, op, Commit)
    ensures op.slot < |w.sh.slots|
    ensures AtomicKcas(Logical(w.sh), Logical(w'.sh), w.sh.slots[op.slot].words)
  {
    CommitMeans(cfg, w, w', t, op);
    CommitChanges(cfg, w, w', t, op);
    var words := w.sh.slots[op.slot].words;
    assert SlotShape(w.sh, cfg.k, op.slot);
    forall x | 0 <= x < |words| ensures WordMatches(Logical(w.sh), words[x]) && WordSet(Logical(w'.sh), words[x]) {
      CommitReads(cfg, w, w', t, op, x);
    }
    forall a | 0 <= a < |w.sh.mem| && WordAt(words, a) == |words| ensures Logical(w'.sh)[a] == Logical(w.sh)[a] {
      CommitSpares(cfg, w, w', t, op, a);
    }
  }

  // Any other step leaves logical memory as it is.
  lemma OtherStepsSilent(cfg: Config, w: World, w': World, t: nat)
    requires AllInv(cfg, w) && OnTime(w) && Inv(cfg, w') && OrphanInv(w') && Execute(cfg, w, w', t)
    requires w'.hist.committed == w.hist.committed
    ensures Logical(w'.sh) == Logical(w.sh)
  {
    StepFacts(cfg, w, w', t);
    forall a | 0 <= a < |w.sh.mem| ensures Logical(w'.sh)[a] == Logical(w.sh)[a] {
      StepReads(cfg, w, w', t, a);
    }
  }

  // ------------------------------------------------ the invariant, per step

  // A descriptor held after a step was held before it, unless the step started
  // the operation.
  lemma HeldBefore(cfg: Config, w: World, w': World, t: nat, op: OpId)
    requires Inv(cfg, w) && Inv(cfg, w') && Execute(cfg, w, w', t) && Held(w', op)
    requires Rely(w.sh, w.hist, w'.sh, w'.hist, MoverOf(Last(w.stacks[t])))
    ensures Held(w, op) || op !in w.hist.began
  {
    assert OpHistory(w.sh, w.hist, op);
    assert SlotRely(w.sh, w'.sh, op.slot, MoverOf(Last(w.stacks[t])));
    var slot, slot' := w.sh.slots[op.slot], w'.sh.slots[op.slot];
    if slot'.seqno == op.seqno + 1 && slot'.seqno == slot.seqno {
      assert slot'.stage == Inactive && slot.stage == Inactive;
      assert w.stacks[op.slot] == [] by { IdleStays(cfg, w, w', t, op.slot); }
    }
  }

  // A slot that is inactive on both sides of a step and idle after it was idle before.
  lemma IdleStays(cfg: Config, w: World, w': World, t: nat, i: nat)
    requires Inv(cfg, w) && Inv(cfg, w') && Execute(cfg, w, w', t)
    requires i < |w.sh.slots| && i < |w'.sh.slots| && w.sh.slots[i].seqno == w'.sh.slots[i].seqno
    requires w.sh.slots[i].stage == Inactive && w'.stacks[i] == []
    ensures w.stacks[i] == []
  {
    if i == t {
      var f := Last(w.stacks[t]);
      StepFacts(cfg, w, w', t);
      assert StackShape(w.stacks[t], t);
      assert FramesInv(w.sh, w.hist, cfg.k, w.stacks[t]);
      assert FrameInv(w.sh, w.hist, cfg.k, w.stacks[t][0]);
      if |w.stacks[t]| == 1 {
        InitKeepsFrame(w.sh, w.hist, cfg.k, f);
      }
    }
  }

  lemma InitKeepsFrame(sh: Shared, h: History, k: nat, f: Frame)
    requires FrameInv(sh, h, k, f) && InRange(sh, f, k) && !f.pc.ClaimHelping?
    requires f.owner && sh.slots[f.slot].stage == Inactive
    ensures Exec(sh, f, k).move.Goto?
  {
  }

  lemma KeptStep(cfg: Config, w: World, w': World, t: nat, op: OpId)
    requires Inv(cfg, w) && Kept(w, op) && Inv(cfg, w') && Execute(cfg, w, w', t)
    ensures Kept(w', op)
  {
    if Held(w', op) {
      StepFacts(cfg, w, w', t);
      assert SlotHistory(w'.sh, w'.hist, op.slot);
      if w'.sh.slots[op.slot].seqno == op.seqno + 1 {
        KeptFinished(cfg, w, w', t, op);
      }
    }
  }

  lemma KeptFinished(cfg: Config, w: World, w': World, t: nat, op: OpId)
    requires Inv(cfg, w) && Kept(w, op) && Inv(cfg, w') && Execute(cfg, w, w', t) && Held(w', op)
    requires Rely(w.sh, w.hist, w'.sh, w'.hist, MoverOf(Last(w.stacks[t])))
    requires w'.sh.slots[op.slot].seqno == op.seqno + 1
    ensures Kept(w', op)
  {
    assert OpHistory(w'.sh, w'.hist, op) && OpHistory(w.sh, w.hist, op);
    HeldBefore(cfg, w, w', t, op);
    BeganStays(cfg, w, w', op);
    HeldStable(cfg, w, w', t, op);
  }

  // The words an operation began with are on record for good.
  lemma BeganStays(cfg: Config, w: World, w': World, op: OpId)
    requires Inv(cfg, w) && Next(cfg, w, w')
    requires op in w'.hist.began
    ensures op in w.hist.began ==> w'.hist.began[op] == w.hist.began[op]
    ensures op !in w.hist.began ==> op.slot < |w'.sh.slots| && InStage(w', op, Claiming)
  {
    assert OpHistory(w.sh, w.hist, op);
    if op !in w.hist.began || w'.hist.began[op] != w.hist.began[op] {
      WhoBegan(cfg, w, w', op);
      var t :| Took(cfg, w, w', t, op, Began(w'.hist.began[op]));
      StartStepMeans(cfg, w, w', t, op, w'.hist.began[op]);
    }
  }

  lemma FirstMarkStep(cfg: Config, w: World, w': World, t: nat, a: Addr)
    requires AllInv(cfg, w) && OnTime(w) && Inv(cfg, w') && OrphanInv(w') && Execute(cfg, w, w', t)
    requires a < |w.sh.mem| && |w'.sh.mem| == |w.sh.mem|
    ensures FirstMark(w', a)
  {
    if w'.sh.mem[a] == w.sh.mem[a] {
      FirstMarkStays(cfg, w, w', t, a);
    } else {
      var f := Last(w.stacks[t]);
      assert MarkerHeld(w', a);
      hide Exec;
      hide Inv;
      hide OrphanInv;
      hide PromisesInv;
      hide AtomicInv;
      WriterHeld(cfg, w, w', t, a);
      WriteReads(cfg, w, w', f, a);
      WriteCommitsNothing(w.sh, f, cfg.k);
    }
  }

  lemma WriteCommitsNothing(sh: Shared, f: Frame, k: nat)
    requires InRange(sh, f, k) && !f.pc.ClaimHelping? && Exec(sh, f, k).sh.mem != sh.mem
    ensures Exec(sh, f, k).event != Commit
  {
  }

  lemma SwitchedOnceStep(cfg: Config, w: World, w': World, t: nat, op: OpId, x: nat)
    requires AllInv(cfg, w) && Inv(cfg, w') && Execute(cfg, w, w', t)
    ensures SwitchedOnce(w'.hist, op, x)
  {
    hide Exec;
    var f := Last(w.stacks[t]);
    var e := Exec(w.sh, f, cfg.k).event;
    assert SwitchedOnce(w.hist, op, x);
    if e == Switched(x) && OpOf(f) == op {
      SecondSwitch(cfg, w, w', t, op, x);
      CountsSwitch(w.hist, op, e, op, x);
    } else {
      CountsSwitch(w.hist, OpOf(f), e, op, x);
      if op in w.hist.began { BeganStays(cfg, w, w', op); }
    }
  }

  lemma CountsSwitch(h: History, p: OpId, e: Event, op: OpId, x: nat)
    ensures var h' := Record(h, p, e);
            && h'.switched[(op, x)] == h.switched[(op, x)] + (if e == Switched(x) && p == op then 1 else 0)
            && h.committed <= h'.committed && (e.Switched? ==> h'.began == h.began)
            && (op in h.began ==> op in h'.began)
  {
  }

  // A word that is switched again only compares.
  lemma SecondSwitch(cfg: Config, w: World, w': World, t: nat, op: OpId, x: nat)
    requires AllInv(cfg, w) && Took(cfg, w, w', t, op, Switched(x))
    ensures op in w.hist.committed
    ensures IsSwitched(w.hist, op, x) ==>
              op in w.hist.began && x < |w.hist.began[op]| && ComparesOnly(w.hist.began[op][x])
  {
    var f := Last(w.stacks[t]);
    FrameOfStep(cfg, w, w', t);
    SwitchingFrame(w.sh, f, cfg.k, x);
    assert StackHeld(w, w.stacks[t]) && FrameHeld(w, f);
    HeldAccepted(cfg, w, op);
    assert FirstMark(w, f.pc.a) && Kept(w, op);
    HomeIs(w.sh.slots[op.slot].words, x, f.pc.a);
  }

  lemma ExecuteAtomic(cfg: Config, w: World, w': World, t: nat)
    requires AllInv(cfg, w) && OnTime(w) && Inv(cfg, w') && OrphanInv(w') && Execute(cfg, w, w', t)
    ensures AtomicInv(w')
  {
    hide Inv;
    hide OrphanInv;
    hide PromisesInv;
    hide OnTime;
    hide Exec;
    assert |w'.sh.mem| == |w.sh.mem| by { StepFacts(cfg, w, w', t); }
    forall op ensures Kept(w', op) {
      assert Kept(w, op);
      KeptStep(cfg, w, w', t, op);
    }
    forall a | 0 <= a < |w'.sh.mem| ensures FirstMark(w', a) {
      FirstMarkStep(cfg, w, w', t, a);
    }
    forall op, x ensures SwitchedOnce(w'.hist, op, x) {
      SwitchedOnceStep(cfg, w, w', t, op, x);
    }
  }

  // A step that leaves shared state and history alone.
  lemma IdleAtomic(w: World, w': World)
    requires AtomicInv(w) && OrphanInv(w')
    requires w'.sh == w.sh && w'.hist == w.hist
    requires forall op :: Held(w', op) ==> Held(w, op)
    ensures AtomicInv(w')
  {
    forall op ensures Kept(w', op) {
      assert Kept(w, op);
    }
    forall a | 0 <= a < |w'.sh.mem| ensures FirstMark(w', a) {
      assert FirstMark(w, a) && MarkerHeld(w', a);
    }
  }

  lemma NextAtomic(cfg: Config, w: World, w': World)
    requires AllInv(cfg, w) && OnTime(w) && Inv(cfg, w') && OrphanInv(w') && Next(cfg, w, w')
    ensures AtomicInv(w')
  {
    if t: nat :| Execute(cfg, w, w', t) {
      ExecuteAtomic(cfg, w, w', t);
    } else {
      IdleAtomic(w, w');
    }
  }

  lemma FirstAtomic(cfg: Config, run: seq<World>)
    requires Run(cfg, run)
    ensures AtomicInv(run[0])
  {
  }

  lemma StepAtomic(cfg: Config, run: seq<World>, n: nat)
    requires cfg.stable && Run(cfg, run) && n + 1 < |run| && AllInv(cfg, run[n]) && OnTime(run[n])
    ensures AllInv(cfg, run[n + 1])
  {
    hide Inv;
    hide PromisesInv;
    hide OrphanInv;
    hide AtomicInv;
    hide OnTime;
    hide Next;
    RunInvariant(cfg, run, n + 1);
    RunPromises(cfg, run, n + 1);
    RunOrphans(cfg, run, n + 1);
    assert NextAt(cfg, run, n);
    NextAtomic(cfg, run[n], run[n + 1]);
  }

  // No claim of the run comes too late.
  ghost predicate Timely(cfg: Config, run: seq<World>) {
    cfg.stable && Run(cfg, run) && forall n :: 0 <= n < |run| ==> OnTime(run[n])
  }

  lemma {:induction false} TimelyAtomic(cfg: Config, run: seq<World>, n: nat)
    requires Timely(cfg, run) && n < |run|
    ensures AllInv(cfg, run[n]) && OnTime(run[n])
    decreases n
  {
    hide Inv;
    hide PromisesInv;
    hide OrphanInv;
    hide AtomicInv;
    hide OnTime;
    if n == 0 {
      RunInvariant(cfg, run, 0);
      RunPromises(cfg, run, 0);
      RunOrphans(cfg, run, 0);
      FirstAtomic(cfg, run);
    } else {
      TimelyAtomic(cfg, run, n - 1);
      StepAtomic(cfg, run, n - 1);
    }
  }

  // ------------------------------------------------- values that never shrink

  // No target of the committed operation reads below its desired value again.
  ghost predicate Settled(w: World, op: OpId) {
    Held(w, op) && op in w.hist.committed ==> AtLeastDesired(w.sh, w.sh.slots[op.slot].words)
  }

  ghost predicate AtLeastDesired(sh: Shared, words: seq<KWord>) {
    forall x :: 0 <= x < |words| ==> WordAtLeast(sh, words[x])
  }

  ghost predicate WordAtLeast(sh: Shared, word: KWord) {
    (word.target.Some? && word.target.value < |sh.mem|)
    ==> LogicalAt(sh, word.target.value) >= BitsOf(word.desired)
  }

  ghost predicate SettledInv(w: World) {
    forall op :: Settled(w, op)
  }

  // Then a late claim succeeds only on a word that compares.
  lemma ClaimerOnTime(cfg: Config, w: World, f: Frame)
    requires cfg.mono && AllInv(cfg, w) && SettledInv(w) && FrameInv(w.sh, w.hist, cfg.k, f) && FrameHeld(w, f)
    ensures ClaimOnTime(w, f)
  {
    if f.pc.ClaimCas? {
      var words := w.sh.slots[f.slot].words;
      HeldAccepted(cfg, w, OpOf(f));
      assert SlotShape(w.sh, cfg.k, f.slot);
      assert WordShape(words[f.pc.w], |w.sh.mem|);
      assert Settled(w, OpOf(f));
      assert OpOf(f) in w.hist.committed ==> WordAtLeast(w.sh, words[f.pc.w]);
    }
  }

  lemma SettledOnTime(cfg: Config, w: World)
    requires cfg.mono && AllInv(cfg, w) && SettledInv(w)
    ensures OnTime(w)
  {
    hide SettledInv;
    forall t | 0 <= t < |w.stacks| && w.stacks[t] != [] ensures ClaimOnTime(w, Last(w.stacks[t])) {
      assert FramesInv(w.sh, w.hist, cfg.k, w.stacks[t]) && StackHeld(w, w.stacks[t]);
      ClaimerOnTime(cfg, w, Last(w.stacks[t]));
    }
  }

  ghost predicate Rising(w: World, w': World) {
    && |w'.sh.mem| == |w.sh.mem|
    && forall a :: 0 <= a < |w.sh.mem| ==> LogicalAt(w'.sh, a) >= LogicalAt(w.sh, a)
  }

  lemma AtomicRises(cfg: Config, w: World, w': World, words: seq<KWord>)
    requires AtomicKcas(Logical(w.sh), Logical(w'.sh), words) && NonDecreasing(words)
    requires WordsShape(words, |words|, |w.sh.mem|)
    ensures Rising(w, w')
  {
    forall a | 0 <= a < |w.sh.mem| ensures LogicalAt(w'.sh, a) >= LogicalAt(w.sh, a) {
      var x := WordAt(words, a);
      assert Logical(w'.sh)[a] == LogicalAt(w'.sh, a) && Logical(w.sh)[a] == LogicalAt(w.sh, a);
      if x < |words| {
        assert WordShape(words[x], |w.sh.mem|);
        assert WordMatches(Logical(w.sh), words[x]) && WordSet(Logical(w'.sh), words[x]);
      }
    }
  }

  // Logical memory never decreases.
  lemma StepRises(cfg: Config, w: World, w': World, t: nat)
    requires cfg.mono && AllInv(cfg, w) && OnTime(w) && Inv(cfg, w') && OrphanInv(w') && Execute(cfg, w, w', t)
    ensures Rising(w, w')
  {
    StepFacts(cfg, w, w', t);
    var op, e := OpOf(Last(w.stacks[t])), Exec(w.sh, Last(w.stacks[t]), cfg.k).event;
    if e == Commit {
      assert Took(cfg, w, w', t, op, Commit);
      CommitMeans(cfg, w, w', t, op);
      CommitIsAtomic(cfg, w, w', t, op);
      HeldAccepted(cfg, w, op);
      assert SlotShape(w.sh, cfg.k, op.slot);
      AtomicRises(cfg, w, w', w.sh.slots[op.slot].words);
    } else {
      OtherStepsSilent(cfg, w, w', t);
      forall a | 0 <= a < |w.sh.mem| ensures LogicalAt(w'.sh, a) >= LogicalAt(w.sh, a) {
        assert Logical(w'.sh)[a] == Logical(w.sh)[a];
      }
    }
  }

  lemma SettledAtCommit(cfg: Config, w: World, w': World, t: nat, op: OpId)
    requires AllInv(cfg, w) && Took(cfg, w, w', t, op, Commit)
    ensures Settled(w', op)
  {
    CommitMeans(cfg, w, w', t, op);
    CommitChanges(cfg, w, w', t, op);
    var words := w'.sh.slots[op.slot].words;
    assert SlotShape(w.sh, cfg.k, op.slot);
    forall x | 0 <= x < |words| ensures WordAtLeast(w'.sh, words[x]) {
      CommitReads(cfg, w, w', t, op, x);
    }
  }

  lemma SettledStays(cfg: Config, w: World, w': World, t: nat, op: OpId)
    requires AllInv(cfg, w) && SettledInv(w) && Inv(cfg, w') && Execute(cfg, w, w', t) && Rising(w, w')
    requires op in w.hist.committed
    ensures Settled(w', op)
  {
    if Held(w', op) {
      StepFacts(cfg, w, w', t);
      assert OpHistory(w.sh, w.hist, op);
      HeldBefore(cfg, w, w', t, op);
      HeldStable(cfg, w, w', t, op);
      assert Settled(w, op);
      var words := w.sh.slots[op.slot].words;
      forall x | 0 <= x < |words| ensures WordAtLeast(w'.sh, words[x]) {
        assert WordAtLeast(w.sh, words[x]);
      }
    }
  }

  lemma SettledStep(cfg: Config, w: World, w': World, t: nat, op: OpId)
    requires AllInv(cfg, w) && SettledInv(w) && Inv(cfg, w') && Execute(cfg, w, w', t) && Rising(w, w')
    ensures Settled(w', op)
  {
    if op in w.hist.committed {
      SettledStays(cfg, w, w', t, op);
    } else if op in w'.hist.committed {
      var u := WhoCommitted(cfg, w, w', op);
      SettledAtCommit(cfg, w, w', u, op);
    }
  }

  lemma NextSettled(cfg: Config, w: World, w': World)
    requires cfg.mono && AllInv(cfg, w) && SettledInv(w) && Inv(cfg, w') && OrphanInv(w') && Next(cfg, w, w')
    ensures SettledInv(w')
  {
    hide AllInv;
    hide Inv;
    hide OrphanInv;
    hide Settled;
    hide OnTime;
    hide Rising;
    if t: nat :| Execute(cfg, w, w', t) {
      SettledOnTime(cfg, w);
      StepRises(cfg, w, w', t);
      forall op ensures Settled(w', op) {
        SettledStep(cfg, w, w', t, op);
      }
    } else {
      SameSettled(w, w');
    }
  }

  lemma SameSettled(w: World, w': World)
    requires SettledInv(w) && w'.sh == w.sh && w'.hist == w.hist
    requires forall op :: Held(w', op) ==> Held(w, op)
    ensures SettledInv(w')
  {
    forall op ensures Settled(w', op) {
      assert Settled(w, op);
    }
  }

  lemma FirstSettled(cfg: Config, run: seq<World>)
    requires Run(cfg, run)
    ensures SettledInv(run[0])
  {
  }

  lemma {:induction false} RunAtomic(cfg: Config, run: seq<World>, n: nat)
    requires cfg.stable && cfg.mono && Run(cfg, run) && n < |run|
    ensures AllInv(cfg, run[n]) && SettledInv(run[n]) && OnTime(run[n])
    decreases n
  {
    hide Inv;
    hide PromisesInv;
    hide OrphanInv;
    hide AtomicInv;
    hide SettledInv;
    hide OnTime;
    hide Next;
    if n == 0 {
      RunInvariant(cfg, run, 0);
      RunPromises(cfg, run, 0);
      RunOrphans(cfg, run, 0);
      FirstAtomic(cfg, run);
      FirstSettled(cfg, run);
    } else {
      RunAtomic(cfg, run, n - 1);
      StepAtomic(cfg, run, n - 1);
      assert NextAt(cfg, run, n - 1);
      NextSettled(cfg, run[n - 1], run[n]);
    }
    SettledOnTime(cfg, run[n]);
  }

  lemma NeverShrinkingIsTimely(cfg: Config, run: seq<World>)
    requires cfg.stable && cfg.mono && Run(cfg, run)
    ensures Timely(cfg, run)
  {
    forall n | 0 <= n < |run| ensures OnTime(run[n]) {
      RunAtomic(cfg, run, n);
    }
  }
}
