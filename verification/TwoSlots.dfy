// Two slots. A late claim of an owner may move logical memory when values recur, but
// only for a while and unseen: its operation is over, and the owner is about to undo
// it. Read so that such a marker still stands for the expected value, memory changes
// at commits only, whatever the values do. The first part shows that nobody commits
// while a helper is at work on a committed operation, the second that every step keeps
// the reading, provided that nobody sets a stale marker, and the third that nobody does.
module TwoSlots {
  import opened KcasTypes
  import opened StepMachine
  import opened ProtocolInvariant
  import opened CallerPromises
  import opened SafetyTheorems
  import opened NoOrphanMarkers
  import opened AtomicRefinement
  import opened HelpingClimbs
  import opened Linearizability
  import opened SequentialHistory
  import opened FewSlots

  // What holds in every state of every stable run.
  ghost predicate Base(cfg: Config, w: World) {
    && Inv(cfg, w) && PromisesInv(cfg, w) && OrphanInv(w) && ClimbInv(cfg, w)
    && forall op :: Kept(w, op)
  }

  // Only committed operations have switched words, and one that is over has switched
  // all of them.
  ghost predicate SwitchInv(cfg: Config, w: World) {
    && (forall op, x :: IsSwitched(w.hist, op, x) ==> op in w.hist.committed)
    && (forall op :: op in w.hist.committed && Finished(w.sh, op.slot, op.seqno) ==> AllSwitched(w.hist, op, cfg.k))
  }

  // ---------------------------------------------------- who helps whom

  // A frame that waits for help to operation `c` works on another operation, which
  // has not committed as long as `c` is claiming.
  ghost predicate PairOk(w: World, p: Frame, c: Frame) {
    OpOf(p) != OpOf(c) && (Live(w.sh, c, Claiming) ==> OpOf(p) !in w.hist.committed)
  }

  ghost predicate PairAt(w: World, stack: seq<Frame>, d: nat)
    requires d + 1 < |stack|
  {
    PairOk(w, stack[d], stack[d + 1])
  }

  ghost predicate StackPairs(w: World, stack: seq<Frame>) {
    forall d :: 0 <= d < |stack| - 1 ==> PairAt(w, stack, d)
  }

  ghost predicate Pairs(w: World) {
    forall t :: 0 <= t < |w.stacks| ==> StackPairs(w, w.stacks[t])
  }

  // The marker that made the parent ask for help keeps its operation from committing.
  lemma WaitingDoesNotCommit(cfg: Config, w: World, w': World, t: nat, u: nat, d: nat)
    requires Inv(cfg, w) && ClimbInv(cfg, w) && u < |w.stacks| && d + 1 < |w.stacks[u]|
    requires Live(w.sh, w.stacks[u][d + 1], Claiming) && OpOf(w.stacks[u][d]) != OpOf(w.stacks[u][d + 1])
    ensures !Took(cfg, w, w', t, OpOf(w.stacks[u][d]), Commit)
  {
    hide Inv;
    hide ClimbInv;
    hide Exec;
    var p, c := w.stacks[u][d], w.stacks[u][d + 1];
    if Took(cfg, w, w', t, OpOf(p), Commit) {
      CommitMeans(cfg, w, w', t, OpOf(p));
      WaitsBefore(cfg, w, u, d);
      OneMarker(w.sh, cfg.k, p, c);
    }
  }

  lemma OneMarker(sh: Shared, k: nat, p: Frame, c: Frame)
    requires p.slot < |sh.slots| && MarkedUpTo(sh, p.slot, k) && Current(sh, p)
    requires p.pc.ClaimHelping? && p.pc.w < k && p.pc.w < |sh.slots[p.slot].words|
    requires sh.slots[p.slot].words[p.pc.w].target == Some(p.pc.a)
    requires p.pc.a < |sh.mem| && sh.mem[p.pc.a] == MarkerOf(c)
    ensures OpOf(p) == OpOf(c)
  {
    assert Marked(sh, p.slot, p.pc.w);
  }

  lemma WaitsBefore(cfg: Config, w: World, u: nat, d: nat)
    requires Inv(cfg, w) && ClimbInv(cfg, w) && u < |w.stacks| && d + 1 < |w.stacks[u]|
    requires Live(w.sh, w.stacks[u][d + 1], Claiming) && Current(w.sh, w.stacks[u][d])
    ensures var p := w.stacks[u][d];
            && p.pc.ClaimHelping? && p.pc.w < cfg.k && p.pc.w < |w.sh.slots[p.slot].words|
            && w.sh.slots[p.slot].words[p.pc.w].target == Some(p.pc.a)
            && p.pc.a < |w.sh.mem| && w.sh.mem[p.pc.a] == MarkerOf(w.stacks[u][d + 1])
  {
    var stack := w.stacks[u];
    assert StackShape(stack, u) && FramesInv(w.sh, w.hist, cfg.k, stack) && Climbs(cfg, w.sh, stack);
    assert FrameInv(w.sh, w.hist, cfg.k, stack[d]) && LinkAt(cfg, w.sh, stack, d);
  }

  // A pair below the running frame stays one.
  lemma PairStays(cfg: Config, w: World, w': World, t: nat, u: nat, d: nat)
    requires Inv(cfg, w) && ClimbInv(cfg, w) && Execute(cfg, w, w', t)
    requires u < |w.stacks| && d + 1 < |w.stacks[u]| && PairAt(w, w.stacks[u], d)
    ensures PairOk(w', w.stacks[u][d], w.stacks[u][d + 1])
  {
    var p, c := w.stacks[u][d], w.stacks[u][d + 1];
    hide Exec;
    hide ClimbInv;
    StepFacts(cfg, w, w', t);
    if Live(w'.sh, c, Claiming) {
      HelperStarted(cfg, w, u, d + 1);
      LiveBefore(w.sh, w.hist, w'.sh, w'.hist, MoverOf(Last(w.stacks[t])), c);
      RecordNew(w.hist, OpOf(Last(w.stacks[t])), Exec(w.sh, Last(w.stacks[t]), cfg.k).event, OpOf(p), 0);
      WaitingDoesNotCommit(cfg, w, w', t, u, d);
    }
  }

  lemma HelperStarted(cfg: Config, w: World, u: nat, d: nat)
    requires Inv(cfg, w) && u < |w.stacks| && 0 < d < |w.stacks[u]|
    ensures Started(w.sh, w.stacks[u][d].slot, w.stacks[u][d].seqno) && !InitPc(w.stacks[u][d].pc)
    ensures !w.stacks[u][d].owner
  {
    assert FramesInv(w.sh, w.hist, cfg.k, w.stacks[u]) && StackShape(w.stacks[u], u);
    assert FrameInv(w.sh, w.hist, cfg.k, w.stacks[u][d]);
  }

  // Asking for help makes a new pair.
  lemma CallPairs(sh: Shared, h: History, k: nat, f: Frame)
    requires FrameInv(sh, h, k, f) && InRange(sh, f, k) && !f.pc.ClaimHelping? && Exec(sh, f, k).move.Call?
    ensures var o := Exec(sh, f, k);
            && Live(sh, f, Claiming) && o.event == Quiet
            && OpOf(o.move.frame) == OpOf(f) && OpOf(o.move.child) != OpOf(f)
  {
  }

  lemma RestackPairs(w: World, stack: seq<Frame>, m: Move)
    requires stack != [] && StackPairs(w, stack)
    requires (m.Goto? || m.Call?) && |stack| > 1 ==> OpOf(m.frame) == OpOf(Last(stack))
    requires m.Call? ==> PairOk(w, m.frame, m.child)
    ensures StackPairs(w, Restack(stack, m))
  {
    var next := Restack(stack, m);
    forall d | 0 <= d < |next| - 1 ensures PairAt(w, next, d) {
      if d + 1 < |stack| { assert PairAt(w, stack, d); }
    }
  }

  lemma PairsStep(cfg: Config, w: World, w': World, t: nat)
    requires Inv(cfg, w) && ClimbInv(cfg, w) && Pairs(w) && Execute(cfg, w, w', t)
    ensures Pairs(w')
  {
    hide Exec;
    hide ClimbInv;
    var stack, f := w.stacks[t], Last(w.stacks[t]);
    var m := Exec(w.sh, f, cfg.k).move;
    FrameOfStep(cfg, w, w', t);
    forall u | 0 <= u < |w.stacks| ensures StackPairs(w', w.stacks[u]) {
      forall d | 0 <= d < |w.stacks[u]| - 1 ensures PairAt(w', w.stacks[u], d) {
        assert StackPairs(w, w.stacks[u]) && PairAt(w, w.stacks[u], d);
        PairStays(cfg, w, w', t, u, d);
      }
    }
    ExecShape(w.sh, f, cfg.k);
    if |stack| > 1 { HelperStarted(cfg, w, t, |stack| - 1); }
    if m.Call? { NewPair(cfg, w, w', t); }
    RestackPairs(w', stack, m);
  }

  lemma NewPair(cfg: Config, w: World, w': World, t: nat)
    requires Inv(cfg, w) && Execute(cfg, w, w', t) && Exec(w.sh, Last(w.stacks[t]), cfg.k).move.Call?
    ensures var m := Exec(w.sh, Last(w.stacks[t]), cfg.k).move; PairOk(w', m.frame, m.child)
  {
    hide Exec;
    var f := Last(w.stacks[t]);
    FrameOfStep(cfg, w, w', t);
    CallPairs(w.sh, w.hist, cfg.k, f);
    assert SlotHistory(w.sh, w.hist, f.slot);
  }

  // -------------------------------------------------- helpers freeze commits

  // Slot `i` holds one descriptor.
  lemma HeldOnce(w: World, op: OpId, p: OpId)
    requires Held(w, op) && Held(w, p) && op.slot == p.slot
    ensures op == p
  {
  }

  ghost predicate HelperOf(w: World, u: nat, d: nat, op: OpId) {
    u < |w.stacks| && 0 < d < |w.stacks[u]| && AtWork(w.stacks[u][d]) && OpOf(w.stacks[u][d]) == op
  }

  // A parent is at work on a held descriptor.
  lemma ParentHeld(cfg: Config, w: World, u: nat, d: nat)
    requires Inv(cfg, w) && OrphanInv(w) && u < |w.stacks| && d + 1 < |w.stacks[u]|
    ensures Held(w, OpOf(w.stacks[u][d])) && (d == 0 ==> w.stacks[u][d].slot == u)
  {
    assert StackShape(w.stacks[u], u) && StackHeld(w, w.stacks[u]);
    assert FrameHeld(w, w.stacks[u][d]);
  }

  // The helper is on the stack of the operation's own thread: the help asked for at
  // its bottom is for the other slot's operation, which is then decided.
  lemma OwnSlotHelped(cfg: Config, w: World, u: nat, d: nat, op: OpId, r: OpId)
    requires Inv(cfg, w) && OrphanInv(w) && Pairs(w) && |w.stacks| == 2
    requires HelperOf(w, u, d, op) && op in w.hist.committed && op.slot == u
    requires Held(w, op) && Held(w, r) && r.slot != u
    ensures !InStage(w, r, Claiming)
  {
    hide Inv;
    hide OrphanInv;
    ParentHeld(cfg, w, u, 0);
    HeldOnce(w, OpOf(w.stacks[u][0]), op);
    assert StackPairs(w, w.stacks[u]) && PairAt(w, w.stacks[u], 0);
    ParentHeld(cfg, w, u, 1);
    var h := w.stacks[u][1];
    if h.slot == u { HeldOnce(w, OpOf(h), op); } else { HeldOnce(w, OpOf(h), r); }
  }

  // The helper's own call is the other operation: to commit it takes a helper whose
  // parent is at work on the committed one.
  lemma CommitterHelps(cfg: Config, w: World, t: nat, op: OpId, r: OpId)
    requires Inv(cfg, w) && OrphanInv(w) && Pairs(w) && t < 2 == |w.stacks| && |w.stacks[t]| > 1
    requires op in w.hist.committed && op.slot < 2 && r.slot < 2 && op.slot != r.slot
    requires Held(w, op) && InStage(w, r, Claiming) && Held(w, r)
    ensures OpOf(Last(w.stacks[t])) != r
  {
    hide Inv;
    hide OrphanInv;
    var top := |w.stacks[t]| - 1;
    var p := w.stacks[t][top - 1];
    ParentHeld(cfg, w, t, top - 1);
    assert StackPairs(w, w.stacks[t]) && PairAt(w, w.stacks[t], top - 1);
    if p.slot == op.slot { HeldOnce(w, OpOf(p), op); } else { HeldOnce(w, OpOf(p), r); }
  }

  // With two slots nobody commits while a helper is at work on a committed operation.
  lemma HelpersFreeze(cfg: Config, w: World, w': World, t: nat, u: nat, d: nat, op: OpId, r: OpId)
    requires Inv(cfg, w) && OrphanInv(w) && Pairs(w) && |w.stacks| == 2
    requires HelperOf(w, u, d, op) && op in w.hist.committed
    ensures !Took(cfg, w, w', t, r, Commit)
  {
    hide Inv;
    hide OrphanInv;
    hide Exec;
    if Took(cfg, w, w', t, r, Commit) {
      CommitMeans(cfg, w, w', t, r);
      CommittedHeld(cfg, w, u, d, op, r);
      BottomSlot(cfg, w, t);
      if op.slot == u {
        OwnSlotHelped(cfg, w, u, d, op, r);
      } else if |w.stacks[t]| > 1 {
        CommitterHelps(cfg, w, t, op, r);
      }
    }
  }

  lemma CommittedHeld(cfg: Config, w: World, u: nat, d: nat, op: OpId, r: OpId)
    requires Inv(cfg, w) && OrphanInv(w) && HelperOf(w, u, d, op) && op in w.hist.committed && InStage(w, r, Claiming)
    ensures Held(w, op) && Held(w, r) && op.slot != r.slot && |w.sh.slots| == |w.stacks|
    ensures r !in w.hist.committed
  {
    assert StackHeld(w, w.stacks[u]) && FrameHeld(w, w.stacks[u][d]);
    assert SlotHistory(w.sh, w.hist, r.slot);
  }

  lemma BottomSlot(cfg: Config, w: World, t: nat)
    requires Inv(cfg, w) && t < |w.stacks| && w.stacks[t] != []
    ensures w.stacks[t][0].slot == t
  {
    assert StackShape(w.stacks[t], t);
  }

  // ------------------------------------------------------- reading memory

  // What a user reads: the marker of a committed operation stands for the desired value
  // until the word is switched for the first time.
  ghost function ReadAt(w: World, a: Addr): nat
    requires a < |w.sh.mem|
  {
    match w.sh.mem[a]
    case Clean(v) => v
    case Illegal(_) => 0
    case Marker(i, s) =>
      if i >= |w.sh.slots| then 0
      else
        var words := w.sh.slots[i].words;
        var x := WordAt(words, a);
        if x == |words| then 0
        else if OpId(i, s) in w.hist.committed && !IsSwitched(w.hist, OpId(i, s), x) then BitsOf(words[x].desired)
        else BitsOf(words[x].expected)
  }

  ghost function Reading(w: World): (m: seq<nat>)
    ensures |m| == |w.sh.mem|
  {
    seq(|w.sh.mem|, a requires 0 <= a < |w.sh.mem| => ReadAt(w, a))
  }

  lemma HeldReads(w: World, op: OpId, x: nat, a: Addr)
    requires a < |w.sh.mem| && w.sh.mem[a] == Marker(op.slot, op.seqno) && op.slot < |w.sh.slots|
    requires DistinctTargets(w.sh.slots[op.slot].words) && x < |w.sh.slots[op.slot].words|
    requires w.sh.slots[op.slot].words[x].target == Some(a)
    ensures var word := w.sh.slots[op.slot].words[x];
            ReadAt(w, a) == BitsOf(if op in w.hist.committed && !IsSwitched(w.hist, op, x)
                                   then word.desired else word.expected)
  {
    HomeIs(w.sh.slots[op.slot].words, x, a);
  }

  // Word `x` of a committed operation has been switched unless it holds the marker and
  // the operation is in its set phase.
  lemma LateIsSwitched(cfg: Config, w: World, op: OpId, x: nat)
    requires Inv(cfg, w) && SwitchInv(cfg, w) && op in w.hist.committed && Held(w, op) && x < cfg.k
    requires InStage(w, op, Setting) ==> !Marked(w.sh, op.slot, x)
    ensures IsSwitched(w.hist, op, x)
  {
    assert SlotHistory(w.sh, w.hist, op.slot) && SlotMarks(w.sh, w.hist, cfg.k, op.slot);
  }

  // The running frame that writes word `a` works on a held descriptor with word `f.pc.w`
  // there.
  ghost predicate Writer(cfg: Config, w: World, w': World, t: nat, a: Addr) {
    && Base(cfg, w) && SwitchInv(cfg, w) && Execute(cfg, w, w', t)
    && a < |w.sh.mem| && |w'.sh.mem| == |w.sh.mem| && w'.sh.mem[a] != w.sh.mem[a]
    && Wrote(cfg, w, w', Last(w.stacks[t]), a) && FrameHeld(w, Last(w.stacks[t]))
    && DistinctTargets(w.sh.slots[Last(w.stacks[t]).slot].words)
    && |w.sh.slots[Last(w.stacks[t]).slot].words| == cfg.k
  }

  lemma TheWriter(cfg: Config, w: World, w': World, t: nat, a: Addr)
    requires Base(cfg, w) && SwitchInv(cfg, w) && Execute(cfg, w, w', t)
    requires a < |w.sh.mem| && |w'.sh.mem| == |w.sh.mem| && w'.sh.mem[a] != w.sh.mem[a]
    ensures Writer(cfg, w, w', t, a)
  {
    WriterHeld(cfg, w, w', t, a);
    assert Kept(w, OpOf(Last(w.stacks[t])));
    KeptAccepted(cfg, w, OpOf(Last(w.stacks[t])));
  }

  lemma ClaimQuiet(sh: Shared, f: Frame, k: nat)
    requires InRange(sh, f, k) && f.pc.ClaimCas? && f.pc.a < |sh.mem| && sh.mem[f.pc.a] == f.pc.e
    ensures Exec(sh, f, k).event == Quiet
  {
  }

  // A claim, however late, puts a marker where it reads as the value it replaces.
  lemma ClaimReadsSame(cfg: Config, w: World, w': World, t: nat, a: Addr)
    requires Writer(cfg, w, w', t, a) && Last(w.stacks[t]).pc.ClaimCas?
    ensures ReadAt(w', a) == ReadAt(w, a) && w'.hist == w.hist
  {
    hide Exec;
    var f := Last(w.stacks[t]);
    ClaimQuiet(w.sh, f, cfg.k);
    if OpOf(f) in w.hist.committed { LateIsSwitched(cfg, w, OpOf(f), f.pc.w); }
    hide Base;
    hide SwitchInv;
    HeldReads(w', OpOf(f), f.pc.w, a);
  }

  // So does a revert.
  lemma RevertReadsSame(cfg: Config, w: World, w': World, t: nat, a: Addr)
    requires Writer(cfg, w, w', t, a) && Last(w.stacks[t]).pc.RevertCas?
    ensures ReadAt(w', a) == ReadAt(w, a)
  {
    hide Exec;
    var f := Last(w.stacks[t]);
    if OpOf(f) in w.hist.committed {
      RevertsLate(cfg, w, f);
      LateIsSwitched(cfg, w, OpOf(f), f.pc.w);
    }
    hide Base;
    hide SwitchInv;
    HeldReads(w, OpOf(f), f.pc.w, a);
  }

  lemma RevertsLate(cfg: Config, w: World, f: Frame)
    requires FrameInv(w.sh, w.hist, cfg.k, f) && f.pc.RevertCas?
    ensures !InStage(w, OpOf(f), Setting)
  {
  }

  // --------------------------------------------------------- stale markers

  // The marker of a committed operation lies once more on a word switched already.
  ghost predicate StaleAt(w: World, a: Addr)
    requires a < |w.sh.mem|
  {
    && w.sh.mem[a].Marker? && w.sh.mem[a].slot < |w.sh.slots|
    && var op := OpId(w.sh.mem[a].slot, w.sh.mem[a].seqno);
       var words := w.sh.slots[op.slot].words;
       var x := WordAt(words, a);
       && op in w.hist.committed && x < |words| && IsSwitched(w.hist, op, x) && !ComparesOnly(words[x])
  }

  // Nobody is going to set the operation's words.
  ghost predicate NobodySets(w: World, op: OpId) {
    && !InStage(w, op, Setting)
    && (forall u, d :: !HelperOf(w, u, d, op))
    && (op.slot < |w.stacks| && w.stacks[op.slot] != [] ==> !SetPc(w.stacks[op.slot][0].pc))
  }

  ghost predicate StaleOk(w: World, a: Addr)
    requires a < |w.sh.mem|
  {
    StaleAt(w, a) ==> NobodySets(w, OpId(w.sh.mem[a].slot, w.sh.mem[a].seqno))
  }

  ghost predicate StaleInv(w: World) {
    forall a :: 0 <= a < |w.sh.mem| ==> StaleOk(w, a)
  }

  // A set frame finds no stale marker.
  lemma SetterFindsFresh(cfg: Config, w: World, w': World, t: nat, a: Addr)
    requires Writer(cfg, w, w', t, a) && Last(w.stacks[t]).pc.SetCas? && StaleOk(w, a)
    ensures !StaleAt(w, a)
  {
    var f := Last(w.stacks[t]);
    BottomSlot(cfg, w, t);
    if |w.stacks[t]| > 1 {
      assert HelperOf(w, t, |w.stacks[t]| - 1, OpOf(f));
    }
  }

  lemma SetReadsSame(cfg: Config, w: World, w': World, t: nat, a: Addr)
    requires Writer(cfg, w, w', t, a) && Last(w.stacks[t]).pc.SetCas? && StaleOk(w, a)
    ensures ReadAt(w', a) == ReadAt(w, a)
  {
    hide Exec;
    var f := Last(w.stacks[t]);
    SetterFindsFresh(cfg, w, w', t, a);
    hide Base;
    hide SwitchInv;
    HomeIs(w.sh.slots[f.slot].words, f.pc.w, a);
    HeldReads(w, OpOf(f), f.pc.w, a);
  }

  // ------------------------------------------------------ memory, step by step

  lemma WrittenReadsSame(cfg: Config, w: World, w': World, t: nat, a: Addr)
    requires Base(cfg, w) && SwitchInv(cfg, w) && StaleInv(w) && Execute(cfg, w, w', t)
    requires a < |w.sh.mem| && |w'.sh.mem| == |w.sh.mem| && w'.sh.mem[a] != w.sh.mem[a]
    ensures ReadAt(w', a) == ReadAt(w, a)
  {
    TheWriter(cfg, w, w', t, a);
    assert StaleOk(w, a);
    if Last(w.stacks[t]).pc.ClaimCas? {
      ClaimReadsSame(cfg, w, w', t, a);
    } else if Last(w.stacks[t]).pc.SetCas? {
      SetReadsSame(cfg, w, w', t, a);
    } else {
      RevertReadsSame(cfg, w, w', t, a);
    }
  }

  // A marker left in place keeps its descriptor, and its word is not switched.
  lemma MarkerKeeps(cfg: Config, w: World, w': World, t: nat, a: Addr, op: OpId)
    requires Base(cfg, w) && Inv(cfg, w') && Execute(cfg, w, w', t)
    requires a < |w.sh.mem| && |w'.sh.mem| == |w.sh.mem| && w'.sh.mem[a] == w.sh.mem[a]
    requires w.sh.mem[a] == Marker(op.slot, op.seqno)
    ensures op.slot < |w.sh.slots| && op.slot < |w'.sh.slots| && Held(w, op) && Held(w', op)
    ensures w'.sh.slots[op.slot].words == w.sh.slots[op.slot].words
    ensures Home(w, op.slot, a) < |w.sh.slots[op.slot].words|
    ensures IsSwitched(w'.hist, op, Home(w, op.slot, a)) <==> IsSwitched(w.hist, op, Home(w, op.slot, a))
  {
    hide Exec;
    assert MarkerHeld(w, a);
    StepFacts(cfg, w, w', t);
    HeldStable(cfg, w, w', t, op);
    var x, f := Home(w, op.slot, a), Last(w.stacks[t]);
    if IsSwitched(w'.hist, op, x) && !IsSwitched(w.hist, op, x) {
      RecordNew(w.hist, OpOf(f), Exec(w.sh, f, cfg.k).event, op, x);
      NewlySwitched(cfg, w, w', t, x, a);
    }
  }

  lemma NewlySwitched(cfg: Config, w: World, w': World, t: nat, x: nat, a: Addr)
    requires Inv(cfg, w) && OrphanInv(w) && Execute(cfg, w, w', t) && a < |w.sh.mem|
    requires Exec(w.sh, Last(w.stacks[t]), cfg.k).event == Switched(x)
    requires Last(w.stacks[t]).slot < |w.sh.slots| && x < |w.sh.slots[Last(w.stacks[t]).slot].words|
    requires w.sh.slots[Last(w.stacks[t]).slot].words[x].target == Some(a)
    ensures a < |w'.sh.mem| && w'.sh.mem[a].Clean?
  {
    hide Exec;
    var f := Last(w.stacks[t]);
    FrameOfStep(cfg, w, w', t);
    SwitchingFrame(w.sh, f, cfg.k, x);
    assert StackHeld(w, w.stacks[t]) && FrameHeld(w, f);
  }

  lemma UntouchedReadsSame(cfg: Config, w: World, w': World, t: nat, a: Addr)
    requires Base(cfg, w) && Inv(cfg, w') && Execute(cfg, w, w', t)
    requires a < |w.sh.mem| && |w'.sh.mem| == |w.sh.mem| && w'.sh.mem[a] == w.sh.mem[a]
    requires !CommittedHere(w, w', a)
    ensures ReadAt(w', a) == ReadAt(w, a)
  {
    hide Exec;
    if w.sh.mem[a].Marker? {
      var op := OpId(w.sh.mem[a].slot, w.sh.mem[a].seqno);
      MarkerKeeps(cfg, w, w', t, a, op);
      StepFacts(cfg, w, w', t);
    }
  }

  lemma StepReadsSame(cfg: Config, w: World, w': World, t: nat, a: Addr)
    requires Base(cfg, w) && SwitchInv(cfg, w) && StaleInv(w) && Inv(cfg, w') && Execute(cfg, w, w', t)
    requires a < |w.sh.mem| && |w'.sh.mem| == |w.sh.mem| && !CommittedHere(w, w', a)
    ensures ReadAt(w', a) == ReadAt(w, a)
  {
    if w'.sh.mem[a] == w.sh.mem[a] {
      UntouchedReadsSame(cfg, w, w', t, a);
    } else {
      WrittenReadsSame(cfg, w, w', t, a);
    }
  }

  lemma QuietReading(cfg: Config, w: World, w': World, t: nat)
    requires Base(cfg, w) && SwitchInv(cfg, w) && StaleInv(w) && Inv(cfg, w') && Execute(cfg, w, w', t)
    requires w'.hist.committed == w.hist.committed
    ensures Reading(w') == Reading(w)
  {
    hide Exec;
    hide ReadAt;
    StepFacts(cfg, w, w', t);
    forall a | 0 <= a < |w.sh.mem| ensures ReadAt(w', a) == ReadAt(w, a) {
      StepReadsSame(cfg, w, w', t, a);
    }
  }

  // At the commit every target reads its expected value before the step and its
  // desired value after it.
  lemma CommitReadings(cfg: Config, w: World, w': World, t: nat, op: OpId, x: nat)
    requires Base(cfg, w) && SwitchInv(cfg, w) && Took(cfg, w, w', t, op, Commit) && x < cfg.k
    ensures op.slot < |w.sh.slots| && w'.sh == StoreStage(w.sh, op.slot, Setting, op.seqno)
    ensures |w.sh.slots[op.slot].words| == cfg.k
    ensures WordMatches(Reading(w), w.sh.slots[op.slot].words[x])
    ensures WordSet(Reading(w'), w.sh.slots[op.slot].words[x])
  {
    CommitMeans(cfg, w, w', t, op);
    CommitChanges(cfg, w, w', t, op);
    assert Marked(w.sh, op.slot, x);
    assert SlotShape(w.sh, cfg.k, op.slot) && SlotHistory(w.sh, w.hist, op.slot);
    RecordNew(w.hist, op, Commit, op, x);
    hide Base;
    var a := w.sh.slots[op.slot].words[x].target.value;
    HeldReads(w, op, x, a);
    HeldReads(w', op, x, a);
  }

  lemma CommitReading(cfg: Config, w: World, w': World, t: nat, op: OpId)
    requires Base(cfg, w) && SwitchInv(cfg, w) && StaleInv(w) && Inv(cfg, w') && Took(cfg, w, w', t, op, Commit)
    ensures op.slot < |w.sh.slots|
    ensures AtomicKcas(Reading(w), Reading(w'), w.sh.slots[op.slot].words)
  {
    CommitMeans(cfg, w, w', t, op);
    CommitChanges(cfg, w, w', t, op);
    var words := w.sh.slots[op.slot].words;
    assert SlotShape(w.sh, cfg.k, op.slot);
    forall x | 0 <= x < |words| ensures WordMatches(Reading(w), words[x]) && WordSet(Reading(w'), words[x]) {
      CommitReadings(cfg, w, w', t, op, x);
    }
    forall a | 0 <= a < |w.sh.mem| && WordAt(words, a) == |words| ensures Reading(w')[a] == Reading(w)[a] {
      CommitSparesReading(cfg, w, w', t, op, a);
    }
  }

  lemma CommitSparesReading(cfg: Config, w: World, w': World, t: nat, op: OpId, a: Addr)
    requires Base(cfg, w) && SwitchInv(cfg, w) && StaleInv(w) && Inv(cfg, w') && Took(cfg, w, w', t, op, Commit)
    requires a < |w.sh.mem| && |w'.sh.mem| == |w.sh.mem|
    requires op.slot < |w.sh.slots| && WordAt(w.sh.slots[op.slot].words, a) == |w.sh.slots[op.slot].words|
    ensures ReadAt(w', a) == ReadAt(w, a)
  {
    hide Exec;
    CommitMeans(cfg, w, w', t, op);
    assert SlotMarks(w.sh, w.hist, cfg.k, op.slot);
    assert w'.hist.committed == w.hist.committed + {op};
    hide Inv;
    hide Base;
    hide SwitchInv;
    hide StaleInv;
    StepReadsSame(cfg, w, w', t, a);
  }

  // ------------------------------------------------ what the claimers rely on

  ghost predicate WordReads(w: World, word: KWord) {
    word.target.Some? && word.target.value < |w.sh.mem| ==> ReadAt(w, word.target.value) == BitsOf(word.desired)
  }

  // The targets of the operation read their desired values.
  ghost predicate AllRead(w: World, op: OpId) {
    op.slot < |w.sh.slots|
    && forall x :: 0 <= x < |w.sh.slots[op.slot].words| ==> WordReads(w, w.sh.slots[op.slot].words[x])
  }

  predicate Early(pc: Pc) {
    Claims(pc) || pc.DecideSetting? || pc.DecideReverting?
  }

  ghost predicate Helping(w: World, op: OpId) {
    exists u, d :: HelperOf(w, u, d, op)
  }

  ghost predicate ClaimerReads(w: World, f: Frame) {
    Claims(f.pc) && OpOf(f) in w.hist.committed ==> AllRead(w, OpOf(f))
  }

  // As long as a helper claims for a committed operation.
  ghost predicate ClaimersRead(w: World) {
    forall u, d :: 0 <= u < |w.stacks| && 0 < d < |w.stacks[u]| ==> ClaimerReads(w, w.stacks[u][d])
  }

  // As long as its owner claims and it is being set, or helped by anyone.
  ghost predicate OwnerReads(w: World, u: nat) {
    u < |w.stacks| && w.stacks[u] != [] && Claims(w.stacks[u][0].pc) && OpOf(w.stacks[u][0]) in w.hist.committed
    && (InStage(w, OpOf(w.stacks[u][0]), Setting) || Helping(w, OpOf(w.stacks[u][0])))
    ==> AllRead(w, OpOf(w.stacks[u][0]))
  }

  // An operation that is being set before its owner knows is being helped.
  ghost predicate OwnerHelped(w: World, u: nat) {
    u < |w.stacks| && w.stacks[u] != [] && Early(w.stacks[u][0].pc) && InStage(w, OpOf(w.stacks[u][0]), Setting)
    ==> Helping(w, OpOf(w.stacks[u][0]))
  }

  ghost predicate OwnersInv(w: World) {
    forall u :: 0 <= u < |w.stacks| ==> OwnerReads(w, u) && OwnerHelped(w, u)
  }

  ghost predicate TwoInv(cfg: Config, w: World) {
    && |w.stacks| == 2 && Base(cfg, w) && SwitchInv(cfg, w) && Pairs(w)
    && StaleInv(w) && ClaimersRead(w) && OwnersInv(w)
  }

  // --------------------------------------------- back to the state before

  // A committed operation in its set phase was there before the step.
  lemma WasSetting(cfg: Config, w: World, w': World, t: nat, op: OpId)
    requires Inv(cfg, w) && Inv(cfg, w') && Execute(cfg, w, w', t)
    requires op in w.hist.committed && InStage(w', op, Setting)
    ensures InStage(w, op, Setting)
  {
    hide Exec;
    StepFacts(cfg, w, w', t);
    assert SlotRely(w.sh, w'.sh, op.slot, MoverOf(Last(w.stacks[t])));
    assert SlotHistory(w.sh, w.hist, op.slot) && OpHistory(w.sh, w.hist, op);
  }

  lemma HelpStarts(sh: Shared, h: History, k: nat, f: Frame)
    requires FrameInv(sh, h, k, f) && InRange(sh, f, k) && !f.pc.ClaimHelping? && !f.owner
    ensures var m := Exec(sh, f, k).move;
            (m.Goto? || m.Call?) && AtWork(m.frame) ==>
              && OpOf(m.frame) == OpOf(f)
              && (AtWork(f) || Live(sh, f, Claiming) || Live(sh, f, Setting) || Live(sh, f, Reverting))
    ensures Exec(sh, f, k).move.Call? ==> Exec(sh, f, k).move.child.pc == HelpLoad
  {
  }

  // A helper at work on a committed operation was at work before the step, or came
  // while it was being set.
  lemma WasHelping(cfg: Config, w: World, w': World, t: nat, op: OpId)
    requires Inv(cfg, w) && Inv(cfg, w') && Execute(cfg, w, w', t) && op in w.hist.committed && Helping(w', op)
    ensures Helping(w, op) || InStage(w, op, Setting)
  {
    hide Exec;
    var u: nat, d: nat :| HelperOf(w', u, d, op);
    if u == t {
      HelperCame(cfg, w, w', t, d, op);
    } else {
      assert HelperOf(w, u, d, op);
    }
  }

  lemma HelperCame(cfg: Config, w: World, w': World, t: nat, d: nat, op: OpId)
    requires Inv(cfg, w) && Execute(cfg, w, w', t) && op in w.hist.committed && HelperOf(w', t, d, op)
    ensures Helping(w, op) || InStage(w, op, Setting)
  {
    hide Exec;
    hide Restack;
    var stack, f := w.stacks[t], Last(w.stacks[t]);
    FrameOfStep(cfg, w, w', t);
    RestackAt(stack, t, Exec(w.sh, f, cfg.k).move, d);
    if !f.owner { HelpStarts(w.sh, w.hist, cfg.k, f); }
    if |stack| > 1 { HelperStarted(cfg, w, t, |stack| - 1); }
    OneFrameCalls(w.sh, w.hist, cfg.k, f);
    if d < |stack| {
      assert AtWork(stack[d]) && OpOf(stack[d]) == op ==> HelperOf(w, t, d, op);
      if !AtWork(stack[d]) { assert SlotHistory(w.sh, w.hist, op.slot); }
    }
  }

  lemma OneFrameCalls(sh: Shared, h: History, k: nat, f: Frame)
    requires InRange(sh, f, k) && !f.pc.ClaimHelping?
    ensures Exec(sh, f, k).move.Call? ==> Exec(sh, f, k).move.child.pc == HelpLoad
  {
  }

  // The frame an owner goes on with.
  lemma OwnerMoves(sh: Shared, h: History, k: nat, f: Frame)
    requires FrameInv(sh, h, k, f) && InRange(sh, f, k) && !f.pc.ClaimHelping? && f.owner
    ensures var o := Exec(sh, f, k);
            (o.move.Goto? || o.move.Call?) ==>
              && (Claims(o.move.frame.pc) ==> o.event.Began? || (Claims(f.pc) && OpOf(o.move.frame) == OpOf(f)))
              && (Early(o.move.frame.pc) ==>
                    o.event.Began? || (Early(f.pc) && OpOf(o.move.frame) == OpOf(f) && o.event != Commit))
              && (SetPc(o.move.frame.pc) ==> SetPc(f.pc) || Live(sh, f, Setting) || Live(sh, f, Claiming))
  {
  }

  // A frame at the bottom of a stack that is early after the step was so before it,
  // unless its operation has just begun.
  lemma OwnerBefore(cfg: Config, w: World, w': World, t: nat, u: nat)
    requires Inv(cfg, w) && Inv(cfg, w') && Execute(cfg, w, w', t)
    requires u < |w'.stacks| && w'.stacks[u] != [] && Early(w'.stacks[u][0].pc)
    requires OpOf(w'.stacks[u][0]) in w'.hist.committed
    ensures w.stacks[u] != [] && OpOf(w.stacks[u][0]) == OpOf(w'.stacks[u][0]) && Early(w.stacks[u][0].pc)
    ensures Claims(w'.stacks[u][0].pc) ==> Claims(w.stacks[u][0].pc)
    ensures u == t && |w.stacks[t]| == 1 ==> Exec(w.sh, Last(w.stacks[t]), cfg.k).event != Commit
  {
    hide Exec;
    if u == t {
      var f := Last(w.stacks[t]);
      FrameOfStep(cfg, w, w', t);
      if |w.stacks[t]| == 1 {
        OwnerMoves(w.sh, w.hist, cfg.k, f);
        if Exec(w.sh, f, cfg.k).event.Began? { BegunFresh(cfg, w, w', t); }
      } else {
        KeepsOwner(w.stacks[t], Exec(w.sh, f, cfg.k).move, t);
      }
    }
  }

  // ------------------------------------------------- the invariant, per step

  // Once nobody sets a committed operation any more, nobody ever will.
  lemma NobodySetsStays(cfg: Config, w: World, w': World, t: nat, op: OpId)
    requires Inv(cfg, w) && Inv(cfg, w') && Execute(cfg, w, w', t)
    requires op in w.hist.committed && Held(w, op) && NobodySets(w, op)
    ensures NobodySets(w', op)
  {
    hide Exec;
    if InStage(w', op, Setting) { WasSetting(cfg, w, w', t, op); }
    if u: nat, d: nat :| HelperOf(w', u, d, op) {
      WasHelping(cfg, w, w', t, op);
    }
    if op.slot < |w'.stacks| && w'.stacks[op.slot] != [] && op.slot == t {
      BottomSetter(cfg, w, w', t, op);
    }
  }

  lemma BottomSetter(cfg: Config, w: World, w': World, t: nat, op: OpId)
    requires Inv(cfg, w) && Execute(cfg, w, w', t) && w'.stacks[t] != []
    requires op in w.hist.committed && Held(w, op) && NobodySets(w, op) && op.slot == t
    ensures !SetPc(w'.stacks[t][0].pc)
  {
    hide Exec;
    var stack, f := w.stacks[t], Last(w.stacks[t]);
    FrameOfStep(cfg, w, w', t);
    if |stack| == 1 {
      OwnerMoves(w.sh, w.hist, cfg.k, f);
      assert SlotHistory(w.sh, w.hist, t);
      if InitPc(f.pc) { InitNeverSets(w.sh, f, cfg.k); }
    } else {
      RestackAt(stack, t, Exec(w.sh, f, cfg.k).move, 0);
      BottomPc(stack, t, Exec(w.sh, f, cfg.k).move);
    }
  }

  lemma InitNeverSets(sh: Shared, f: Frame, k: nat)
    requires InRange(sh, f, k) && InitPc(f.pc)
    ensures var m := Exec(sh, f, k).move; m.Goto? && !SetPc(m.frame.pc)
  {
  }

  lemma BottomPc(stack: seq<Frame>, t: nat, m: Move)
    requires |stack| > 1 && StackShape(stack, t)
    ensures Restack(stack, m) != [] && !SetPc(Restack(stack, m)[0].pc)
  {
  }

  // A claim that succeeds on a word of a committed operation meets a value other than
  // the desired one, unless the word only compares.
  lemma LateClaimUnread(cfg: Config, w: World, w': World, t: nat, a: Addr)
    requires Writer(cfg, w, w', t, a) && Last(w.stacks[t]).pc.ClaimCas?
    requires AllRead(w, OpOf(Last(w.stacks[t])))
    ensures ComparesOnly(w.sh.slots[Last(w.stacks[t]).slot].words[Last(w.stacks[t]).pc.w])
  {
    hide Exec;
    var f := Last(w.stacks[t]);
    var word := w.sh.slots[f.slot].words[f.pc.w];
    assert WordReads(w, word);
    DescriptorClean(cfg, w, f);
    assert word.desired.Clean?;
  }

  // A stale marker is left by an owner whom nobody helps any more.
  lemma StalePlaced(cfg: Config, w: World, w': World, t: nat, a: Addr)
    requires TwoInv(cfg, w) && Inv(cfg, w') && Writer(cfg, w, w', t, a)
    ensures StaleOk(w', a)
  {
    hide Exec;
    hide AllRead;
    hide SwitchInv;
    hide Pairs;
    hide StaleInv;
    hide NobodySets;
    var f := Last(w.stacks[t]);
    if StaleAt(w', a) {
      assert f.pc.ClaimCas? by { hide TwoInv; }
      ClaimQuiet(w.sh, f, cfg.k);
      HomeIs(w.sh.slots[f.slot].words, f.pc.w, a);
      BottomSlot(cfg, w, t);
      if |w.stacks[t]| > 1 {
        assert ClaimerReads(w, w.stacks[t][|w.stacks[t]| - 1]);
        LateClaimUnread(cfg, w, w', t, a);
      } else {
        assert OwnerReads(w, t);
        if InStage(w, OpOf(f), Setting) || Helping(w, OpOf(f)) {
          LateClaimUnread(cfg, w, w', t, a);
        } else {
          OwnerLeaves(cfg, w, w', t);
        }
      }
    }
  }

  lemma OwnerLeaves(cfg: Config, w: World, w': World, t: nat)
    requires Inv(cfg, w) && Execute(cfg, w, w', t) && |w.stacks[t]| == 1 && w.stacks[t][0].slot == t
    requires w.stacks[t][0].pc.ClaimCas? && w'.sh.slots == w.sh.slots
    requires w.sh.mem[w.stacks[t][0].pc.a] == w.stacks[t][0].pc.e
    requires !InStage(w, OpOf(w.stacks[t][0]), Setting) && !Helping(w, OpOf(w.stacks[t][0]))
    ensures NobodySets(w', OpOf(w.stacks[t][0]))
  {
    var op := OpOf(w.stacks[t][0]);
    assert |w'.stacks[t]| == 1 && !SetPc(w'.stacks[t][0].pc);
    forall u, d ensures !HelperOf(w', u, d, op) {
      assert !HelperOf(w, u, d, op);
    }
  }

  lemma StaleStep(cfg: Config, w: World, w': World, t: nat, a: Addr)
    requires TwoInv(cfg, w) && Inv(cfg, w') && Execute(cfg, w, w', t)
    requires a < |w.sh.mem| && |w'.sh.mem| == |w.sh.mem|
    ensures StaleOk(w', a)
  {
    hide Exec;
    hide NobodySets;
    if w'.sh.mem[a] != w.sh.mem[a] {
      TheWriter(cfg, w, w', t, a);
      StalePlaced(cfg, w, w', t, a);
    } else if StaleAt(w', a) {
      var op := OpId(w.sh.mem[a].slot, w.sh.mem[a].seqno);
      MarkerKeeps(cfg, w, w', t, a, op);
      assert StaleOk(w, a);
      NobodySetsStays(cfg, w, w', t, op);
    }
  }

  // ------------------------------------------------------ readings that stay

  lemma AllReadStays(cfg: Config, w: World, w': World, t: nat, op: OpId)
    requires TwoInv(cfg, w) && Inv(cfg, w') && Execute(cfg, w, w', t)
    requires AllRead(w, op) && Held(w, op) && w'.hist.committed == w.hist.committed
    ensures AllRead(w', op)
  {
    hide Exec;
    hide ReadAt;
    QuietReading(cfg, w, w', t);
    StepFacts(cfg, w, w', t);
    HeldStable(cfg, w, w', t, op);
    var words := w.sh.slots[op.slot].words;
    forall x | 0 <= x < |words| ensures WordReads(w', words[x]) {
      assert WordReads(w, words[x]);
      if words[x].target.Some? && words[x].target.value < |w.sh.mem| {
        assert Reading(w')[words[x].target.value] == Reading(w)[words[x].target.value];
      }
    }
  }

  lemma AllReadAtCommit(cfg: Config, w: World, w': World, t: nat, op: OpId)
    requires TwoInv(cfg, w) && Took(cfg, w, w', t, op, Commit)
    ensures AllRead(w', op)
  {
    hide ReadAt;
    CommitMeans(cfg, w, w', t, op);
    CommitChanges(cfg, w, w', t, op);
    var words := w'.sh.slots[op.slot].words;
    assert SlotShape(w.sh, cfg.k, op.slot);
    forall x | 0 <= x < |words| ensures WordReads(w', words[x]) {
      CommitReadings(cfg, w, w', t, op, x);
    }
  }

  // The operation has just committed, or is helped and so nobody commits.
  lemma StillAllRead(cfg: Config, w: World, w': World, t: nat, op: OpId)
    requires TwoInv(cfg, w) && Inv(cfg, w') && Execute(cfg, w, w', t) && op in w'.hist.committed
    requires op in w.hist.committed ==> AllRead(w, op) && Helping(w, op)
    ensures AllRead(w', op)
  {
    hide Exec;
    hide AllRead;
    if op in w.hist.committed {
      var u: nat, d: nat :| HelperOf(w, u, d, op);
      HelpersFreeze(cfg, w, w', t, u, d, op, OpOf(Last(w.stacks[t])));
      CommitsNothing(cfg, w, w', t);
      assert StackHeld(w, w.stacks[u]) && FrameHeld(w, w.stacks[u][d]);
      AllReadStays(cfg, w, w', t, op);
    } else {
      var v := WhoCommitted(cfg, w, w', op);
      AllReadAtCommit(cfg, w, w', v, op);
    }
  }

  lemma ClaimersStep(cfg: Config, w: World, w': World, t: nat, u: nat, d: nat)
    requires TwoInv(cfg, w) && Inv(cfg, w') && Execute(cfg, w, w', t)
    requires u < |w'.stacks| && 0 < d < |w'.stacks[u]|
    ensures ClaimerReads(w', w'.stacks[u][d])
  {
    hide Exec;
    hide AllRead;
    hide Restack;
    hide Inv;
    hide OrphanInv;
    hide PromisesInv;
    hide ClimbInv;
    hide Kept;
    hide SwitchInv;
    hide Pairs;
    hide StaleInv;
    hide OwnersInv;
    var f := w'.stacks[u][d];
    if Claims(f.pc) && OpOf(f) in w'.hist.committed {
      HelperBefore(cfg, w, w', t, u, d);
      hide Base;
      assert ClaimerReads(w, w.stacks[u][d]) && HelperOf(w, u, d, OpOf(f));
      StillAllRead(cfg, w, w', t, OpOf(f));
    }
  }

  lemma OwnerReadsStep(cfg: Config, w: World, w': World, t: nat, u: nat)
    requires TwoInv(cfg, w) && Inv(cfg, w') && Execute(cfg, w, w', t) && u < |w'.stacks|
    ensures OwnerReads(w', u)
  {
    hide Exec;
    hide AllRead;
    if w'.stacks[u] != [] && Claims(w'.stacks[u][0].pc) && OpOf(w'.stacks[u][0]) in w'.hist.committed {
      var op := OpOf(w'.stacks[u][0]);
      OwnerBefore(cfg, w, w', t, u);
      assert OwnerReads(w, u) && OwnerHelped(w, u);
      if InStage(w', op, Setting) || Helping(w', op) {
        if op in w.hist.committed {
          if InStage(w', op, Setting) { WasSetting(cfg, w, w', t, op); } else { WasHelping(cfg, w, w', t, op); }
        }
        StillAllRead(cfg, w, w', t, op);
      }
    }
  }

  // While the operation is being set none of its helpers leaves.
  lemma HelperLeavesLate(sh: Shared, h: History, k: nat, f: Frame)
    requires FrameInv(sh, h, k, f) && InRange(sh, f, k) && AtWork(f) && !f.owner && !f.pc.ClaimHelping?
    requires Live(sh, f, Setting) && Exec(sh, f, k).move.Return?
    ensures f.slot < |Exec(sh, f, k).sh.slots| && Exec(sh, f, k).sh.slots[f.slot].stage != Setting
  {
  }

  lemma HelperStays(cfg: Config, w: World, w': World, t: nat, op: OpId)
    requires Inv(cfg, w) && Inv(cfg, w') && Execute(cfg, w, w', t)
    requires InStage(w, op, Setting) && InStage(w', op, Setting) && Helping(w, op)
    ensures Helping(w', op)
  {
    hide Exec;
    hide Inv;
    hide Restack;
    var u: nat, d: nat :| HelperOf(w, u, d, op);
    var m := Exec(w.sh, Last(w.stacks[t]), cfg.k).move;
    if u != t {
      assert HelperOf(w', u, d, op);
    } else if d < |w.stacks[t]| - 1 {
      assert Regular(m) by { StepFacts(cfg, w, w', t); }
      StaysAtWork(w.stacks[t], m, d);
      assert HelperOf(w', t, d, op);
    } else {
      TopStaysAtWork(cfg, w, w', t, op);
    }
  }

  lemma TopStaysAtWork(cfg: Config, w: World, w': World, t: nat, op: OpId)
    requires Inv(cfg, w) && Execute(cfg, w, w', t) && HelperOf(w, t, |w.stacks[t]| - 1, op)
    requires InStage(w, op, Setting) && InStage(w', op, Setting)
    ensures Helping(w', op)
  {
    hide Exec;
    hide Inv;
    var f := Last(w.stacks[t]);
    FrameOfStep(cfg, w, w', t);
    HelperStarted(cfg, w, t, |w.stacks[t]| - 1);
    SameOp(w.sh, f, cfg.k);
    if Exec(w.sh, f, cfg.k).move.Return? { HelperLeavesLate(w.sh, w.hist, cfg.k, f); }
    assert HelperOf(w', t, |w.stacks[t]| - 1, op);
  }

  lemma StaysAtWork(stack: seq<Frame>, m: Move, d: nat)
    requires stack != [] && d < |stack| - 1 && AtWork(stack[d]) && Regular(m)
    ensures d < |Restack(stack, m)| && AtWork(Restack(stack, m)[d]) && OpOf(Restack(stack, m)[d]) == OpOf(stack[d])
  {
  }

  lemma OwnerHelpedStep(cfg: Config, w: World, w': World, t: nat, u: nat)
    requires TwoInv(cfg, w) && Inv(cfg, w') && Execute(cfg, w, w', t) && u < |w'.stacks|
    ensures OwnerHelped(w', u)
  {
    hide Exec;
    if w'.stacks[u] != [] && Early(w'.stacks[u][0].pc) && InStage(w', OpOf(w'.stacks[u][0]), Setting) {
      var op := OpOf(w'.stacks[u][0]);
      assert SlotHistory(w'.sh, w'.hist, op.slot);
      OwnerBefore(cfg, w, w', t, u);
      assert OwnerHelped(w, u);
      if op in w.hist.committed {
        WasSetting(cfg, w, w', t, op);
        HelperStays(cfg, w, w', t, op);
      } else {
        CommitterHelpsOn(cfg, w, w', t, u, op);
      }
    }
  }

  lemma CommitFrame(sh: Shared, f: Frame, k: nat)
    requires InRange(sh, f, k) && !f.pc.ClaimHelping? && Exec(sh, f, k).event == Commit
    ensures var m := Exec(sh, f, k).move; m.Goto? && OpOf(m.frame) == OpOf(f) && AtWork(m.frame)
  {
  }

  // Whoever commits an operation while its owner is early is a helper, and goes on.
  lemma CommitterHelpsOn(cfg: Config, w: World, w': World, t: nat, u: nat, op: OpId)
    requires Inv(cfg, w) && Inv(cfg, w') && Execute(cfg, w, w', t) && CommitsIn(w, w', op)
    requires u < |w.stacks| && w.stacks[u] != [] && op == OpOf(w.stacks[u][0])
    requires u == t && |w.stacks[t]| == 1 ==> Exec(w.sh, Last(w.stacks[t]), cfg.k).event != Commit
    ensures Helping(w', op)
  {
    hide Exec;
    var f := Last(w.stacks[t]);
    RecordNew(w.hist, OpOf(f), Exec(w.sh, f, cfg.k).event, op, 0);
    CommitFrame(w.sh, f, cfg.k);
    BottomSlot(cfg, w, t);
    BottomSlot(cfg, w, u);
    assert |w.stacks[t]| > 1;
    assert HelperOf(w', t, |w.stacks[t]| - 1, op);
  }

  // ------------------------------------------------------------- the run

  lemma SwitchStaysIn(cfg: Config, w: World, w': World, op: OpId, x: nat)
    requires Inv(cfg, w) && Next(cfg, w, w') && IsSwitched(w'.hist, op, x)
    requires IsSwitched(w.hist, op, x) ==> op in w.hist.committed
    ensures op in w'.hist.committed
  {
    hide Exec;
    var mover := NextRely(cfg, w, w');
    if !IsSwitched(w.hist, op, x) {
      var t := WhoMoved(cfg, w, w');
      var f := Last(w.stacks[t]);
      FrameOfStep(cfg, w, w', t);
      RecordNew(w.hist, OpOf(f), Exec(w.sh, f, cfg.k).event, op, x);
      SwitchingFrame(w.sh, f, cfg.k, x);
    }
  }

  lemma {:induction false} SwitchedCommitted(cfg: Config, run: seq<World>, n: nat, op: OpId, x: nat)
    requires Run(cfg, run) && n < |run| && IsSwitched(run[n].hist, op, x)
    ensures op in run[n].hist.committed
    decreases n
  {
    hide Inv;
    hide Next;
    if n == 0 {
      NothingSwitched(cfg, run, op, x);
    } else {
      if IsSwitched(run[n - 1].hist, op, x) { SwitchedCommitted(cfg, run, n - 1, op, x); }
      RunStep(cfg, run, n - 1);
      SwitchStaysIn(cfg, run[n - 1], run[n], op, x);
    }
  }

  lemma NothingSwitched(cfg: Config, run: seq<World>, op: OpId, x: nat)
    requires Run(cfg, run)
    ensures !IsSwitched(run[0].hist, op, x)
  {
  }

  lemma FinishedSwitched(cfg: Config, run: seq<World>, n: nat, op: OpId)
    requires Run(cfg, run) && n < |run| && op in run[n].hist.committed && Finished(run[n].sh, op.slot, op.seqno)
    ensures AllSwitched(run[n].hist, op, cfg.k)
  {
    var m := CommitOf(cfg, run, n, op);
    var j := Rises(seq(|run|, j requires 0 <= j < |run| => !InStage(run[j], op, Setting)), m + 1, n);
    AllSwitchedOnLeaving(cfg, run, j, op);
    forall x | 0 <= x < cfg.k ensures IsSwitched(run[n].hist, op, x) {
      assert IsSwitched(run[j].hist, op, x);
      StaysSwitched(cfg, run, j, n, op, x);
    }
  }

  lemma RunSwitches(cfg: Config, run: seq<World>, n: nat)
    requires Run(cfg, run) && n < |run|
    ensures SwitchInv(cfg, run[n])
  {
    forall op, x | IsSwitched(run[n].hist, op, x) ensures op in run[n].hist.committed {
      SwitchedCommitted(cfg, run, n, op, x);
    }
    forall op | op in run[n].hist.committed && Finished(run[n].sh, op.slot, op.seqno)
      ensures AllSwitched(run[n].hist, op, cfg.k)
    {
      FinishedSwitched(cfg, run, n, op);
    }
  }

  lemma {:induction false} RunKept(cfg: Config, run: seq<World>, n: nat, op: OpId)
    requires Run(cfg, run) && n < |run|
    ensures Kept(run[n], op)
    decreases n
  {
    hide Inv;
    hide Next;
    hide Kept;
    if n == 0 {
      FirstKept(cfg, run, op);
    } else {
      RunKept(cfg, run, n - 1, op);
      RunStep(cfg, run, n - 1);
      NextKept(cfg, run[n - 1], run[n], op);
    }
  }

  lemma FirstKept(cfg: Config, run: seq<World>, op: OpId)
    requires Run(cfg, run)
    ensures Kept(run[0], op)
  {
  }

  lemma NextKept(cfg: Config, w: World, w': World, op: OpId)
    requires Inv(cfg, w) && Inv(cfg, w') && Next(cfg, w, w') && Kept(w, op)
    ensures Kept(w', op)
  {
    hide Inv;
    hide Exec;
    if t: nat :| Execute(cfg, w, w', t) {
      KeptStep(cfg, w, w', t, op);
    }
  }

  lemma RunBase(cfg: Config, run: seq<World>, n: nat)
    requires cfg.stable && Run(cfg, run) && n < |run|
    ensures Base(cfg, run[n]) && SwitchInv(cfg, run[n])
  {
    hide Inv;
    hide PromisesInv;
    hide OrphanInv;
    hide ClimbInv;
    hide SwitchInv;
    RunInvariant(cfg, run, n);
    RunPromises(cfg, run, n);
    RunOrphans(cfg, run, n);
    RunClimbs(cfg, run, n);
    RunSwitches(cfg, run, n);
    forall op ensures Kept(run[n], op) { RunKept(cfg, run, n, op); }
  }

  // Shared state and history are as before, and so is every stack, but for a call that
  // begins.
  ghost predicate Idle(w: World, w': World) {
    && w'.sh == w.sh && w'.hist == w.hist && |w'.stacks| == |w.stacks|
    && forall u :: 0 <= u < |w.stacks| ==>
         w'.stacks[u] == w.stacks[u]
         || (w.stacks[u] == [] && |w'.stacks[u]| == 1 && InitPc(w'.stacks[u][0].pc))
  }

  lemma IdlePairs(w: World, w': World, u: nat)
    requires Idle(w, w') && u < |w.stacks| && StackPairs(w, w.stacks[u])
    ensures StackPairs(w', w'.stacks[u])
  {
    forall d | 0 <= d < |w'.stacks[u]| - 1 ensures PairAt(w', w'.stacks[u], d) {
      assert PairAt(w, w.stacks[u], d);
    }
  }

  lemma IdleHelping(w: World, w': World, op: OpId)
    requires Idle(w, w')
    ensures Helping(w', op) <==> Helping(w, op)
  {
    if u: nat, d: nat :| HelperOf(w', u, d, op) { assert HelperOf(w, u, d, op); }
    if u: nat, d: nat :| HelperOf(w, u, d, op) { assert HelperOf(w', u, d, op); }
  }

  lemma IdleOwner(w: World, w': World, u: nat)
    requires Idle(w, w') && u < |w.stacks| && OwnerReads(w, u) && OwnerHelped(w, u)
    ensures OwnerReads(w', u) && OwnerHelped(w', u)
  {
    if w'.stacks[u] != [] { IdleHelping(w, w', OpOf(w'.stacks[u][0])); }
  }

  lemma IdleStale(w: World, w': World, a: Addr)
    requires Idle(w, w') && a < |w.sh.mem| && StaleOk(w, a)
    ensures StaleOk(w', a)
  {
    if StaleAt(w', a) {
      var op := OpId(w.sh.mem[a].slot, w.sh.mem[a].seqno);
      IdleHelping(w, w', op);
      forall u, d ensures !HelperOf(w', u, d, op) {
        assert HelperOf(w', u, d, op) ==> Helping(w', op);
      }
    }
  }

  lemma OtherSteps(cfg: Config, w: World, w': World)
    requires Next(cfg, w, w') && forall t: nat :: !Execute(cfg, w, w', t)
    ensures Idle(w, w')
  {
  }

  // A step that is no atomic action of the protocol.
  lemma IdleTwo(w: World, w': World)
    requires Pairs(w) && StaleInv(w) && ClaimersRead(w) && OwnersInv(w) && Idle(w, w')
    ensures Pairs(w') && StaleInv(w') && ClaimersRead(w') && OwnersInv(w')
  {
    hide StaleOk;
    hide OwnerReads;
    hide OwnerHelped;
    hide StackPairs;
    forall u | 0 <= u < |w'.stacks|
      ensures StackPairs(w', w'.stacks[u]) && OwnerReads(w', u) && OwnerHelped(w', u)
    {
      assert StackPairs(w, w.stacks[u]) && OwnerReads(w, u) && OwnerHelped(w, u);
      IdlePairs(w, w', u);
      IdleOwner(w, w', u);
    }
    forall u, d | 0 <= u < |w'.stacks| && 0 < d < |w'.stacks[u]| ensures ClaimerReads(w', w'.stacks[u][d]) {
      assert ClaimerReads(w, w.stacks[u][d]);
    }
    forall a | 0 <= a < |w'.sh.mem| ensures StaleOk(w', a) {
      assert StaleOk(w, a);
      IdleStale(w, w', a);
    }
  }

  lemma ExecuteTwo(cfg: Config, w: World, w': World, t: nat)
    requires TwoInv(cfg, w) && Inv(cfg, w') && Execute(cfg, w, w', t)
    ensures Pairs(w') && StaleInv(w') && ClaimersRead(w') && OwnersInv(w')
  {
    hide Exec;
    hide StaleOk;
    hide ClaimerReads;
    hide OwnerReads;
    hide OwnerHelped;
    hide Pairs;
    assert |w'.sh.mem| == |w.sh.mem| by { StepFacts(cfg, w, w', t); }
    PairsStep(cfg, w, w', t);
    forall a | 0 <= a < |w'.sh.mem| ensures StaleOk(w', a) { StaleStep(cfg, w, w', t, a); }
    forall u, d | 0 <= u < |w'.stacks| && 0 < d < |w'.stacks[u]| ensures ClaimerReads(w', w'.stacks[u][d]) {
      ClaimersStep(cfg, w, w', t, u, d);
    }
    forall u | 0 <= u < |w'.stacks| ensures OwnerReads(w', u) && OwnerHelped(w', u) {
      OwnerReadsStep(cfg, w, w', t, u);
      OwnerHelpedStep(cfg, w, w', t, u);
    }
  }

  lemma FirstTwoInv(cfg: Config, run: seq<World>)
    requires Run(cfg, run)
    ensures Pairs(run[0]) && StaleInv(run[0]) && ClaimersRead(run[0]) && OwnersInv(run[0])
  {
  }

  lemma {:induction false} RunTwoInv(cfg: Config, run: seq<World>, n: nat)
    requires cfg.stable && Run(cfg, run) && |run[0].stacks| == 2 && n < |run|
    ensures TwoInv(cfg, run[n])
    decreases n
  {
    hide Base;
    hide SwitchInv;
    hide Pairs;
    hide StaleInv;
    hide ClaimersRead;
    hide OwnersInv;
    hide Inv;
    hide Next;
    RunBase(cfg, run, n);
    StacksStay(cfg, run, n);
    if n == 0 {
      FirstTwoInv(cfg, run);
    } else {
      RunTwoInv(cfg, run, n - 1);
      RunInvariant(cfg, run, n);
      assert NextAt(cfg, run, n - 1);
      NextTwo(cfg, run[n - 1], run[n]);
    }
  }

  lemma NextTwo(cfg: Config, w: World, w': World)
    requires TwoInv(cfg, w) && Inv(cfg, w') && Next(cfg, w, w')
    ensures Pairs(w') && StaleInv(w') && ClaimersRead(w') && OwnersInv(w')
  {
    hide Base;
    hide SwitchInv;
    hide Pairs;
    hide StaleInv;
    hide ClaimersRead;
    hide OwnersInv;
    if t: nat :| Execute(cfg, w, w', t) {
      ExecuteTwo(cfg, w, w', t);
    } else {
      OtherSteps(cfg, w, w');
      IdleTwo(w, w');
    }
  }

  // ------------------------------------------------------------ the theorem

  ghost function ReadingView(run: seq<World>): (view: View)
    ensures |view| == |run| && forall n :: 0 <= n < |run| ==> view[n] == Reading(run[n])
  {
    seq(|run|, n requires 0 <= n < |run| => Reading(run[n]))
  }

  // With two slots every run that keeps `stable`, whatever its values do, refines the
  // atomic object when memory is read so.
  lemma TwoSlotsRefine(cfg: Config, run: seq<World>)
    requires cfg.stable && Run(cfg, run) && |run[0].stacks| == 2
    ensures RefinesAs(run, ReadingView(run))
  {
    hide Reading;
    forall n | 0 <= n < |run| - 1 ensures StepRefines(run, ReadingView(run), n) {
      forall op | CommitsAt(run, n, op)
        ensures AtomicKcas(Reading(run[n]), Reading(run[n + 1]), WordsOf(run[n], op))
      {
        TwoSlotsCommit(cfg, run, n, op);
      }
      if forall op :: !CommitsAt(run, n, op) {
        TwoSlotsSilence(cfg, run, n);
      }
    }
  }

  lemma TwoSlotsCommit(cfg: Config, run: seq<World>, n: nat, op: OpId)
    requires cfg.stable && Run(cfg, run) && |run[0].stacks| == 2 && CommitsAt(run, n, op)
    ensures AtomicKcas(Reading(run[n]), Reading(run[n + 1]), WordsOf(run[n], op))
  {
    hide Base;
    hide SwitchInv;
    hide StaleInv;
    RunTwoInv(cfg, run, n);
    RunStep(cfg, run, n);
    LiveWords(cfg, run, n, op);
    CommitIsNew(cfg, run, n, op);
    var t := WhoCommitted(cfg, run[n], run[n + 1], op);
    CommitReading(cfg, run[n], run[n + 1], t, op);
  }

  lemma TwoSlotsSilence(cfg: Config, run: seq<World>, n: nat)
    requires cfg.stable && Run(cfg, run) && |run[0].stacks| == 2 && n + 1 < |run|
    requires forall op :: !CommitsAt(run, n, op)
    ensures Reading(run[n + 1]) == Reading(run[n])
  {
    hide Base;
    hide SwitchInv;
    hide StaleInv;
    RunTwoInv(cfg, run, n);
    RunStep(cfg, run, n);
    if run[n + 1].sh != run[n].sh || run[n + 1].hist != run[n].hist {
      var t := WhoMoved(cfg, run[n], run[n + 1]);
      NobodyCommits(cfg, run, n, t);
      QuietReading(cfg, run[n], run[n + 1], t);
    } else {
      SameReadings(run[n], run[n + 1]);
    }
  }

  lemma SameReadings(w: World, w': World)
    requires w'.sh == w.sh && w'.hist == w.hist
    ensures Reading(w') == Reading(w)
  {
    forall a | 0 <= a < |w.sh.mem| ensures ReadAt(w', a) == ReadAt(w, a) {}
  }

  // A memory without markers reads the same either way.
  lemma CleanReading(w: World)
    requires forall a :: 0 <= a < |w.sh.mem| ==> w.sh.mem[a].Clean?
    ensures Reading(w) == Logical(w.sh)
  {
    forall a | 0 <= a < |w.sh.mem| ensures Reading(w)[a] == Logical(w.sh)[a] {
      assert ReadAt(w, a) == LogicalAt(w.sh, a);
    }
  }

  // So an order of the successful calls explains every quiet run.
  lemma TwoSlotsExplained(cfg: Config, run: seq<World>)
    requires cfg.stable && Run(cfg, run) && |run[0].stacks| == 2 && AllReturned(Last(run))
    ensures Explainable(run)
  {
    TwoSlotsRefine(cfg, run);
    QuietMemoryIsClean(cfg, run, |run| - 1);
    CleanReading(run[0]);
    CleanReading(Last(run));
    ViewedRunExplained(cfg, run, ReadingView(run));
  }
}
