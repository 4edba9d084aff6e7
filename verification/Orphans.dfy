// No orphan markers. When a slot starts an operation only once no helper is at
// work on its previous one, every marker left in memory lies in a word that
// some thread in flight is still bound to clean up. A frame at work then works on a
// descriptor still held by its operation, and what it has loaded is what that
// descriptor says.
module NoOrphanMarkers {
  import opened KcasTypes
  import opened StepMachine
  import opened ProtocolInvariant
  import opened SafetyTheorems

  // Slot `op.slot` still holds the descriptor of `op`: the operation is live,
  // or it is the slot's latest one and no later call has begun.
  ghost predicate Held(w: World, op: OpId) {
    && op.slot < |w.sh.slots| && op.slot < |w.stacks|
    && var slot := w.sh.slots[op.slot];
    || (slot.seqno == op.seqno && slot.stage != Inactive)
    || (slot.seqno == op.seqno + 1 && slot.stage == Inactive && w.stacks[op.slot] == [])
  }

  // The word of `op` whose target is `a`; |words| if there is none.
  function Home(w: World, i: nat, a: Addr): nat
    requires i < |w.sh.slots|
  {
    WordAt(w.sh.slots[i].words, a)
  }

  // What a frame has loaded is what the descriptor says.
  ghost predicate Faithful(f: Frame, words: seq<KWord>) {
    match f.pc
    case ClaimLoadExpected(w, a) => w < |words| && words[w].target == Some(a)
    case ClaimCas(w, a, e) => w < |words| && words[w].target == Some(a) && words[w].expected == e
    case ClaimVerify(w, a, e, _) => w < |words| && words[w].target == Some(a) && words[w].expected == e
    case ClaimHelping(w, a, e) => w < |words| && words[w].target == Some(a) && words[w].expected == e
    case SetLoadDesired(w, a) => w < |words| && words[w].target == Some(a)
    case SetCas(w, a, d) => w < |words| && words[w].target == Some(a) && words[w].desired == d
    case RevertLoadExpected(w, a, _) => w < |words| && words[w].target == Some(a)
    case RevertCas(w, a, e, _) => w < |words| && words[w].target == Some(a) && words[w].expected == e
    case _ => true
  }

  // Frames that have not read the slot's stage yet do not count as at work.
  predicate AtWork(f: Frame) {
    !InitPc(f.pc) && !f.pc.HelpLoad?
  }

  ghost predicate FrameHeld(w: World, f: Frame) {
    AtWork(f) ==> Held(w, OpOf(f)) && Faithful(f, w.sh.slots[f.slot].words)
  }

  // `f` will visit word `x` again, or a revert pass of all words, before it ends.
  ghost predicate Bound(f: Frame, op: OpId, x: nat) {
    && OpOf(f) == op
    && match f.pc
       case ClaimLoadTarget(w) => x < w
       case ClaimLoadExpected(w, _) => x < w
       case ClaimCas(w, _, _) => x < w
       case ClaimVerify(w, _, _, _) => x < w
       case ClaimHelping(w, _, _) => x < w
       case DecideSetting => true
       case DecideReverting(w) => x < w
       case SetLoadTarget(w) => w <= x
       case SetLoadDesired(w, _) => w <= x
       case SetCas(w, _, _) => w <= x
       case SetVerify(w) => w < x
       case RevertLoadTarget(w, _) => x <= w
       case RevertLoadExpected(w, _, _) => x <= w
       case RevertCas(w, _, _, _) => x <= w
       case _ => false
  }

  ghost predicate BoundAt(stacks: seq<seq<Frame>>, t: nat, d: nat, op: OpId, x: nat) {
    t < |stacks| && d < |stacks[t]| && Bound(stacks[t][d], op, x)
  }

  ghost predicate SomeoneBound(stacks: seq<seq<Frame>>, op: OpId, x: nat) {
    exists t, d :: BoundAt(stacks, t, d, op, x)
  }

  // A committed operation has not switched its word `x` yet.
  ghost predicate Pending(w: World, op: OpId, x: nat) {
    && op.slot < |w.sh.slots|
    && w.sh.slots[op.slot].seqno == op.seqno && w.sh.slots[op.slot].stage == Setting
    && !IsSwitched(w.hist, op, x)
  }

  ghost predicate MarkerHeld(w: World, a: Addr)
    requires a < |w.sh.mem|
  {
    w.sh.mem[a].Marker? ==>
      && var op := OpId(w.sh.mem[a].slot, w.sh.mem[a].seqno);
      && Held(w, op)
      && Home(w, op.slot, a) < |w.sh.slots[op.slot].words|
      && (Pending(w, op, Home(w, op.slot, a)) || SomeoneBound(w.stacks, op, Home(w, op.slot, a)))
  }

  ghost predicate StackHeld(w: World, stack: seq<Frame>) {
    forall d :: 0 <= d < |stack| ==> FrameHeld(w, stack[d])
  }

  ghost predicate OrphanInv(w: World) {
    && (forall a :: 0 <= a < |w.sh.mem| ==> MarkerHeld(w, a))
    && (forall t :: 0 <= t < |w.stacks| ==> StackHeld(w, w.stacks[t]))
  }

  // -------------------------------------------------------- descriptor life

  // A step of some thread leaves every held descriptor as it is.
  lemma HeldStable(cfg: Config, w: World, w': World, t: nat, op: OpId)
    requires Inv(cfg, w) && Execute(cfg, w, w', t) && Held(w, op)
    requires Rely(w.sh, w.hist, w'.sh, w'.hist, MoverOf(Last(w.stacks[t])))
    requires StacksInv(cfg, w')
    ensures Held(w', op)
    ensures w'.sh.slots[op.slot].words == w.sh.slots[op.slot].words
  {
    var f := Last(w.stacks[t]);
    assert StackShape(w.stacks[t], t) && FramesInv(w.sh, w.hist, cfg.k, w.stacks[t]);
    assert SlotRely(w.sh, w'.sh, op.slot, MoverOf(f));
    if op.slot == MoverOf(f) {
      assert |w.stacks[t]| == 1 && op.slot == t;
      OwnerStep(w.sh, w.hist, cfg.k, f);
    }
  }

  // The owner of a live operation leaves the descriptor alone and resets the
  // slot only as it returns.
  lemma OwnerStep(sh: Shared, h: History, k: nat, f: Frame)
    requires FrameInv(sh, h, k, f) && InRange(sh, f, k) && !f.pc.ClaimHelping?
    requires f.owner && sh.slots[f.slot].stage != Inactive
    ensures var o := Exec(sh, f, k);
            && |o.sh.slots| == |sh.slots| && o.sh.slots[f.slot].words == sh.slots[f.slot].words
            && ((o.sh.slots[f.slot].seqno == sh.slots[f.slot].seqno && o.sh.slots[f.slot].stage != Inactive)
                || (o.sh.slots[f.slot].seqno == sh.slots[f.slot].seqno + 1
                    && o.sh.slots[f.slot].stage == Inactive && o.move.Return?))
  {
  }

  // ---------------------------------------------------------- the next frame

  lemma NextFaithful(sh: Shared, k: nat, f: Frame)
    requires InRange(sh, f, k) && !f.pc.ClaimHelping?
    requires AtWork(f) ==> Faithful(f, sh.slots[f.slot].words)
    ensures var o := Exec(sh, f, k);
            ((o.move.Goto? || o.move.Call?) && AtWork(o.move.frame))
            ==> Faithful(o.move.frame, sh.slots[f.slot].words)
  {
    if ClaimPc(f.pc) {
      NextFaithfulClaim(sh, k, f);
    } else if !AtWork(f) {
      NextFaithfulFresh(sh, k, f);
    }
  }

  lemma NextFaithfulClaim(sh: Shared, k: nat, f: Frame)
    requires InRange(sh, f, k) && ClaimPc(f.pc) && !f.pc.ClaimHelping?
    requires Faithful(f, sh.slots[f.slot].words)
    ensures var o := Exec(sh, f, k);
            ((o.move.Goto? || o.move.Call?) && AtWork(o.move.frame))
            ==> Faithful(o.move.frame, sh.slots[f.slot].words)
  {
  }

  lemma NextFaithfulFresh(sh: Shared, k: nat, f: Frame)
    requires InRange(sh, f, k) && !AtWork(f)
    ensures var o := Exec(sh, f, k);
            ((o.move.Goto? || o.move.Call?) && AtWork(o.move.frame))
            ==> Faithful(o.move.frame, sh.slots[f.slot].words)
  {
  }

  // A bound frame stays bound until the marker is gone from the word.
  lemma BoundStep(sh: Shared, f: Frame, k: nat, x: nat)
    requires InRange(sh, f, k) && !f.pc.ClaimHelping?
    requires Faithful(f, sh.slots[f.slot].words) && Bound(f, OpOf(f), x) && x < k
    requires forall y :: 0 <= y < k ==>
               sh.slots[f.slot].words[y].target.Some?
               && sh.slots[f.slot].words[y].expected.Clean? && sh.slots[f.slot].words[y].desired.Clean?
    requires var a := sh.slots[f.slot].words[x].target.value;
             && a < |sh.mem| && |Exec(sh, f, k).sh.mem| == |sh.mem|
             && Exec(sh, f, k).sh.mem[a] == MarkerOf(f)
    ensures var m := Exec(sh, f, k).move;
            (m.Goto? || m.Call?) && (m.frame.pc.Fail? || Bound(m.frame, OpOf(f), x))
  {
  }

  // A frame that starts work does so on a live operation.
  lemma StartsWork(sh: Shared, h: History, k: nat, f: Frame)
    requires FrameInv(sh, h, k, f) && InRange(sh, f, k) && !f.pc.ClaimHelping? && !AtWork(f)
    requires |Exec(sh, f, k).sh.slots| == |sh.slots|
    ensures var o := Exec(sh, f, k);
            o.move.Goto? && AtWork(o.move.frame)
            ==> Current(o.sh, o.move.frame) && o.sh.slots[f.slot].stage != Inactive && o.move.frame.slot == f.slot
    ensures !Exec(sh, f, k).move.Call?
  {
  }

  // -------------------------------------------------------------- one step

  lemma OthersHeld(cfg: Config, w: World, w': World, t: nat, g: Frame)
    requires Inv(cfg, w) && Inv(cfg, w') && Execute(cfg, w, w', t)
    requires Rely(w.sh, w.hist, w'.sh, w'.hist, MoverOf(Last(w.stacks[t])))
    requires FrameHeld(w, g)
    ensures FrameHeld(w', g)
  {
    if AtWork(g) {
      HeldStable(cfg, w, w', t, OpOf(g));
    }
  }

  lemma RunnerHeld(cfg: Config, w: World, w': World, t: nat)
    requires Inv(cfg, w) && Inv(cfg, w') && Execute(cfg, w, w', t)
    requires Rely(w.sh, w.hist, w'.sh, w'.hist, MoverOf(Last(w.stacks[t])))
    requires FrameInv(w.sh, w.hist, cfg.k, Last(w.stacks[t])) && FrameHeld(w, Last(w.stacks[t]))
    ensures var m := Exec(w.sh, Last(w.stacks[t]), cfg.k).move;
            m.Goto? || m.Call? ==> FrameHeld(w', m.frame)
  {
    if AtWork(Last(w.stacks[t])) {
      BusyHeld(cfg, w, w', t);
    } else {
      FreshHeld(cfg, w, w', t);
    }
  }

  lemma BusyHeld(cfg: Config, w: World, w': World, t: nat)
    requires Inv(cfg, w) && SharedInv(w.sh, w.hist, cfg.k) && StacksInv(cfg, w') && Execute(cfg, w, w', t)
    requires Rely(w.sh, w.hist, w'.sh, w'.hist, MoverOf(Last(w.stacks[t])))
    requires FrameInv(w.sh, w.hist, cfg.k, Last(w.stacks[t])) && FrameHeld(w, Last(w.stacks[t]))
    requires AtWork(Last(w.stacks[t]))
    ensures var m := Exec(w.sh, Last(w.stacks[t]), cfg.k).move;
            m.Goto? || m.Call? ==> FrameHeld(w', m.frame)
  {
    hide Exec;
    hide Inv;
    hide SharedInv;
    hide StacksInv;
    hide Faithful;
    var f := Last(w.stacks[t]);
    HeldStable(cfg, w, w', t, OpOf(f));
    NextFaithful(w.sh, cfg.k, f);
    SameOp(w.sh, f, cfg.k);
  }

  lemma FreshHeld(cfg: Config, w: World, w': World, t: nat)
    requires SharedInv(w.sh, w.hist, cfg.k) && StacksInv(cfg, w) && StacksInv(cfg, w') && Execute(cfg, w, w', t)
    requires Rely(w.sh, w.hist, w'.sh, w'.hist, MoverOf(Last(w.stacks[t])))
    requires FrameInv(w.sh, w.hist, cfg.k, Last(w.stacks[t])) && !AtWork(Last(w.stacks[t]))
    ensures var m := Exec(w.sh, Last(w.stacks[t]), cfg.k).move;
            m.Goto? || m.Call? ==> FrameHeld(w', m.frame)
  {
    hide Exec;
    hide SharedInv;
    hide Faithful;
    var f := Last(w.stacks[t]);
    StartsWork(w.sh, w.hist, cfg.k, f);
    NextFaithful(w.sh, cfg.k, f);
    FreshFaithful(w.sh, f, cfg.k);
  }

  lemma SameOp(sh: Shared, f: Frame, k: nat)
    requires InRange(sh, f, k) && AtWork(f) && !f.pc.ClaimHelping?
    ensures var m := Exec(sh, f, k).move;
            && (m.Goto? || m.Call? ==> OpOf(m.frame) == OpOf(f) && AtWork(m.frame))
            && (m.Call? ==> m.child.pc == HelpLoad)
  {
  }

  lemma FreshFaithful(sh: Shared, f: Frame, k: nat)
    requires InRange(sh, f, k) && !AtWork(f)
    ensures Exec(sh, f, k).move.Goto?
            ==> !AtWork(Exec(sh, f, k).move.frame)
                || forall words :: Faithful(Exec(sh, f, k).move.frame, words)
  {
  }

  // What the world-level argument needs from a step.
  ghost predicate Regular(m: Move) {
    (m.Call? ==> m.child.pc == HelpLoad) && (m.Return? ==> !m.result.Failed?)
  }

  lemma StepFacts(cfg: Config, w: World, w': World, t: nat)
    requires Inv(cfg, w) && Execute(cfg, w, w', t)
    ensures Inv(cfg, w') && FrameInv(w.sh, w.hist, cfg.k, Last(w.stacks[t]))
    ensures Rely(w.sh, w.hist, w'.sh, w'.hist, MoverOf(Last(w.stacks[t])))
    ensures Regular(Exec(w.sh, Last(w.stacks[t]), cfg.k).move)
  {
    ExecuteInvariant(cfg, w, w', t);
    FrameOfStep(cfg, w, w', t);
  }

  lemma StackStaysHeld(cfg: Config, w: World, w': World, t: nat, stack: seq<Frame>)
    requires Inv(cfg, w) && Inv(cfg, w') && Execute(cfg, w, w', t)
    requires Rely(w.sh, w.hist, w'.sh, w'.hist, MoverOf(Last(w.stacks[t])))
    requires StackHeld(w, stack)
    ensures StackHeld(w', stack)
  {
    forall d | 0 <= d < |stack| ensures FrameHeld(w', stack[d]) {
      OthersHeld(cfg, w, w', t, stack[d]);
    }
  }

  lemma StacksHeld(cfg: Config, w: World, w': World, t: nat)
    requires Inv(cfg, w) && Execute(cfg, w, w', t) && OrphanInv(w)
    ensures forall u :: 0 <= u < |w'.stacks| ==> StackHeld(w', w'.stacks[u])
  {
    StepFacts(cfg, w, w', t);
    var stack := w.stacks[t];
    assert StackHeld(w, stack);
    assert FrameHeld(w, Last(stack));
    RunnerHeld(cfg, w, w', t);
    StackStaysHeld(cfg, w, w', t, stack[..|stack| - 1]);
    RestackHeld(w', stack, Exec(w.sh, Last(stack), cfg.k).move);
    forall u | 0 <= u < |w'.stacks| && u != t ensures StackHeld(w', w'.stacks[u]) {
      StackStaysHeld(cfg, w, w', t, w.stacks[u]);
    }
  }

  lemma RestackHeld(w: World, stack: seq<Frame>, m: Move)
    requires stack != [] && StackHeld(w, stack[..|stack| - 1])
    requires m.Goto? || m.Call? ==> FrameHeld(w, m.frame)
    requires Regular(m)
    ensures StackHeld(w, Restack(stack, m))
  {
    var below := stack[..|stack| - 1];
    var next := Restack(stack, m);
    forall d | 0 <= d < |next| ensures FrameHeld(w, next[d]) {
      if d < |below| {
        assert FrameHeld(w, below[d]);
      }
    }
  }

  // ------------------------------------------------------ markers, per step

  // A bound frame other than the running one is still bound after the step.
  lemma WitnessElsewhere(stacks: seq<seq<Frame>>, t: nat, m: Move, u: nat, d: nat, op: OpId, x: nat)
    requires t < |stacks| && stacks[t] != [] && Regular(m)
    requires BoundAt(stacks, u, d, op, x)
    requires u == t ==> d < |stacks[t]| - 1
    ensures SomeoneBound(stacks[t := Restack(stacks[t], m)], op, x)
  {
    assert BoundAt(stacks[t := Restack(stacks[t], m)], u, d, op, x);
  }

  lemma WitnessRunning(stacks: seq<seq<Frame>>, t: nat, m: Move, op: OpId, x: nat)
    requires t < |stacks| && stacks[t] != []
    requires (m.Goto? || m.Call?) && Bound(m.frame, op, x)
    ensures SomeoneBound(stacks[t := Restack(stacks[t], m)], op, x)
  {
    assert BoundAt(stacks[t := Restack(stacks[t], m)], t, |stacks[t]| - 1, op, x);
  }

  lemma RunnerBound(cfg: Config, w: World, w': World, t: nat, op: OpId, x: nat, a: Addr)
    requires Inv(cfg, w) && Execute(cfg, w, w', t)
    requires FrameHeld(w, Last(w.stacks[t])) && FrameInv(w.sh, w.hist, cfg.k, Last(w.stacks[t]))
    requires op.slot < |w.sh.slots| && Bound(Last(w.stacks[t]), op, x)
    requires x < |w.sh.slots[op.slot].words| && w.sh.slots[op.slot].words[x].target == Some(a)
    requires a < |w.sh.mem| && |w'.sh.mem| == |w.sh.mem| && w'.sh.mem[a] == Marker(op.slot, op.seqno)
    ensures var m := Exec(w.sh, Last(w.stacks[t]), cfg.k).move;
            (m.Goto? || m.Call?) && Bound(m.frame, op, x)
  {
    var f := Last(w.stacks[t]);
    DescriptorClean(cfg, w, f);
    BoundStep(w.sh, f, cfg.k, x);
    NotFailing(cfg, w, w', t);
  }

  lemma StillBoundAt(cfg: Config, w: World, w': World, t: nat, u: nat, d: nat, op: OpId, x: nat, a: Addr)
    requires Inv(cfg, w) && Execute(cfg, w, w', t) && op.slot < |w.sh.slots|
    requires FrameHeld(w, Last(w.stacks[t])) && FrameInv(w.sh, w.hist, cfg.k, Last(w.stacks[t]))
    requires Regular(Exec(w.sh, Last(w.stacks[t]), cfg.k).move)
    requires BoundAt(w.stacks, u, d, op, x)
    requires x < |w.sh.slots[op.slot].words| && w.sh.slots[op.slot].words[x].target == Some(a)
    requires a < |w.sh.mem| && |w'.sh.mem| == |w.sh.mem| && w'.sh.mem[a] == Marker(op.slot, op.seqno)
    ensures SomeoneBound(w'.stacks, op, x)
  {
    if u == t && d == |w.stacks[t]| - 1 {
      RunnerBound(cfg, w, w', t, op, x, a);
      WitnessRunning(w.stacks, t, Exec(w.sh, Last(w.stacks[t]), cfg.k).move, op, x);
    } else {
      WitnessElsewhere(w.stacks, t, Exec(w.sh, Last(w.stacks[t]), cfg.k).move, u, d, op, x);
    }
  }

  lemma StillBound(cfg: Config, w: World, w': World, t: nat, op: OpId, x: nat, a: Addr)
    requires Inv(cfg, w) && Execute(cfg, w, w', t) && OrphanInv(w) && op.slot < |w.sh.slots|
    requires SomeoneBound(w.stacks, op, x)
    requires x < |w.sh.slots[op.slot].words| && w.sh.slots[op.slot].words[x].target == Some(a)
    requires a < |w.sh.mem| && |w'.sh.mem| == |w.sh.mem| && w'.sh.mem[a] == Marker(op.slot, op.seqno)
    ensures SomeoneBound(w'.stacks, op, x)
  {
    StepFacts(cfg, w, w', t);
    assert StackHeld(w, w.stacks[t]);
    assert FrameHeld(w, Last(w.stacks[t]));
    var u: nat, d: nat :| BoundAt(w.stacks, u, d, op, x);
    StillBoundAt(cfg, w, w', t, u, d, op, x, a);
  }

  lemma DescriptorClean(cfg: Config, w: World, f: Frame)
    requires Inv(cfg, w) && FrameInv(w.sh, w.hist, cfg.k, f) && AtWork(f)
    ensures |w.sh.slots[f.slot].words| == cfg.k
    ensures forall y :: 0 <= y < cfg.k ==>
              && w.sh.slots[f.slot].words[y].target.Some?
              && w.sh.slots[f.slot].words[y].target.value < |w.sh.mem|
              && w.sh.slots[f.slot].words[y].expected.Clean? && w.sh.slots[f.slot].words[y].desired.Clean?
  {
    assert SlotShape(w.sh, cfg.k, f.slot);
    assert forall y :: 0 <= y < cfg.k ==> WordShape(w.sh.slots[f.slot].words[y], |w.sh.mem|);
  }

  lemma NotFailing(cfg: Config, w: World, w': World, t: nat)
    requires Inv(cfg, w) && Execute(cfg, w, w', t)
    ensures var m := Exec(w.sh, Last(w.stacks[t]), cfg.k).move;
            m.Goto? || m.Call? ==> !m.frame.pc.Fail?
  {
    ExecuteInvariant(cfg, w, w', t);
  }

  // A word still to be switched stays so, or loses its marker.
  lemma StillPending(cfg: Config, w: World, w': World, t: nat, op: OpId, x: nat, a: Addr)
    requires Inv(cfg, w) && Execute(cfg, w, w', t) && Pending(w, op, x) && x < cfg.k
    requires x < |w.sh.slots[op.slot].words| && w.sh.slots[op.slot].words[x].target == Some(a)
    requires a < |w.sh.mem| && a < |w'.sh.mem| && w'.sh.mem[a] == Marker(op.slot, op.seqno)
    ensures Pending(w', op, x)
  {
    hide Exec;
    hide Inv;
    var f := Last(w.stacks[t]);
    FrameOfStep(cfg, w, w', t);
    assert |w'.sh.slots| == |w.sh.slots| by { StepFacts(cfg, w, w', t); }
    StaysSetting(w.sh, w.hist, cfg.k, f, op, x);
    if IsSwitched(w'.hist, op, x) {
      RecordNew(w.hist, OpOf(f), Exec(w.sh, f, cfg.k).event, op, x);
      SwitchClears(w.sh, w.hist, cfg.k, f, x, a);
      assert false;
    }
  }

  lemma MarkerStays(cfg: Config, w: World, w': World, t: nat, a: Addr)
    requires Inv(cfg, w) && Execute(cfg, w, w', t) && OrphanInv(w)
    requires a < |w.sh.mem| && |w'.sh.mem| == |w.sh.mem| && w'.sh.mem[a] == w.sh.mem[a]
    ensures MarkerHeld(w', a)
  {
    if w.sh.mem[a].Marker? {
      var op := OpId(w.sh.mem[a].slot, w.sh.mem[a].seqno);
      assert MarkerHeld(w, a);
      StepFacts(cfg, w, w', t);
      HeldStable(cfg, w, w', t, op);
      var x := Home(w, op.slot, a);
      assert SlotShape(w.sh, cfg.k, op.slot);
      if Pending(w, op, x) {
        StillPending(cfg, w, w', t, op, x, a);
      } else {
        StillBound(cfg, w, w', t, op, x, a);
      }
    }
  }

  lemma MarkerPlaced(cfg: Config, w: World, w': World, t: nat, a: Addr)
    requires Inv(cfg, w) && Execute(cfg, w, w', t) && OrphanInv(w)
    requires a < |w.sh.mem| && |w'.sh.mem| == |w.sh.mem| && w'.sh.mem[a] != w.sh.mem[a]
    ensures MarkerHeld(w', a)
  {
    var f := Last(w.stacks[t]);
    StepFacts(cfg, w, w', t);
    ExecWrites(w.sh, f, cfg.k, a);
    assert StackHeld(w, w.stacks[t]) && FrameHeld(w, f);
    hide Inv;
    hide OrphanInv;
    if w'.sh.mem[a].Marker? {
      assert f.pc.ClaimCas?;
      HeldStable(cfg, w, w', t, OpOf(f));
      assert WordAt(w.sh.slots[f.slot].words, a) <= f.pc.w;
      WitnessRunning(w.stacks, t, Exec(w.sh, f, cfg.k).move, OpOf(f), WordAt(w.sh.slots[f.slot].words, a));
    }
  }

  lemma ExecuteOrphans(cfg: Config, w: World, w': World, t: nat)
    requires Inv(cfg, w) && Execute(cfg, w, w', t) && OrphanInv(w)
    ensures OrphanInv(w')
  {
    StepFacts(cfg, w, w', t);
    StacksHeld(cfg, w, w', t);
    forall a | 0 <= a < |w'.sh.mem| ensures MarkerHeld(w', a) {
      if w'.sh.mem[a] == w.sh.mem[a] {
        MarkerStays(cfg, w, w', t, a);
      } else {
        MarkerPlaced(cfg, w, w', t, a);
      }
    }
  }

  // A call may begin: with no helper at work on the slot's previous operation,
  // no marker of it is left.
  lemma BeginOrphans(cfg: Config, w: World, w': World, t: nat, words: seq<KWord>)
    requires cfg.stable && Inv(cfg, w) && OrphanInv(w) && Begin(cfg, w, w', t, words)
    ensures OrphanInv(w')
  {
    forall a | 0 <= a < |w.sh.mem| ensures MarkerHeld(w', a) {
      assert MarkerHeld(w, a);
      if w.sh.mem[a].Marker? {
        var op := OpId(w.sh.mem[a].slot, w.sh.mem[a].seqno);
        var x := Home(w, op.slot, a);
        if !Pending(w, op, x) {
          var u: nat, d: nat :| BoundAt(w.stacks, u, d, op, x);
          assert u != t;
          assert BoundAt(w'.stacks, u, d, op, x);
        }
        NotOfSlot(w, t, op, x);
      }
    }
    forall u | 0 <= u < |w'.stacks| ensures StackHeld(w', w'.stacks[u]) {
      if u != t {
        assert StackHeld(w, w.stacks[u]);
        forall d | 0 <= d < |w.stacks[u]| ensures FrameHeld(w', w.stacks[u][d]) {
          assert FrameHeld(w, w.stacks[u][d]);
          assert w.stacks[u][d].slot == t ==> w.stacks[u][d].pc.HelpLoad?;
        }
      }
    }
  }

  lemma NotOfSlot(w: World, t: nat, op: OpId, x: nat)
    requires Pending(w, op, x) || SomeoneBound(w.stacks, op, x)
    requires !HelperAtWork(w.stacks, t)
    requires t < |w.sh.slots| && w.sh.slots[t].stage == Inactive
    ensures op.slot != t
  {
    if !Pending(w, op, x) {
      var u: nat, d: nat :| BoundAt(w.stacks, u, d, op, x);
      assert w.stacks[u][d].slot == op.slot;
    }
  }

  lemma NextOrphans(cfg: Config, w: World, w': World)
    requires cfg.stable && Inv(cfg, w) && OrphanInv(w) && Next(cfg, w, w')
    ensures OrphanInv(w')
  {
    if t: nat, words :| Begin(cfg, w, w', t, words) {
      BeginOrphans(cfg, w, w', t, words);
    } else if t: nat :| Execute(cfg, w, w', t) {
      ExecuteOrphans(cfg, w, w', t);
    } else {
      SameOrphans(w, w');
    }
  }

  lemma SameOrphans(w: World, w': World)
    requires OrphanInv(w) && w'.sh == w.sh && w'.stacks == w.stacks && w'.hist == w.hist
    ensures OrphanInv(w')
  {
    forall a | 0 <= a < |w.sh.mem| ensures MarkerHeld(w', a) {
      assert MarkerHeld(w, a);
    }
    forall u | 0 <= u < |w'.stacks| ensures StackHeld(w', w'.stacks[u]) {
      assert StackHeld(w, w.stacks[u]);
      forall d | 0 <= d < |w.stacks[u]| ensures FrameHeld(w', w.stacks[u][d]) {
        assert FrameHeld(w, w.stacks[u][d]);
      }
    }
  }

  lemma {:induction false} RunOrphans(cfg: Config, run: seq<World>, n: nat)
    requires cfg.stable && Run(cfg, run) && n < |run|
    ensures OrphanInv(run[n])
    decreases n
  {
    if n > 0 {
      RunOrphans(cfg, run, n - 1);
      RunInvariant(cfg, run, n - 1);
      assert NextAt(cfg, run, n - 1);
      NextOrphans(cfg, run[n - 1], run[n]);
    }
  }

  // ------------------------------------------------------------- theorems

  // Every marker in memory lies in one of its operation's own words, and
  // unless the operation is committed and that word still waits for its first
  // switch, some thread in flight is bound to clean the word up.
  lemma MarkersHaveKeepers(cfg: Config, run: seq<World>, n: nat, a: Addr, op: OpId) returns (x: nat)
    requires cfg.stable && Run(cfg, run) && n < |run| && a < |run[n].sh.mem|
    requires run[n].sh.mem[a] == Marker(op.slot, op.seqno)
    ensures op.slot < |run[n].sh.slots| && x < |run[n].sh.slots[op.slot].words|
    ensures run[n].sh.slots[op.slot].words[x].target == Some(a)
    ensures Pending(run[n], op, x) || SomeoneBound(run[n].stacks, op, x)
  {
    RunOrphans(cfg, run, n);
    assert MarkerHeld(run[n], a);
    x := Home(run[n], op.slot, a);
  }

  // Being bound means just that: the frame does not end while the word still
  // holds the marker.
  lemma BoundUntilClean(cfg: Config, run: seq<World>, n: nat, t: nat, op: OpId, x: nat, a: Addr)
    requires cfg.stable && Run(cfg, run) && n + 1 < |run|
    requires Execute(cfg, run[n], run[n + 1], t) && Bound(Last(run[n].stacks[t]), op, x)
    requires op.slot < |run[n].sh.slots| && x < |run[n].sh.slots[op.slot].words|
    requires run[n].sh.slots[op.slot].words[x].target == Some(a)
    requires a < |run[n].sh.mem| && a < |run[n + 1].sh.mem|
    requires run[n + 1].sh.mem[a] == Marker(op.slot, op.seqno)
    ensures |run[n + 1].stacks[t]| >= |run[n].stacks[t]|
    ensures Bound(run[n + 1].stacks[t][|run[n].stacks[t]| - 1], op, x)
  {
    RunOrphans(cfg, run, n);
    RunInvariant(cfg, run, n);
    StepFacts(cfg, run[n], run[n + 1], t);
    assert StackHeld(run[n], run[n].stacks[t]) && FrameHeld(run[n], Last(run[n].stacks[t]));
    RunnerBound(cfg, run[n], run[n + 1], t, op, x, a);
  }

  // When no call is in flight memory holds only user values.
  lemma QuietMemoryIsClean(cfg: Config, run: seq<World>, n: nat)
    requires cfg.stable && Run(cfg, run) && n < |run|
    requires forall t :: 0 <= t < |run[n].stacks| ==> run[n].stacks[t] == []
    ensures forall a :: 0 <= a < |run[n].sh.mem| ==> run[n].sh.mem[a].Clean?
  {
    RunOrphans(cfg, run, n);
    RunInvariant(cfg, run, n);
    forall a | 0 <= a < |run[n].sh.mem| ensures run[n].sh.mem[a].Clean? {
      assert MarkerHeld(run[n], a) && ValueInv(run[n].sh, run[n].sh.mem[a]);
    }
  }
}
