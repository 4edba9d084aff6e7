// With few slots nobody comes too late, whatever the values do: a single thread has
// no helpers, and of two threads with one-word operations one waits while the other
// helps it. The first part deals with one slot. The second part shows that nobody has
// met an operation before its owner has claimed its word, and that the target of a
// committed operation reads its desired value as long as a late helper claims for it.
module FewSlots {
  import opened KcasTypes
  import opened StepMachine
  import opened ProtocolInvariant
  import opened CallerPromises
  import opened SafetyTheorems
  import opened NoOrphanMarkers
  import opened AtomicRefinement

  // ------------------------------------------------------------- one slot

  // Thread `t` runs its owner's frame only, and no other operation is in its way.
  ghost predicate Undisturbed(w: World, t: nat) {
    t < |w.stacks| && w.stacks[t] != [] ==>
      && |w.stacks[t]| == 1
      && var f := w.stacks[t][0];
         && (f.pc.ClaimVerify? ==> !f.pc.actual.Marker?)
         && (ClaimPc(f.pc) ==> OpOf(f) !in w.hist.committed)
  }

  ghost predicate Single(w: World) {
    |w.stacks| <= 1 && Undisturbed(w, 0)
  }

  // With one slot every marker met is the operation's own.
  lemma OwnMarkersOnly(cfg: Config, w: World, a: Addr)
    requires Inv(cfg, w) && OrphanInv(w) && Single(w) && |w.stacks| == 1 && w.stacks[0] != []
    requires a < |w.sh.mem| && w.sh.mem[a].Marker? && !InitPc(w.stacks[0][0].pc)
    ensures w.sh.mem[a] == MarkerOf(w.stacks[0][0])
  {
    assert MarkerHeld(w, a);
    assert StackShape(w.stacks[0], 0) && FramesInv(w.sh, w.hist, cfg.k, w.stacks[0]);
    assert FrameInv(w.sh, w.hist, cfg.k, w.stacks[0][0]);
  }

  lemma SingleFrame(sh: Shared, h: History, k: nat, f: Frame)
    requires FrameInv(sh, h, k, f) && InRange(sh, f, k) && !f.pc.ClaimHelping? && f.owner
    requires f.pc.ClaimVerify? ==> !f.pc.actual.Marker?
    requires f.pc.ClaimCas? && f.pc.a < |sh.mem| && sh.mem[f.pc.a].Marker? ==> sh.mem[f.pc.a] == MarkerOf(f)
    ensures var o := Exec(sh, f, k);
            && !o.move.Call?
            && (o.move.Goto? && o.move.frame.pc.ClaimVerify? ==> !o.move.frame.pc.actual.Marker?)
            && (o.move.Goto? && ClaimPc(o.move.frame.pc) ==>
                  o.event != Commit
                  && ((ClaimPc(f.pc) && OpOf(o.move.frame) == OpOf(f)) || o.event.Began?))
  {
  }

  lemma SingleStep(cfg: Config, w: World, w': World, t: nat)
    requires Inv(cfg, w) && Inv(cfg, w') && OrphanInv(w) && Single(w) && Execute(cfg, w, w', t)
    ensures Single(w')
  {
    var f := Last(w.stacks[t]);
    var o := Exec(w.sh, f, cfg.k);
    assert t == 0 && w.stacks[0] == [f];
    FrameOfStep(cfg, w, w', t);
    if f.pc.ClaimCas? && w.sh.mem[f.pc.a].Marker? { OwnMarkersOnly(cfg, w, f.pc.a); }
    SingleFrame(w.sh, w.hist, cfg.k, f);
    if o.move.Goto? {
      assert w'.stacks[0] == [o.move.frame];
      if ClaimPc(o.move.frame.pc) && o.event.Began? {
        BegunFresh(cfg, w, w', t);
      }
    }
  }

  // An operation that has just begun is not committed.
  lemma BegunFresh(cfg: Config, w: World, w': World, t: nat)
    requires Inv(cfg, w) && Inv(cfg, w') && Execute(cfg, w, w', t)
    requires Exec(w.sh, Last(w.stacks[t]), cfg.k).event.Began?
    ensures Exec(w.sh, Last(w.stacks[t]), cfg.k).move.Goto?
    ensures OpOf(Exec(w.sh, Last(w.stacks[t]), cfg.k).move.frame) !in w'.hist.committed
    ensures !Started(w.sh, Last(w.stacks[t]).slot, Last(w.stacks[t]).seqno)
    ensures w'.sh.mem == w.sh.mem
  {
    var f := Last(w.stacks[t]);
    FrameOfStep(cfg, w, w', t);
    assert f.pc.InitStage?;
    assert OpHistory(w.sh, w.hist, OpOf(f));
  }

  lemma SingleOnTime(cfg: Config, w: World)
    requires Single(w)
    ensures OnTime(w)
  {
  }

  // One slot keeps the promise `stable` by itself.
  lemma SingleIsStable(cfg: Config, run: seq<World>)
    requires Run(cfg, run) && |run[0].stacks| <= 1
    ensures Run(cfg.(stable := true), run)
  {
    forall n | 0 <= n < |run| - 1 ensures NextAt(cfg.(stable := true), run, n) {
      assert NextAt(cfg, run, n);
      StacksStay(cfg, run, n);
      SingleNext(cfg, run[n], run[n + 1]);
    }
  }

  lemma SingleNext(cfg: Config, w: World, w': World)
    requires Next(cfg, w, w') && |w.stacks| <= 1
    ensures Next(cfg.(stable := true), w, w')
  {
    var steady := cfg.(stable := true);
    if t: nat, words :| Begin(cfg, w, w', t, words) {
      assert !HelperAtWork(w.stacks, t);
      assert Begin(steady, w, w', t, words);
    } else if t: nat :| Execute(cfg, w, w', t) {
      assert Execute(steady, w, w', t);
    } else if t: nat :| Spurious(cfg, w, w', t) {
      assert Spurious(steady, w, w', t);
    }
  }

  lemma {:induction false} StacksStay(cfg: Config, run: seq<World>, n: nat)
    requires Run(cfg, run) && n < |run|
    ensures |run[n].stacks| == |run[0].stacks|
    decreases n
  {
    if n > 0 {
      StacksStay(cfg, run, n - 1);
      assert NextAt(cfg, run, n - 1);
    }
  }

  lemma {:induction false} RunSingle(cfg: Config, run: seq<World>, n: nat)
    requires cfg.stable && Run(cfg, run) && |run[0].stacks| <= 1 && n < |run|
    ensures Single(run[n])
    decreases n
  {
    hide Inv;
    hide OrphanInv;
    hide Single;
    hide Next;
    if n == 0 {
      FirstSingle(cfg, run);
    } else {
      RunSingle(cfg, run, n - 1);
      RunInvariant(cfg, run, n - 1);
      RunInvariant(cfg, run, n);
      RunOrphans(cfg, run, n - 1);
      assert NextAt(cfg, run, n - 1);
      NextSingle(cfg, run[n - 1], run[n]);
    }
  }

  lemma FirstSingle(cfg: Config, run: seq<World>)
    requires Run(cfg, run) && |run[0].stacks| <= 1
    ensures Single(run[0])
  {
  }

  lemma NextSingle(cfg: Config, w: World, w': World)
    requires Inv(cfg, w) && Inv(cfg, w') && OrphanInv(w) && Single(w) && Next(cfg, w, w')
    ensures Single(w')
  {
    if t: nat :| Execute(cfg, w, w', t) {
      SingleStep(cfg, w, w', t);
    }
  }

  // Whatever the words do, a single slot's calls are never late.
  lemma SingleIsTimely(cfg: Config, run: seq<World>)
    requires cfg.stable && Run(cfg, run) && |run[0].stacks| <= 1
    ensures Timely(cfg, run)
  {
    forall n | 0 <= n < |run| ensures OnTime(run[n]) {
      RunSingle(cfg, run, n);
      SingleOnTime(cfg, run[n]);
    }
  }

  // --------------------------------------------- two slots, one-word operations

  predicate Claims(pc: Pc) {
    ClaimPc(pc) || pc.ClaimHelping?
  }

  // The frame is at work on another operation and has not met `op`.
  ghost predicate Stranger(f: Frame, op: OpId) {
    OpOf(f) != op && (f.pc.ClaimVerify? ==> f.pc.actual != Marker(op.slot, op.seqno))
  }

  ghost predicate Nowhere(sh: Shared, op: OpId) {
    forall a :: 0 <= a < |sh.mem| ==> sh.mem[a] != Marker(op.slot, op.seqno)
  }

  // All frames of the stack from height `lo` on are strangers.
  ghost predicate Strange(stack: seq<Frame>, lo: nat, op: OpId) {
    forall d :: lo <= d < |stack| ==> Stranger(stack[d], op)
  }

  ghost predicate OthersStrange(stacks: seq<seq<Frame>>, t: nat, op: OpId) {
    forall u :: 0 <= u < |stacks| ==> Strange(stacks[u], if u == t then 1 else 0, op)
  }

  // Until its owner has claimed its one word, nobody has met a thread's operation.
  ghost predicate Unseen(w: World, t: nat) {
    t < |w.stacks| && w.stacks[t] != [] && Claims(w.stacks[t][0].pc) ==>
      var op := OpOf(w.stacks[t][0]);
      op !in w.hist.committed && Nowhere(w.sh, op) && OthersStrange(w.stacks, t, op)
  }

  ghost predicate AllUnseen(w: World) {
    forall t :: 0 <= t < |w.stacks| ==> Unseen(w, t)
  }

  lemma StrangerStep(sh: Shared, h: History, f: Frame, k: nat, op: OpId)
    requires FrameInv(sh, h, k, f) && InRange(sh, f, k) && !f.pc.ClaimHelping?
    requires Stranger(f, op) && Nowhere(sh, op) && (InitPc(f.pc) ==> f.slot != op.slot)
    ensures var o := Exec(sh, f, k);
            && Nowhere(o.sh, op) && (o.event == Commit ==> OpOf(f) != op)
            && (o.move.Goto? || o.move.Call? ==> Stranger(o.move.frame, op))
            && (o.move.Call? ==> Stranger(o.move.child, op))
  {
  }

  lemma RestackStrange(stack: seq<Frame>, m: Move, lo: nat, op: OpId)
    requires stack != [] && lo <= 1 && Strange(stack, lo, op)
    requires |stack| - 1 >= lo && (m.Goto? || m.Call?) ==> Stranger(m.frame, op)
    requires m.Call? ==> Stranger(m.child, op)
    ensures Strange(Restack(stack, m), lo, op)
  {
  }

  // A step by another thread, or by a helper, leaves an unseen operation unseen.
  lemma StaysUnseen(cfg: Config, w: World, w': World, t: nat, u: nat)
    requires Inv(cfg, w) && Inv(cfg, w') && Unseen(w, u) && Execute(cfg, w, w', t) && u < |w.stacks|
    requires w.stacks[u] != [] && Claims(w.stacks[u][0].pc) && (u != t || |w.stacks[t]| > 1)
    requires w'.stacks[u] != [] && OpOf(w'.stacks[u][0]) == OpOf(w.stacks[u][0])
    ensures Unseen(w', u)
  {
    var f, op := Last(w.stacks[t]), OpOf(w.stacks[u][0]);
    var m := Exec(w.sh, f, cfg.k).move;
    FrameOfStep(cfg, w, w', t);
    assert StackShape(w.stacks[u], u) && Strange(w.stacks[t], if t == u then 1 else 0, op);
    assert InitPc(f.pc) ==> f.slot == t && |w.stacks[t]| == 1;
    StrangerStep(w.sh, w.hist, f, cfg.k, op);
    RestackStrange(w.stacks[t], m, if t == u then 1 else 0, op);
    forall v | 0 <= v < |w'.stacks| ensures Strange(w'.stacks[v], if v == u then 1 else 0, op) {
      assert Strange(w.stacks[v], if v == u then 1 else 0, op);
    }
    RecordNew(w.hist, OpOf(f), Exec(w.sh, f, cfg.k).event, op, 0);
  }

  // The owner's own steps while it claims its one word.
  lemma OwnerClaims(sh: Shared, h: History, f: Frame)
    requires FrameInv(sh, h, 1, f) && InRange(sh, f, 1) && !f.pc.ClaimHelping? && f.owner
    ensures var o := Exec(sh, f, 1);
            && (Claims(f.pc) ==> !o.event.Began?)
            && (o.move.Goto? && Claims(o.move.frame.pc) ==> o.event.Began? || (Claims(f.pc) && o.sh.mem == sh.mem))
            && (o.move.Goto? || o.move.Call? ==> o.event.Began? || f.pc.InitLoad? || OpOf(o.move.frame) == OpOf(f))
            && (o.move.Goto? && Claims(o.move.frame.pc) ==> OpOf(o.move.frame) == OpOf(f) && o.event != Commit)
            && (o.move.Call? ==>
                  && Claims(f.pc) && o.sh.mem == sh.mem && o.event == Quiet
                  && Stranger(o.move.child, OpOf(f)) && OpOf(o.move.frame) == OpOf(f))
  {
  }

  // The owner takes a step of its claim.
  lemma OwnerUnseen(cfg: Config, w: World, w': World, t: nat)
    requires cfg.k == 1 && Inv(cfg, w) && Inv(cfg, w') && Unseen(w, t) && Execute(cfg, w, w', t)
    requires |w.stacks[t]| == 1 && Claims(w.stacks[t][0].pc)
    ensures Unseen(w', t)
  {
    hide Exec;
    hide Inv;
    hide Strange;
    var f, o := Last(w.stacks[t]), Exec(w.sh, Last(w.stacks[t]), cfg.k);
    FrameOfStep(cfg, w, w', t);
    OwnerClaims(w.sh, w.hist, f);
    RecordNew(w.hist, OpOf(f), o.event, OpOf(f), 0);
    if w'.stacks[t] != [] && Claims(w'.stacks[t][0].pc) {
      assert !o.event.Began?;
      forall v | 0 <= v < |w'.stacks| ensures Strange(w'.stacks[v], if v == t then 1 else 0, OpOf(f)) {
        assert Strange(w.stacks[v], if v == t then 1 else 0, OpOf(f));
        if v == t { OwnerAlone(w.stacks[t], o.move, OpOf(f)); }
      }
    }
  }

  lemma OwnerAlone(stack: seq<Frame>, m: Move, op: OpId)
    requires |stack| == 1 && (m.Call? ==> Stranger(m.child, op))
    ensures Strange(Restack(stack, m), 1, op)
  {
  }

  // An operation that has just begun is unseen.
  lemma BegunUnseen(cfg: Config, w: World, w': World, t: nat)
    requires Inv(cfg, w) && Inv(cfg, w') && Execute(cfg, w, w', t)
    requires Exec(w.sh, Last(w.stacks[t]), cfg.k).event.Began?
    ensures Unseen(w', t)
  {
    var f := Last(w.stacks[t]);
    var op := OpOf(f);
    FrameOfStep(cfg, w, w', t);
    BegunFresh(cfg, w, w', t);
    assert f.pc.InitStage? && f.slot == t && |w.stacks[t]| == 1;
    forall a | 0 <= a < |w.sh.mem| ensures w.sh.mem[a] != Marker(op.slot, op.seqno) {
      assert ValueInv(w.sh, w.sh.mem[a]);
    }
    forall v | 0 <= v < |w.stacks| ensures Strange(w'.stacks[v], if v == t then 1 else 0, op) {
      if v != t { NotStartedStrange(cfg, w, v, t, op); }
    }
  }

  lemma NotStartedStrange(cfg: Config, w: World, v: nat, t: nat, op: OpId)
    requires Inv(cfg, w) && v < |w.stacks| && !Started(w.sh, op.slot, op.seqno) && op.slot == t && v != t
    ensures Strange(w.stacks[v], 0, op)
  {
    assert FramesInv(w.sh, w.hist, cfg.k, w.stacks[v]) && StackShape(w.stacks[v], v);
    forall d | 0 <= d < |w.stacks[v]| ensures Stranger(w.stacks[v][d], op) {
      assert FrameInv(w.sh, w.hist, cfg.k, w.stacks[v][d]);
    }
  }

  lemma ExecuteUnseen(cfg: Config, w: World, w': World, t: nat, u: nat)
    requires cfg.k == 1 && Inv(cfg, w) && Inv(cfg, w') && Unseen(w, u) && Execute(cfg, w, w', t)
    ensures Unseen(w', u)
  {
    hide Exec;
    hide Inv;
    hide Stranger;
    if u < |w'.stacks| && w'.stacks[u] != [] && Claims(w'.stacks[u][0].pc) {
      FrameOfStep(cfg, w, w', t);
      if u == t && |w.stacks[t]| == 1 {
        OwnerClaims(w.sh, w.hist, Last(w.stacks[t]));
        if Exec(w.sh, Last(w.stacks[t]), cfg.k).event.Began? {
          BegunUnseen(cfg, w, w', t);
        } else {
          OwnerUnseen(cfg, w, w', t);
        }
      } else {
        KeepsOwner(w.stacks[t], Exec(w.sh, Last(w.stacks[t]), cfg.k).move, t);
        StaysUnseen(cfg, w, w', t, u);
      }
    }
  }

  // A helper's step leaves its thread's call where it is, unless it resumes it.
  lemma KeepsOwner(stack: seq<Frame>, m: Move, t: nat)
    requires stack != [] && StackShape(stack, t)
    ensures |stack| > 1 ==>
              Restack(stack, m) != [] && OpOf(Restack(stack, m)[0]) == OpOf(stack[0]) && Claims(stack[0].pc)
  {
  }

  lemma BeginUnseen(cfg: Config, w: World, w': World, t: nat, words: seq<KWord>, u: nat)
    requires Inv(cfg, w) && Unseen(w, u) && Begin(cfg, w, w', t, words)
    ensures Unseen(w', u)
  {
    if u < |w'.stacks| && w'.stacks[u] != [] && Claims(w'.stacks[u][0].pc) {
      var op := OpOf(w.stacks[u][0]);
      assert u != t;
      assert StackShape(w.stacks[u], u) && FramesInv(w.sh, w.hist, cfg.k, w.stacks[u]);
      assert FrameInv(w.sh, w.hist, cfg.k, w.stacks[u][0]);
      forall v | 0 <= v < |w'.stacks| ensures Strange(w'.stacks[v], if v == u then 1 else 0, op) {
        assert Strange(w.stacks[v], if v == u then 1 else 0, op);
      }
    }
  }

  lemma NextUnseen(cfg: Config, w: World, w': World)
    requires cfg.k == 1 && Inv(cfg, w) && Inv(cfg, w') && AllUnseen(w) && Next(cfg, w, w')
    ensures AllUnseen(w')
  {
    hide Inv;
    hide Unseen;
    forall u | 0 <= u < |w'.stacks| ensures Unseen(w', u) {
      if t: nat, words :| Begin(cfg, w, w', t, words) {
        assert Unseen(w, u);
        BeginUnseen(cfg, w, w', t, words, u);
      } else if t: nat :| Execute(cfg, w, w', t) {
        assert Unseen(w, u);
        ExecuteUnseen(cfg, w, w', t, u);
      } else {
        assert Unseen(w, u);
        SameUnseen(w, w', u);
      }
    }
  }

  lemma SameUnseen(w: World, w': World, u: nat)
    requires Unseen(w, u) && w'.sh == w.sh && w'.stacks == w.stacks && w'.hist == w.hist
    ensures Unseen(w', u)
  {
  }

  // ------------------------------------------------------ late helpers wait

  ghost predicate ReadsDesired(sh: Shared, words: seq<KWord>) {
    forall x :: 0 <= x < |words| ==> WordReadsDesired(sh, words[x])
  }

  ghost predicate WordReadsDesired(sh: Shared, word: KWord) {
    word.target.Some? && word.target.value < |sh.mem| ==> LogicalAt(sh, word.target.value) == BitsOf(word.desired)
  }

  // As long as a helper claims for a committed operation, that operation's targets
  // read their desired values.
  ghost predicate HelperReads(w: World, f: Frame) {
    Claims(f.pc) && OpOf(f) in w.hist.committed && f.slot < |w.sh.slots|
    ==> ReadsDesired(w.sh, w.sh.slots[f.slot].words)
  }

  ghost predicate HelpersRead(w: World) {
    forall t, d :: 0 <= t < |w.stacks| && 0 < d < |w.stacks[t]| ==> HelperReads(w, w.stacks[t][d])
  }

  // A claiming helper was claiming before the step, unless its operation is not
  // committed.
  lemma HelperBefore(cfg: Config, w: World, w': World, t: nat, u: nat, d: nat)
    requires Inv(cfg, w) && Inv(cfg, w') && Execute(cfg, w, w', t)
    requires u < |w'.stacks| && 0 < d < |w'.stacks[u]| && Claims(w'.stacks[u][d].pc)
    requires OpOf(w'.stacks[u][d]) in w'.hist.committed
    ensures d < |w.stacks[u]| && OpOf(w.stacks[u][d]) == OpOf(w'.stacks[u][d]) && Claims(w.stacks[u][d].pc)
  {
    if u == t {
      var f, o := Last(w.stacks[t]), Exec(w.sh, Last(w.stacks[t]), cfg.k);
      FrameOfStep(cfg, w, w', t);
      HelperStep(w.sh, w.hist, cfg.k, f);
      RestackAt(w.stacks[t], t, o.move, d);
      if d == |w.stacks[t]| - 1 && f.pc == HelpLoad {
        RecordNew(w.hist, OpOf(f), o.event, OpOf(f), 0);
        assert SlotHistory(w.sh, w.hist, f.slot);
      }
    }
  }

  lemma HelperStep(sh: Shared, h: History, k: nat, f: Frame)
    requires FrameInv(sh, h, k, f) && InRange(sh, f, k) && !f.pc.ClaimHelping?
    ensures var o := Exec(sh, f, k);
            && (!f.owner && (o.move.Goto? || o.move.Call?) && Claims(o.move.frame.pc) ==>
                  && OpOf(o.move.frame) == OpOf(f)
                  && (Claims(f.pc) || (f.pc == HelpLoad && Live(sh, f, Claiming) && o.event == Quiet)))
            && (o.move.Call? ==> o.move.child.pc == HelpLoad)
  {
  }

  lemma RestackAt(stack: seq<Frame>, t: nat, m: Move, d: nat)
    requires stack != [] && StackShape(stack, t) && d < |Restack(stack, m)|
    ensures var g := Restack(stack, m)[d];
            || (d < |stack| - 1 && OpOf(g) == OpOf(stack[d]) && stack[d].pc.ClaimHelping?)
            || (d == |stack| - 1 && (m.Goto? || m.Call?) && g == m.frame)
            || (d == |stack| && m.Call? && g == m.child)
  {
  }

  // A helper that claims for a committed operation works on another slot than its
  // thread's, and no operation of that slot is claiming.
  lemma HelpedSlot(cfg: Config, w: World, u: nat, d: nat)
    requires Inv(cfg, w) && OrphanInv(w) && Unseen(w, u)
    requires u < |w.stacks| && 0 < d < |w.stacks[u]| && Claims(w.stacks[u][d].pc)
    requires OpOf(w.stacks[u][d]) in w.hist.committed
    ensures var i := w.stacks[u][d].slot; i != u && i < |w.sh.slots| && w.sh.slots[i].stage != Claiming
  {
    var f, g := w.stacks[u][d], w.stacks[u][0];
    assert StackHeld(w, w.stacks[u]) && FrameHeld(w, f);
    assert SlotHistory(w.sh, w.hist, f.slot);
    OwnerIsCurrent(cfg, w, u);
    assert Strange(w.stacks[u], 1, OpOf(g)) && Stranger(f, OpOf(g));
  }

  // With two slots nobody else commits while a helper claims for a committed
  // operation: the helper's own call is unseen, and the helped slot is not reused.
  lemma NobodyElseCommits(cfg: Config, w: World, w': World, t: nat, op: OpId, u: nat, d: nat)
    requires |w.stacks| == 2 && Inv(cfg, w) && OrphanInv(w) && AllUnseen(w)
    requires u < 2 && 0 < d < |w.stacks[u]| && Claims(w.stacks[u][d].pc)
    requires OpOf(w.stacks[u][d]) in w.hist.committed
    ensures !Took(cfg, w, w', t, op, Commit)
  {
    hide Inv;
    hide OrphanInv;
    hide AllUnseen;
    hide Unseen;
    if Took(cfg, w, w', t, op, Commit) {
      CommitMeans(cfg, w, w', t, op);
      TheUnseen(w, u);
      HelpedSlot(cfg, w, u, d);
      OwnerIsCurrent(cfg, w, u);
      CommitterSeen(cfg, w, w', t, op, u);
    }
  }

  lemma CommitterSeen(cfg: Config, w: World, w': World, t: nat, op: OpId, u: nat)
    requires Unseen(w, u) && u < |w.stacks| && |w.stacks[u]| > 1 && Claims(w.stacks[u][0].pc)
    requires Took(cfg, w, w', t, op, Commit)
    ensures op != OpOf(w.stacks[u][0])
  {
    var g := OpOf(w.stacks[u][0]);
    assert Strange(w.stacks[t], if t == u then 1 else 0, g);
    assert Stranger(Last(w.stacks[t]), g);
  }

  lemma OwnerIsCurrent(cfg: Config, w: World, u: nat)
    requires Inv(cfg, w) && u < |w.stacks| && |w.stacks[u]| > 1
    ensures Claims(w.stacks[u][0].pc) && w.stacks[u][0].slot == u && Current(w.sh, w.stacks[u][0])
    ensures w.sh.slots[u].stage != Inactive && |w.sh.slots| == |w.stacks|
  {
    assert StackShape(w.stacks[u], u) && FramesInv(w.sh, w.hist, cfg.k, w.stacks[u]);
    assert FrameInv(w.sh, w.hist, cfg.k, w.stacks[u][0]);
  }

  // The operation of a claiming helper commits in this step, or was committed and
  // nobody commits.
  lemma HelpersReadStep(cfg: Config, w: World, w': World, t: nat, u: nat, d: nat)
    requires |w.stacks| == 2 && AllInv(cfg, w) && AllUnseen(w) && HelpersRead(w) && OnTime(w)
    requires Inv(cfg, w') && OrphanInv(w') && Execute(cfg, w, w', t)
    requires u < |w'.stacks| && 0 < d < |w'.stacks[u]|
    ensures HelperReads(w', w'.stacks[u][d])
  {
    var f := w'.stacks[u][d];
    if Claims(f.pc) && OpOf(f) in w'.hist.committed {
      HelperBefore(cfg, w, w', t, u, d);
      assert HelperReads(w, w.stacks[u][d]);
      if OpOf(f) in w.hist.committed {
        StillReads(cfg, w, w', t, u, d);
      } else {
        var v := WhoCommitted(cfg, w, w', OpOf(f));
        ReadsAtCommit(cfg, w, w', v, OpOf(f));
      }
    }
  }

  lemma ReadsAtCommit(cfg: Config, w: World, w': World, t: nat, op: OpId)
    requires AllInv(cfg, w) && Took(cfg, w, w', t, op, Commit)
    ensures op.slot < |w'.sh.slots| && ReadsDesired(w'.sh, w'.sh.slots[op.slot].words)
  {
    CommitMeans(cfg, w, w', t, op);
    CommitChanges(cfg, w, w', t, op);
    var words := w'.sh.slots[op.slot].words;
    assert SlotShape(w.sh, cfg.k, op.slot);
    forall x | 0 <= x < |words| ensures WordReadsDesired(w'.sh, words[x]) {
      CommitReads(cfg, w, w', t, op, x);
    }
  }

  lemma StillReads(cfg: Config, w: World, w': World, t: nat, u: nat, d: nat)
    requires |w.stacks| == 2 && AllInv(cfg, w) && AllUnseen(w) && OnTime(w)
    requires Inv(cfg, w') && OrphanInv(w') && Execute(cfg, w, w', t)
    requires u < 2 && 0 < d < |w.stacks[u]| && HelperReads(w, w.stacks[u][d])
    requires Claims(w.stacks[u][d].pc) && OpOf(w.stacks[u][d]) in w.hist.committed
    ensures w.stacks[u][d].slot < |w'.sh.slots|
    ensures ReadsDesired(w'.sh, w'.sh.slots[w.stacks[u][d].slot].words)
  {
    hide Exec;
    hide Inv;
    hide AllUnseen;
    hide OnTime;
    hide AtomicInv;
    hide PromisesInv;
    hide OrphanInv;
    var f, op := w.stacks[u][d], OpOf(Last(w.stacks[t]));
    NobodyElseCommits(cfg, w, w', t, op, u, d);
    CommitsNothing(cfg, w, w', t);
    OtherStepsSilent(cfg, w, w', t);
    KeepsWords(cfg, w, w', t, u, d);
    var words := w.sh.slots[f.slot].words;
    forall x | 0 <= x < |words| ensures WordReadsDesired(w'.sh, words[x]) {
      assert WordReadsDesired(w.sh, words[x]);
      if words[x].target.Some? && words[x].target.value < |w.sh.mem| {
        assert Logical(w'.sh)[words[x].target.value] == Logical(w.sh)[words[x].target.value];
      }
    }
  }

  lemma CommitsNothing(cfg: Config, w: World, w': World, t: nat)
    requires Execute(cfg, w, w', t) && !Took(cfg, w, w', t, OpOf(Last(w.stacks[t])), Commit)
    ensures w'.hist.committed == w.hist.committed
  {
  }

  lemma KeepsWords(cfg: Config, w: World, w': World, t: nat, u: nat, d: nat)
    requires Inv(cfg, w) && OrphanInv(w) && Execute(cfg, w, w', t)
    requires u < |w.stacks| && d < |w.stacks[u]| && AtWork(w.stacks[u][d])
    ensures var i := w.stacks[u][d].slot;
            i < |w.sh.slots| && i < |w'.sh.slots| && w'.sh.slots[i].words == w.sh.slots[i].words
    ensures |w'.sh.mem| == |w.sh.mem|
  {
    StepFacts(cfg, w, w', t);
    assert StackHeld(w, w.stacks[u]) && FrameHeld(w, w.stacks[u][d]);
    HeldStable(cfg, w, w', t, OpOf(w.stacks[u][d]));
  }

  lemma NextHelpersRead(cfg: Config, w: World, w': World)
    requires |w.stacks| == 2 && AllInv(cfg, w) && AllUnseen(w) && HelpersRead(w) && OnTime(w)
    requires Inv(cfg, w') && OrphanInv(w') && Next(cfg, w, w')
    ensures HelpersRead(w')
  {
    hide AllInv;
    hide Inv;
    hide OrphanInv;
    hide AllUnseen;
    hide OnTime;
    hide HelperReads;
    forall u, d | 0 <= u < |w'.stacks| && 0 < d < |w'.stacks[u]| ensures HelperReads(w', w'.stacks[u][d]) {
      if t: nat :| Execute(cfg, w, w', t) {
        HelpersReadStep(cfg, w, w', t, u, d);
      } else {
        assert HelperReads(w, w.stacks[u][d]);
        SameReads(w, w', w.stacks[u][d]);
      }
    }
  }

  lemma SameReads(w: World, w': World, f: Frame)
    requires HelperReads(w, f) && w'.sh == w.sh && w'.hist == w.hist
    ensures HelperReads(w', f)
  {
  }

  // So no claim succeeds late.
  lemma TwoOnTime(cfg: Config, w: World)
    requires AllInv(cfg, w) && AllUnseen(w) && HelpersRead(w)
    ensures OnTime(w)
  {
    hide AllUnseen;
    forall t | 0 <= t < |w.stacks| && w.stacks[t] != [] ensures ClaimOnTime(w, Last(w.stacks[t])) {
      TheUnseen(w, t);
      if |w.stacks[t]| > 1 { assert HelperReads(w, Last(w.stacks[t])); }
      TopOnTime(cfg, w, t);
    }
  }

  lemma TheUnseen(w: World, t: nat)
    requires t < |w.stacks|
    ensures AllUnseen(w) ==> Unseen(w, t)
  {
  }

  lemma TopOnTime(cfg: Config, w: World, t: nat)
    requires AllInv(cfg, w) && t < |w.stacks| && w.stacks[t] != [] && Unseen(w, t)
    requires HelperReads(w, Last(w.stacks[t])) || |w.stacks[t]| == 1
    ensures ClaimOnTime(w, Last(w.stacks[t]))
  {
    var f := Last(w.stacks[t]);
    if f.pc.ClaimCas? && OpOf(f) in w.hist.committed && |w.stacks[t]| > 1 {
      assert FramesInv(w.sh, w.hist, cfg.k, w.stacks[t]) && StackHeld(w, w.stacks[t]);
      assert FrameInv(w.sh, w.hist, cfg.k, f) && FrameHeld(w, f);
      assert SlotShape(w.sh, cfg.k, f.slot);
      assert WordShape(w.sh.slots[f.slot].words[f.pc.w], |w.sh.mem|);
      assert WordReadsDesired(w.sh, w.sh.slots[f.slot].words[f.pc.w]);
    }
  }

  lemma {:induction false} RunTwo(cfg: Config, run: seq<World>, n: nat)
    requires cfg.stable && cfg.k == 1 && Run(cfg, run) && |run[0].stacks| == 2 && n < |run|
    ensures AllInv(cfg, run[n]) && AllUnseen(run[n]) && HelpersRead(run[n])
    decreases n
  {
    hide AllInv;
    hide Inv;
    hide OrphanInv;
    hide AllUnseen;
    hide HelpersRead;
    hide OnTime;
    hide Next;
    if n == 0 {
      FirstTwo(cfg, run);
    } else {
      RunTwo(cfg, run, n - 1);
      TwoOnTime(cfg, run[n - 1]);
      AllInvIs(cfg, run[n - 1]);
      StepAtomic(cfg, run, n - 1);
      AllInvIs(cfg, run[n]);
      StacksStay(cfg, run, n - 1);
      assert NextAt(cfg, run, n - 1);
      NextUnseen(cfg, run[n - 1], run[n]);
      NextHelpersRead(cfg, run[n - 1], run[n]);
    }
  }

  lemma AllInvIs(cfg: Config, w: World)
    requires AllInv(cfg, w)
    ensures Inv(cfg, w) && OrphanInv(w)
  {
  }

  lemma FirstTwo(cfg: Config, run: seq<World>)
    requires cfg.stable && Run(cfg, run)
    ensures AllInv(cfg, run[0]) && AllUnseen(run[0]) && HelpersRead(run[0])
  {
    RunInvariant(cfg, run, 0);
    RunPromises(cfg, run, 0);
    RunOrphans(cfg, run, 0);
    FirstAtomic(cfg, run);
  }

  // Two slots with one-word operations need only the promise `stable`.
  lemma TwoAreTimely(cfg: Config, run: seq<World>)
    requires cfg.stable && cfg.k == 1 && Run(cfg, run) && |run[0].stacks| == 2
    ensures Timely(cfg, run)
  {
    forall n | 0 <= n < |run| ensures OnTime(run[n]) {
      RunTwo(cfg, run, n);
      TwoOnTime(cfg, run[n]);
    }
  }
}
