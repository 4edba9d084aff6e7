// Helping climbs. When the callers respect one global order of addresses, the
// addresses at which nested helps were triggered strictly increase along every
// thread's stack, so help never recurses deeper than there are addresses.
module HelpingClimbs {
  import opened KcasTypes
  import opened StepMachine
  import opened ProtocolInvariant
  import opened CallerPromises

  function Rank(cfg: Config, a: Addr): nat {
    RankOf(Some(a), cfg.rank)
  }

  // Frame `c` helps the operation whose marker was seen at `a`. As long as that
  // operation is claiming, the marker is still there, and `c` itself can only
  // be stuck at a later word.
  ghost predicate Watches(sh: Shared, a: Addr, c: Frame) {
    Live(sh, c, Claiming) ==>
      && a < |sh.mem| && sh.mem[a] == MarkerOf(c)
      && (c.pc.ClaimVerify? ==> WordAt(sh.slots[c.slot].words, a) < c.pc.w)
  }

  // The foreign marker a claim is about to react to is still in place if its
  // operation is still claiming.
  ghost predicate SeenStays(sh: Shared, f: Frame) {
    f.pc.ClaimVerify? && ClaimMarker(sh, f.pc.actual) ==>
      f.pc.a < |sh.mem| && sh.mem[f.pc.a] == f.pc.actual
  }

  ghost predicate Link(cfg: Config, sh: Shared, parent: Frame, child: Frame) {
    parent.pc.ClaimHelping? ==>
      && Watches(sh, parent.pc.a, child)
      && (cfg.ranked && child.pc.ClaimHelping? ==> Rank(cfg, parent.pc.a) < Rank(cfg, child.pc.a))
  }

  ghost predicate Climbs(cfg: Config, sh: Shared, stack: seq<Frame>) {
    && (forall d :: 0 <= d < |stack| - 1 ==> LinkAt(cfg, sh, stack, d))
    && (forall d :: 0 <= d < |stack| ==> SeenStays(sh, stack[d]))
  }

  ghost predicate LinkAt(cfg: Config, sh: Shared, stack: seq<Frame>, d: nat)
    requires d + 1 < |stack|
  {
    Link(cfg, sh, stack[d], stack[d + 1])
  }

  ghost predicate ClimbInv(cfg: Config, w: World) {
    forall t :: 0 <= t < |w.stacks| ==> Climbs(cfg, w.sh, w.stacks[t])
  }

  // ------------------------------------------------------------- stability

  lemma WatchesStable(sh: Shared, h: History, sh': Shared, h': History, mover: int, a: Addr, c: Frame)
    requires Rely(sh, h, sh', h', mover) && Started(sh, c.slot, c.seqno) && Watches(sh, a, c)
    ensures Watches(sh', a, c)
  {
    if Live(sh', c, Claiming) {
      LiveBefore(sh, h, sh', h', mover, c);
      assert ClaimMarker(sh', sh.mem[a]);
    }
  }

  lemma SeenStable(sh: Shared, h: History, sh': Shared, h': History, mover: int, k: nat, f: Frame)
    requires Rely(sh, h, sh', h', mover) && FrameInv(sh, h, k, f) && SeenStays(sh, f)
    ensures SeenStays(sh', f)
  {
    if f.pc.ClaimVerify? && ClaimMarker(sh', f.pc.actual) {
      var g := Frame(f.pc.actual.slot, f.pc.actual.seqno, false, HelpLoad);
      LiveBefore(sh, h, sh', h', mover, g);
    }
  }

  lemma LinkStable(cfg: Config, sh: Shared, h: History, sh': Shared, h': History, mover: int, p: Frame, c: Frame)
    requires Rely(sh, h, sh', h', mover) && Link(cfg, sh, p, c)
    requires Started(sh, c.slot, c.seqno)
    ensures Link(cfg, sh', p, c)
  {
    if p.pc.ClaimHelping? {
      WatchesStable(sh, h, sh', h', mover, p.pc.a, c);
    }
  }

  lemma ClimbsStable(cfg: Config, w: World, sh': Shared, h': History, mover: int, u: nat)
    requires Inv(cfg, w) && u < |w.stacks| && Climbs(cfg, w.sh, w.stacks[u])
    requires Rely(w.sh, w.hist, sh', h', mover)
    ensures Climbs(cfg, sh', w.stacks[u])
  {
    var stack := w.stacks[u];
    assert FramesInv(w.sh, w.hist, cfg.k, stack) && StackShape(stack, u);
    forall d | 0 <= d < |stack| ensures SeenStays(sh', stack[d]) {
      SeenStable(w.sh, w.hist, sh', h', mover, cfg.k, stack[d]);
    }
    forall d | 0 <= d < |stack| - 1 ensures LinkAt(cfg, sh', stack, d) {
      assert LinkAt(cfg, w.sh, stack, d);
      assert FrameInv(w.sh, w.hist, cfg.k, stack[d + 1]);
      LinkStable(cfg, w.sh, w.hist, sh', h', mover, stack[d], stack[d + 1]);
    }
  }

  // ------------------------------------------------------ the running frame

  // A claim that misses its own marker stands at a word past the watched one.
  lemma MissIsLater(sh: Shared, h: History, k: nat, f: Frame, a: Addr)
    requires SharedInv(sh, h, k) && FrameInv(sh, h, k, f) && InRange(sh, f, k)
    requires f.pc.ClaimCas? && sh.mem[f.pc.a] != MarkerOf(f) && Live(sh, f, Claiming)
    requires a < |sh.mem| && sh.mem[a] == MarkerOf(f)
    ensures WordAt(sh.slots[f.slot].words, a) < f.pc.w
  {
    var j := WordAt(sh.slots[f.slot].words, a);
    assert SlotShape(sh, k, f.slot) && SlotMarks(sh, h, k, f.slot);
    assert Marked(sh, f.slot, j);
    assert MarkedUpTo(sh, f.slot, j);
    assert !Marked(sh, f.slot, f.pc.w);
  }

  // A help asked for by a helper is triggered at a higher-ranked address.
  lemma CallClimbs(cfg: Config, sh: Shared, h: History, f: Frame, a: Addr)
    requires SharedInv(sh, h, cfg.k) && FrameInv(sh, h, cfg.k, f)
    requires f.pc.ClaimVerify? && Live(sh, f, Claiming) && Watches(sh, a, f)
    requires Ranked(sh.slots[f.slot].words, cfg.rank)
    ensures Rank(cfg, a) < Rank(cfg, f.pc.a)
  {
    var words := sh.slots[f.slot].words;
    var j := WordAt(words, a);
    assert SlotShape(sh, cfg.k, f.slot) && SlotMarks(sh, h, cfg.k, f.slot);
    assert RankOf(words[j].target, cfg.rank) < RankOf(words[f.pc.w].target, cfg.rank);
  }

  // When a step leads to a verification or asks for help.
  lemma ExecShape(sh: Shared, f: Frame, k: nat)
    requires InRange(sh, f, k) && !f.pc.ClaimHelping?
    ensures var o := Exec(sh, f, k);
            && (o.move.Goto? && !InitPc(f.pc) ==> OpOf(o.move.frame) == OpOf(f))
            && (o.move.Goto? ==> !o.move.frame.pc.ClaimHelping?)
            && (o.move.Goto? && o.move.frame.pc.ClaimVerify? ==>
                  && f.pc.ClaimCas? && o.sh == sh
                  && o.move.frame.pc.w == f.pc.w && sh.mem[f.pc.a] != MarkerOf(f))
            && (o.move.Call? ==>
                  && f.pc.ClaimVerify? && Live(sh, f, Claiming) && o.sh == sh
                  && OpOf(o.move.frame) == OpOf(f)
                  && o.move.frame.pc.ClaimHelping? && o.move.frame.pc.a == f.pc.a)
  {
  }

  // The frame a step leaves in place of `f` keeps the link to f's parent.
  lemma RunningLink(cfg: Config, sh: Shared, h: History, f: Frame, p: Frame, sh': Shared, h': History)
    requires SharedInv(sh, h, cfg.k) && FrameInv(sh, h, cfg.k, f)
    requires InRange(sh, f, cfg.k) && !f.pc.ClaimHelping? && !InitPc(f.pc)
    requires sh' == Exec(sh, f, cfg.k).sh && Rely(sh, h, sh', h', MoverOf(f))
    requires p.pc.ClaimHelping? && Link(cfg, sh, p, f)
    requires cfg.ranked && Live(sh, f, Claiming) ==> Ranked(sh.slots[f.slot].words, cfg.rank)
    ensures var o := Exec(sh, f, cfg.k);
            && (o.move.Goto? ==> Link(cfg, sh', p, o.move.frame))
            && (o.move.Call? ==> Link(cfg, sh', p, o.move.frame))
  {
    ExecShape(sh, f, cfg.k);
    var m := Exec(sh, f, cfg.k).move;
    WatchesStable(sh, h, sh', h', MoverOf(f), p.pc.a, f);
    if m.Goto? && m.frame.pc.ClaimVerify? && Live(sh, f, Claiming) {
      MissIsLater(sh, h, cfg.k, f, p.pc.a);
    } else if m.Call? && cfg.ranked {
      CallClimbs(cfg, sh, h, f, p.pc.a);
    }
  }

  lemma RunningSeen(cfg: Config, sh: Shared, h: History, f: Frame)
    requires FrameInv(sh, h, cfg.k, f)
    requires InRange(sh, f, cfg.k) && !f.pc.ClaimHelping? && SeenStays(sh, f)
    ensures var o := Exec(sh, f, cfg.k);
            && (o.move.Goto? ==> SeenStays(o.sh, o.move.frame))
            && (o.move.Call? ==> SeenStays(o.sh, o.move.frame) && SeenStays(o.sh, o.move.child))
            && (o.move.Call? ==> Link(cfg, o.sh, o.move.frame, o.move.child))
  {
  }

  // --------------------------------------------------------------- worlds

  lemma RestackClimbs(cfg: Config, sh: Shared, stack: seq<Frame>, m: Move)
    requires stack != [] && Climbs(cfg, sh, stack[..|stack| - 1])
    requires m.Goto? || m.Call? ==>
               && (|stack| > 1 ==> Link(cfg, sh, stack[|stack| - 2], m.frame))
               && SeenStays(sh, m.frame)
    requires m.Call? ==> SeenStays(sh, m.child) && Link(cfg, sh, m.frame, m.child)
    ensures Climbs(cfg, sh, Restack(stack, m))
  {
    var below := stack[..|stack| - 1];
    var next := Restack(stack, m);
    forall d | 0 <= d < |next| - 1 ensures LinkAt(cfg, sh, next, d) {
      if d + 1 < |below| {
        assert LinkAt(cfg, sh, below, d);
      }
    }
    forall d | 0 <= d < |next| ensures SeenStays(sh, next[d]) {
      if d < |below| { assert SeenStays(sh, below[d]); }
    }
  }

  lemma ExecuteClimbs(cfg: Config, w: World, w': World, t: nat)
    requires Inv(cfg, w) && PromisesInv(cfg, w) && ClimbInv(cfg, w) && Execute(cfg, w, w', t)
    ensures Climbs(cfg, w'.sh, w'.stacks[t])
  {
    hide Exec;
    hide Restack;
    hide PromisesInv;
    var stack := w.stacks[t];
    var f := Last(stack);
    var o := Exec(w.sh, f, cfg.k);
    assert StackShape(stack, t) && FramesInv(w.sh, w.hist, cfg.k, stack);
    ExecuteInvariant(cfg, w, w', t);
    ClimbsStable(cfg, w, w'.sh, w'.hist, MoverOf(f), t);
    RunningSeen(cfg, w.sh, w.hist, f);
    if |stack| > 1 {
      assert LinkAt(cfg, w.sh, stack, |stack| - 2);
      if Live(w.sh, f, Claiming) { LiveAccepted(cfg, w, f.slot); }
      assert !InitPc(f.pc);
      RunningLink(cfg, w.sh, w.hist, f, stack[|stack| - 2], w'.sh, w'.hist);
    }
    ClimbsBelow(cfg, w'.sh, stack);
    RestackClimbs(cfg, w'.sh, stack, o.move);
  }

  lemma ClimbsBelow(cfg: Config, sh: Shared, stack: seq<Frame>)
    requires stack != [] && Climbs(cfg, sh, stack)
    ensures Climbs(cfg, sh, stack[..|stack| - 1])
  {
    var below := stack[..|stack| - 1];
    forall d | 0 <= d < |below| - 1 ensures LinkAt(cfg, sh, below, d) {
      assert LinkAt(cfg, sh, stack, d);
    }
  }

  lemma NextClimbs(cfg: Config, w: World, w': World)
    requires Inv(cfg, w) && PromisesInv(cfg, w) && ClimbInv(cfg, w) && Next(cfg, w, w')
    ensures ClimbInv(cfg, w')
  {
    hide Exec;
    hide Inv;
    hide PromisesInv;
    hide Climbs;
    if t: nat, words :| Begin(cfg, w, w', t, words) {
      forall u | 0 <= u < |w'.stacks| ensures Climbs(cfg, w'.sh, w'.stacks[u]) {
        assert Climbs(cfg, w.sh, w.stacks[u]);
        FreshClimbs(cfg, w.sh, w'.stacks[u]);
      }
    } else if t: nat :| Execute(cfg, w, w', t) {
      ExecuteClimbs(cfg, w, w', t);
      ExecuteInvariant(cfg, w, w', t);
      forall u | 0 <= u < |w'.stacks| && u != t ensures Climbs(cfg, w'.sh, w'.stacks[u]) {
        ClimbsStable(cfg, w, w'.sh, w'.hist, MoverOf(Last(w.stacks[t])), u);
      }
    }
  }

  lemma FreshClimbs(cfg: Config, sh: Shared, stack: seq<Frame>)
    ensures |stack| == 1 && InitPc(stack[0].pc) ==> Climbs(cfg, sh, stack)
  {
  }

  lemma EmptyClimbs(cfg: Config, w: World)
    requires Init(cfg, w)
    ensures ClimbInv(cfg, w)
  {
    forall u | 0 <= u < |w.stacks| ensures Climbs(cfg, w.sh, w.stacks[u]) {
      assert w.stacks[u] == [];
    }
  }

  lemma {:induction false} RunClimbs(cfg: Config, run: seq<World>, n: nat)
    requires Run(cfg, run) && n < |run|
    ensures ClimbInv(cfg, run[n])
    decreases n
  {
    hide ClimbInv;
    hide PromisesInv;
    hide Inv;
    hide Next;
    if n == 0 {
      EmptyClimbs(cfg, run[0]);
    } else {
      RunClimbs(cfg, run, n - 1);
      RunInvariant(cfg, run, n - 1);
      RunPromises(cfg, run, n - 1);
      assert NextAt(cfg, run, n - 1);
      NextClimbs(cfg, run[n - 1], run[n]);
    }
  }

  // ------------------------------------------------------------- theorems

  // The address at which frame `d` of the stack is waiting for help.
  function TriggerAt(stack: seq<Frame>, d: nat): Addr
    requires d < |stack|
  {
    match stack[d].pc
    case ClaimHelping(_, a, _) => a
    case _ => 0
  }

  lemma {:induction false} StackTriggers(cfg: Config, sh: Shared, stack: seq<Frame>, t: nat, d: nat, e: nat)
    requires cfg.ranked && Climbs(cfg, sh, stack) && StackShape(stack, t)
    requires d < e < |stack| - 1
    ensures Rank(cfg, TriggerAt(stack, d)) < Rank(cfg, TriggerAt(stack, e))
    decreases e
  {
    assert LinkAt(cfg, sh, stack, e - 1);
    if d < e - 1 {
      StackTriggers(cfg, sh, stack, t, d, e - 1);
    }
  }

  // The addresses at which nested helps were triggered strictly increase in
  // rank from the bottom of any thread's stack to its top.
  lemma TriggersIncrease(cfg: Config, run: seq<World>, n: nat, t: nat, d: nat, e: nat)
    requires cfg.ranked && Run(cfg, run) && n < |run| && t < |run[n].stacks|
    requires d < e < |run[n].stacks[t]| - 1
    ensures Rank(cfg, TriggerAt(run[n].stacks[t], d)) < Rank(cfg, TriggerAt(run[n].stacks[t], e))
  {
    RunClimbs(cfg, run, n);
    RunInvariant(cfg, run, n);
    StackTriggers(cfg, run[n].sh, run[n].stacks[t], t, d, e);
  }

  lemma {:induction false} BoundedSet(s: set<nat>, m: nat)
    requires forall a :: a in s ==> a < m
    ensures |s| <= m
    decreases m
  {
    if m > 0 {
      BoundedSet(s - {m - 1}, m - 1);
    } else {
      assert s == {};
    }
  }

  // The set of the first `n` triggers has `n` elements.
  lemma {:induction false} TriggerSet(cfg: Config, run: seq<World>, n: nat, t: nat, m: nat) returns (s: set<nat>)
    requires cfg.ranked && Run(cfg, run) && n < |run| && t < |run[n].stacks|
    requires m < |run[n].stacks[t]|
    ensures |s| == m
    ensures forall a :: a in s <==> exists d :: 0 <= d < m && TriggerAt(run[n].stacks[t], d) == a
    decreases m
  {
    if m == 0 {
      s := {};
    } else {
      var r := TriggerSet(cfg, run, n, t, m - 1);
      var a := TriggerAt(run[n].stacks[t], m - 1);
      forall d | 0 <= d < m - 1 ensures TriggerAt(run[n].stacks[t], d) != a {
        TriggersIncrease(cfg, run, n, t, d, m - 1);
      }
      s := r + {a};
    }
  }

  // Help recursion is at most as deep as there are addresses: a thread's stack
  // never has more frames than addresses plus one.
  lemma HelpDepthBounded(cfg: Config, run: seq<World>, n: nat, t: nat)
    requires cfg.ranked && Run(cfg, run) && n < |run| && t < |run[n].stacks|
    ensures |run[n].stacks[t]| <= |run[n].sh.mem| + 1
  {
    var stack := run[n].stacks[t];
    if stack != [] {
      var s := TriggerSet(cfg, run, n, t, |stack| - 1);
      RunInvariant(cfg, run, n);
      assert StackShape(stack, t) && FramesInv(run[n].sh, run[n].hist, cfg.k, stack);
      forall a | a in s ensures a < |run[n].sh.mem| {
        var d :| 0 <= d < |stack| - 1 && TriggerAt(stack, d) == a;
        assert FrameInv(run[n].sh, run[n].hist, cfg.k, stack[d]);
      }
      BoundedSet(s, |run[n].sh.mem|);
    }
  }
}
