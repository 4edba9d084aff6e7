// The callers' promises, carried from the arguments of a call to the
// descriptor every helper reads.
module CallerPromises {
  import opened KcasTypes
  import opened StepMachine
  import opened ProtocolInvariant

  ghost predicate Accepted(cfg: Config, words: seq<KWord>) {
    && DistinctTargets(words)
    && (cfg.ranked ==> Ranked(words, cfg.rank))
    && (cfg.mono ==> NonDecreasing(words))
  }

  ghost function AcceptedBy(cfg: Config): seq<KWord> -> bool {
    words => Accepted(cfg, words)
  }

  // ------------------------------------------- arguments on their way

  ghost predicate FrameArgs(good: seq<KWord> -> bool, f: Frame) {
    match f.pc
    case InitTarget(args, _) => good(args)
    case InitExpected(args, _) => good(args)
    case InitDesired(args, _) => good(args)
    case InitLoad(args) => good(args)
    case InitStage(args) => good(args)
    case _ => true
  }

  ghost predicate StackArgs(good: seq<KWord> -> bool, stack: seq<Frame>) {
    stack != [] ==> FrameArgs(good, Last(stack))
  }

  // All arguments under way and on record are good.
  ghost predicate GoodArgs(good: seq<KWord> -> bool, w: World) {
    && (forall t :: 0 <= t < |w.stacks| ==> StackArgs(good, w.stacks[t]))
    && (forall op :: op in w.hist.began ==> good(w.hist.began[op]))
  }

  lemma ExecArgs(good: seq<KWord> -> bool, sh: Shared, f: Frame, k: nat)
    requires InRange(sh, f, k) && !f.pc.ClaimHelping? && FrameArgs(good, f)
    ensures var o := Exec(sh, f, k);
            && (o.move.Goto? ==> FrameArgs(good, o.move.frame))
            && (o.move.Call? ==> FrameArgs(good, o.move.child))
            && (o.event.Began? ==> good(o.event.words))
  {
  }

  ghost predicate GoodCalls(cfg: Config, good: seq<KWord> -> bool, w: World, w': World) {
    forall t, words :: Begin(cfg, w, w', t, words) ==> good(words)
  }

  lemma NextArgs(cfg: Config, good: seq<KWord> -> bool, w: World, w': World)
    requires Inv(cfg, w) && GoodArgs(good, w) && Next(cfg, w, w') && GoodCalls(cfg, good, w, w')
    ensures GoodArgs(good, w')
  {
    if t: nat, words :| Begin(cfg, w, w', t, words) {
      forall u | 0 <= u < |w'.stacks| ensures StackArgs(good, w'.stacks[u]) {
        assert StackArgs(good, w.stacks[u]);
      }
    } else if t: nat :| Execute(cfg, w, w', t) {
      ExecuteArgs(cfg, good, w, w', t);
    }
  }

  lemma RecordArgs(good: seq<KWord> -> bool, h: History, op: OpId, e: Event)
    requires forall p :: p in h.began ==> good(h.began[p])
    requires e.Began? ==> good(e.words)
    ensures forall p :: p in Record(h, op, e).began ==> good(Record(h, op, e).began[p])
  {
  }

  lemma RestackArgs(good: seq<KWord> -> bool, stack: seq<Frame>, t: nat, m: Move)
    requires stack != [] && StackShape(stack, t)
    requires m.Goto? ==> FrameArgs(good, m.frame)
    requires m.Call? ==> FrameArgs(good, m.child)
    ensures StackArgs(good, Restack(stack, m))
  {
  }

  lemma ExecuteArgs(cfg: Config, good: seq<KWord> -> bool, w: World, w': World, t: nat)
    requires Inv(cfg, w) && GoodArgs(good, w) && Execute(cfg, w, w', t)
    ensures GoodArgs(good, w')
  {
    hide Exec;
    hide Restack;
    hide Record;
    var f := Last(w.stacks[t]);
    var o := Exec(w.sh, f, cfg.k);
    assert StackArgs(good, w.stacks[t]) && StackShape(w.stacks[t], t);
    ExecArgs(good, w.sh, f, cfg.k);
    RecordArgs(good, w.hist, OpOf(f), o.event);
    RestackArgs(good, w.stacks[t], t, o.move);
    forall u | 0 <= u < |w'.stacks| ensures StackArgs(good, w'.stacks[u]) {
      assert StackArgs(good, w.stacks[u]);
    }
  }

  // What every call of a run satisfies, every argument satisfies.
  ghost predicate GoodCallsAt(cfg: Config, good: seq<KWord> -> bool, run: seq<World>, n: nat)
    requires n + 1 < |run|
  {
    GoodCalls(cfg, good, run[n], run[n + 1])
  }

  lemma {:induction false} RunArgs(cfg: Config, good: seq<KWord> -> bool, run: seq<World>, n: nat)
    requires Run(cfg, run) && n < |run| && forall m :: 0 <= m < |run| - 1 ==> GoodCallsAt(cfg, good, run, m)
    ensures GoodArgs(good, run[n])
    decreases n
  {
    if n > 0 {
      RunArgs(cfg, good, run, n - 1);
      RunInvariant(cfg, run, n - 1);
      assert NextAt(cfg, run, n - 1) && GoodCallsAt(cfg, good, run, n - 1);
      NextArgs(cfg, good, run[n - 1], run[n]);
    }
  }

  // ------------------------------------------------- the callers' promises

  ghost predicate PromisesInv(cfg: Config, w: World) {
    GoodArgs(AcceptedBy(cfg), w)
  }

  lemma RunPromises(cfg: Config, run: seq<World>, n: nat)
    requires Run(cfg, run) && n < |run|
    ensures PromisesInv(cfg, run[n])
  {
    forall m | 0 <= m < |run| - 1 ensures GoodCallsAt(cfg, AcceptedBy(cfg), run, m) {
      CallsAccepted(cfg, run[m], run[m + 1]);
    }
    RunArgs(cfg, AcceptedBy(cfg), run, n);
  }

  lemma CallsAccepted(cfg: Config, w: World, w': World)
    ensures GoodCalls(cfg, AcceptedBy(cfg), w, w')
  {
  }

  // A live operation's descriptor is what its caller passed in, and it keeps the
  // caller's promises.
  lemma LiveAccepted(cfg: Config, w: World, i: nat)
    requires Inv(cfg, w) && PromisesInv(cfg, w)
    requires i < |w.sh.slots| && w.sh.slots[i].stage != Inactive
    ensures Accepted(cfg, w.sh.slots[i].words)
    ensures var op := OpId(i, w.sh.slots[i].seqno);
            op in w.hist.began && w.hist.began[op] == w.sh.slots[i].words
  {
    assert SlotHistory(w.sh, w.hist, i);
  }

  // The same in every state of every run.
  lemma DescriptorIsArgument(cfg: Config, run: seq<World>, n: nat, i: nat)
    requires Run(cfg, run) && n < |run|
    requires i < |run[n].sh.slots| && run[n].sh.slots[i].stage != Inactive
    ensures Accepted(cfg, run[n].sh.slots[i].words)
    ensures var op := OpId(i, run[n].sh.slots[i].seqno);
            op in run[n].hist.began && run[n].hist.began[op] == run[n].sh.slots[i].words
  {
    RunInvariant(cfg, run, n);
    RunPromises(cfg, run, n);
    LiveAccepted(cfg, run[n], i);
  }
}
