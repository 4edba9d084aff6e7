// Runs on machine words. While sequence numbers stay below the bound of the
// packings, every reachable state is represented exactly by packed words, and
// every comparison the protocol makes has the same outcome on them.
module PackedRuns {
  import opened KcasTypes
  import opened StepMachine
  import opened ProtocolInvariant
  import opened CallerPromises
  import opened SafetyTheorems
  import opened Packing

  // ------------------------------------------------ where user values come from

  // The user values the callers may use.
  datatype Words = Words(bits: nat, numThreads: nat)

  ghost predicate Good(u: Words, v: Value)
    requires Supported(u.bits, u.numThreads)
  {
    v.Clean? ==> Storable(u.bits, u.numThreads, v)
  }

  ghost predicate GoodWords(u: Words, words: seq<KWord>)
    requires Supported(u.bits, u.numThreads)
  {
    forall x :: 0 <= x < |words| ==> Good(u, words[x].expected) && Good(u, words[x].desired)
  }

  ghost predicate GoodFrame(u: Words, f: Frame)
    requires Supported(u.bits, u.numThreads)
  {
    match f.pc
    case InitTarget(args, _) => GoodWords(u, args)
    case InitExpected(args, _) => GoodWords(u, args)
    case InitDesired(args, _) => GoodWords(u, args)
    case ClaimCas(_, _, e) => Good(u, e)
    case ClaimVerify(_, _, e, _) => Good(u, e)
    case ClaimHelping(_, _, e) => Good(u, e)
    case SetCas(_, _, d) => Good(u, d)
    case RevertCas(_, _, e, _) => Good(u, e)
    case _ => true
  }

  ghost predicate GoodShared(u: Words, sh: Shared)
    requires Supported(u.bits, u.numThreads)
  {
    && (forall a :: 0 <= a < |sh.mem| ==> Good(u, sh.mem[a]))
    && (forall i :: 0 <= i < |sh.slots| ==> GoodWords(u, sh.slots[i].words))
  }

  ghost predicate GoodStack(u: Words, stack: seq<Frame>)
    requires Supported(u.bits, u.numThreads)
  {
    forall d :: 0 <= d < |stack| ==> GoodFrame(u, stack[d])
  }

  ghost predicate GoodWorld(u: Words, w: World)
    requires Supported(u.bits, u.numThreads)
  {
    && GoodShared(u, w.sh)
    && forall t :: 0 <= t < |w.stacks| ==> GoodStack(u, w.stacks[t])
  }

  // The words fit the machine: a slot for each of the threads, zero and the values
  // of the first memory storable, and the values of every call.
  ghost predicate GoodRun(cfg: Config, run: seq<World>, u: Words)
    requires Supported(u.bits, u.numThreads)
  {
    && Run(cfg, run) && |run[0].sh.slots| == u.numThreads && GoodShared(u, run[0].sh)
    && forall n :: 0 <= n < |run| - 1 ==> GoodCallsAt(cfg, WordsFit(u), run, n)
  }

  ghost function WordsFit(u: Words): seq<KWord> -> bool
    requires Supported(u.bits, u.numThreads)
  {
    words => GoodWords(u, words)
  }

  lemma ExecGood(u: Words, sh: Shared, f: Frame, k: nat)
    requires Supported(u.bits, u.numThreads)
    requires InRange(sh, f, k) && !f.pc.ClaimHelping? && GoodShared(u, sh) && GoodFrame(u, f)
    ensures GoodOutcome(u, Exec(sh, f, k))
  {
    if ClaimPc(f.pc) {
      ExecGoodClaim(u, sh, f, k);
    } else if InitPc(f.pc) {
      ExecGoodInit(u, sh, f, k);
    } else if SetPc(f.pc) || RevertPc(f.pc) {
      ExecGoodCleaning(u, sh, f, k);
    } else {
      ExecGoodOther(u, sh, f, k);
    }
  }

  ghost predicate GoodOutcome(u: Words, o: Outcome)
    requires Supported(u.bits, u.numThreads)
  {
    && GoodShared(u, o.sh)
    && (o.move.Goto? || o.move.Call? ==> GoodFrame(u, o.move.frame))
    && (o.move.Call? ==> GoodFrame(u, o.move.child))
  }

  lemma ExecGoodCleaning(u: Words, sh: Shared, f: Frame, k: nat)
    requires Supported(u.bits, u.numThreads)
    requires InRange(sh, f, k) && (SetPc(f.pc) || RevertPc(f.pc)) && GoodShared(u, sh) && GoodFrame(u, f)
    ensures GoodOutcome(u, Exec(sh, f, k))
  {
    hide Good;
  }

  lemma ExecGoodOther(u: Words, sh: Shared, f: Frame, k: nat)
    requires Supported(u.bits, u.numThreads)
    requires InRange(sh, f, k) && !ClaimPc(f.pc) && !InitPc(f.pc) && !SetPc(f.pc) && !RevertPc(f.pc)
    requires !f.pc.ClaimHelping? && GoodShared(u, sh) && GoodFrame(u, f)
    ensures GoodOutcome(u, Exec(sh, f, k))
  {
    hide Good;
  }

  lemma ExecGoodInit(u: Words, sh: Shared, f: Frame, k: nat)
    requires Supported(u.bits, u.numThreads)
    requires InRange(sh, f, k) && InitPc(f.pc) && GoodShared(u, sh) && GoodFrame(u, f)
    ensures GoodOutcome(u, Exec(sh, f, k))
  {
    hide Good;
  }

  lemma ExecGoodClaim(u: Words, sh: Shared, f: Frame, k: nat)
    requires Supported(u.bits, u.numThreads)
    requires InRange(sh, f, k) && ClaimPc(f.pc) && GoodShared(u, sh) && GoodFrame(u, f)
    ensures GoodOutcome(u, Exec(sh, f, k))
  {
    hide Storable;
  }

  lemma RestackGood(u: Words, stack: seq<Frame>, m: Move)
    requires Supported(u.bits, u.numThreads) && stack != [] && GoodStack(u, stack)
    requires m.Goto? || m.Call? ==> GoodFrame(u, m.frame)
    requires m.Call? ==> GoodFrame(u, m.child)
    ensures GoodStack(u, Restack(stack, m))
  {
    hide Storable;
  }

  lemma NextGood(cfg: Config, w: World, w': World, u: Words)
    requires Supported(u.bits, u.numThreads) && GoodWorld(u, w) && Next(cfg, w, w')
    requires GoodCalls(cfg, WordsFit(u), w, w')
    ensures GoodWorld(u, w')
  {
    hide Exec;
    hide Good;
    if t: nat, words :| Begin(cfg, w, w', t, words) {
      assert WordsFit(u)(words);
    } else if t: nat :| Execute(cfg, w, w', t) {
      var f := Last(w.stacks[t]);
      assert GoodStack(u, w.stacks[t]);
      ExecGood(u, w.sh, f, cfg.k);
      RestackGood(u, w.stacks[t], Exec(w.sh, f, cfg.k).move);
    }
  }

  lemma {:induction false} RunGood(cfg: Config, run: seq<World>, u: Words, n: nat)
    requires Supported(u.bits, u.numThreads) && GoodRun(cfg, run, u) && n < |run|
    ensures GoodWorld(u, run[n])
    decreases n
  {
    if n > 0 {
      RunGood(cfg, run, u, n - 1);
      assert NextAt(cfg, run, n - 1) && GoodCallsAt(cfg, WordsFit(u), run, n - 1);
      NextGood(cfg, run[n - 1], run[n], u);
    }
  }

  // --------------------------------------------------------- exact states

  ghost predicate BelowBound(u: Words, sequence: nat)
    requires Supported(u.bits, u.numThreads)
  {
    sequence < Pow2(SequenceBits(u.bits, u.numThreads)) && sequence < Pow2(u.bits - STAGE_BIT_LENGTH)
  }

  ghost predicate SequencesFit(u: Words, sh: Shared)
    requires Supported(u.bits, u.numThreads)
  {
    forall i :: 0 <= i < |sh.slots| ==> BelowBound(u, sh.slots[i].seqno)
  }

  function PackMem(u: Words, sh: Shared): seq<nat>
    requires Supported(u.bits, u.numThreads)
  {
    seq(|sh.mem|, a requires 0 <= a < |sh.mem| => Encode(u.bits, u.numThreads, sh.mem[a]))
  }

  function PackStage(u: Words, slot: Slot): nat
    requires Supported(u.bits, u.numThreads)
  {
    ConstructStageAndSequence(u.bits, slot.stage, slot.seqno)
  }

  // A new state is words of zeros: that is how its stage words and the values in its
  // descriptors are packed, and how words of zeros read.
  lemma NewStateIsZeros(cfg: Config, w: World, u: Words)
    requires Supported(u.bits, u.numThreads) && Init(cfg, w)
    ensures forall i :: 0 <= i < |w.sh.slots| ==> PackStage(u, w.sh.slots[i]) == 0
    ensures forall i, x :: 0 <= i < |w.sh.slots| && 0 <= x < cfg.k ==>
              && |w.sh.slots[i].words| == cfg.k && w.sh.slots[i].words[x].target == None
              && Encode(u.bits, u.numThreads, w.sh.slots[i].words[x].expected) == 0
              && Encode(u.bits, u.numThreads, w.sh.slots[i].words[x].desired) == 0
    ensures ExtractStage(u.bits, 0) == Some(Inactive) && ExtractSequenceOfStage(u.bits, 0) == 0
    ensures Decode(u.bits, u.numThreads, 0) == Clean(0)
  {
    StageWordIs(u.bits, Inactive, 0);
    StageReadings(u.bits, 0);
    ZeroIsClean(u.bits, u.numThreads);
  }

  lemma ZeroIsClean(bits: nat, numThreads: nat)
    requires Supported(bits, numThreads)
    ensures Decode(bits, numThreads, 0) == Clean(0)
  {
    MarkerRange(bits, numThreads, 0);
  }

  // Every target word reads back as the value it stands for and every stage word as
  // its stage and sequence. In particular no stage is ever out of bounds.
  lemma StatesPackExactly(cfg: Config, run: seq<World>, u: Words, n: nat)
    requires Supported(u.bits, u.numThreads) && GoodRun(cfg, run, u) && n < |run| && SequencesFit(u, run[n].sh)
    ensures Represents(u.bits, u.numThreads, PackMem(u, run[n].sh), run[n].sh.mem)
    ensures forall a :: 0 <= a < |run[n].sh.mem| ==>
              Decode(u.bits, u.numThreads, PackMem(u, run[n].sh)[a]) == run[n].sh.mem[a]
    ensures forall i :: 0 <= i < |run[n].sh.slots| ==>
              && ExtractStage(u.bits, PackStage(u, run[n].sh.slots[i])) == Some(run[n].sh.slots[i].stage)
              && ExtractSequenceOfStage(u.bits, PackStage(u, run[n].sh.slots[i])) == run[n].sh.slots[i].seqno
  {
    hide Encode;
    hide Decode;
    var sh := run[n].sh;
    forall a | 0 <= a < |sh.mem|
      ensures Cell(u.bits, u.numThreads, PackMem(u, sh)[a], sh.mem[a])
      ensures Decode(u.bits, u.numThreads, PackMem(u, sh)[a]) == sh.mem[a]
    {
      ValueStorable(cfg, run, u, n, sh.mem[a]);
      DecodeEncode(u.bits, u.numThreads, sh.mem[a]);
    }
    forall i | 0 <= i < |sh.slots|
      ensures ExtractStage(u.bits, PackStage(u, sh.slots[i])) == Some(sh.slots[i].stage)
      ensures ExtractSequenceOfStage(u.bits, PackStage(u, sh.slots[i])) == sh.slots[i].seqno
    {
      assert BelowBound(u, sh.slots[i].seqno);
      StageRoundTrip(u.bits, sh.slots[i].stage, sh.slots[i].seqno);
    }
  }

  lemma ValueStorable(cfg: Config, run: seq<World>, u: Words, n: nat, v: Value)
    requires Supported(u.bits, u.numThreads) && GoodRun(cfg, run, u) && n < |run| && SequencesFit(u, run[n].sh)
    requires v in run[n].sh.mem
    ensures Storable(u.bits, u.numThreads, v)
  {
    RunGood(cfg, run, u, n);
    RunInvariant(cfg, run, n);
    assert ValueInv(run[n].sh, v) && Good(u, v);
    if v.Marker? { MarkerStorable(cfg, run, u, n, v.slot, v.seqno); }
  }

  lemma MarkerStorable(cfg: Config, run: seq<World>, u: Words, n: nat, i: nat, s: nat)
    requires Supported(u.bits, u.numThreads) && GoodRun(cfg, run, u) && n < |run| && SequencesFit(u, run[n].sh)
    requires i < |run[n].sh.slots| && s <= run[n].sh.slots[i].seqno
    ensures Storable(u.bits, u.numThreads, Marker(i, s)) && BelowBound(u, s)
  {
    SlotsAdvance(cfg, run, 0, n, 0);
    assert BelowBound(u, run[n].sh.slots[i].seqno);
  }

  // ------------------------------------------------------ exact comparisons

  // The value a compare-and-swap on a target word compares with.
  function Compared(f: Frame): Value {
    if f.pc.ClaimCas? then f.pc.e else MarkerOf(f)
  }

  // Whatever a thread in flight compares a target word with, the packed words are
  // equal exactly when the values are; and so are packed stage words.
  lemma ComparisonsAgree(cfg: Config, run: seq<World>, u: Words, n: nat, t: nat, d: nat, a: Addr, stage: Stage)
    requires Supported(u.bits, u.numThreads) && GoodRun(cfg, run, u) && n < |run| && SequencesFit(u, run[n].sh)
    requires t < |run[n].stacks| && d < |run[n].stacks[t]| && !InitPc(run[n].stacks[t][d].pc)
    requires a < |run[n].sh.mem|
    ensures var f := run[n].stacks[t][d];
            Encode(u.bits, u.numThreads, run[n].sh.mem[a]) == Encode(u.bits, u.numThreads, Compared(f))
            <==> run[n].sh.mem[a] == Compared(f)
    ensures var f := run[n].stacks[t][d];
            f.slot < |run[n].sh.slots| &&
            (PackStage(u, run[n].sh.slots[f.slot]) == ConstructStageAndSequence(u.bits, stage, f.seqno)
             <==> run[n].sh.slots[f.slot].stage == stage && run[n].sh.slots[f.slot].seqno == f.seqno)
  {
    hide Encode;
    var sh, f := run[n].sh, run[n].stacks[t][d];
    ComparedStorable(cfg, run, u, n, t, d);
    ValueStorable(cfg, run, u, n, sh.mem[a]);
    EncodeInjective(u.bits, u.numThreads, sh.mem[a], Compared(f));
    assert BelowBound(u, sh.slots[f.slot].seqno);
    StageWordsInjective(u.bits, sh.slots[f.slot].stage, sh.slots[f.slot].seqno, stage, f.seqno);
  }

  lemma ComparedStorable(cfg: Config, run: seq<World>, u: Words, n: nat, t: nat, d: nat)
    requires Supported(u.bits, u.numThreads) && GoodRun(cfg, run, u) && n < |run| && SequencesFit(u, run[n].sh)
    requires t < |run[n].stacks| && d < |run[n].stacks[t]| && !InitPc(run[n].stacks[t][d].pc)
    ensures run[n].stacks[t][d].slot < |run[n].sh.slots| && BelowBound(u, run[n].stacks[t][d].seqno)
    ensures Storable(u.bits, u.numThreads, Compared(run[n].stacks[t][d]))
  {
    RunInvariant(cfg, run, n);
    RunGood(cfg, run, u, n);
    var f := run[n].stacks[t][d];
    assert FramesInv(run[n].sh, run[n].hist, cfg.k, run[n].stacks[t]) && GoodStack(u, run[n].stacks[t]);
    assert FrameInv(run[n].sh, run[n].hist, cfg.k, f) && GoodFrame(u, f);
    MarkerStorable(cfg, run, u, n, f.slot, f.seqno);
  }
}
