// The steps the machine takes when it runs alone, one lemma for each piece of
// straight-line code. They say which state follows which without exposing the
// step function to the proofs of the code. They are used in two places: the imperative
// methods take one of these steps with each atomic access, and the concrete runs are
// put together from them. A state is written as the shared state, the frames below
// the running one, and the running frame with its position.
module SoloSteps {
  import opened KcasTypes
  import opened StepMachine
  import opened ProtocolInvariant
  import opened SoloRuns

  function At(sh: Shared, below: seq<Frame>, f: Frame, pc: Pc): SoloState {
    Running(sh, below, f.(pc := pc))
  }

  // ---------------------------------------------- initialize_operation

  lemma InitSteps(sh: Shared, f: Frame, k: nat, args: seq<KWord>, w: nat)
    requires k > 0 && f.slot < |sh.slots| && |sh.slots[f.slot].words| == k == |args| && w < k
    ensures var word := sh.slots[f.slot].words[w];
            var sh1 := StoreWord(sh, f.slot, w, word.(target := args[w].target));
            var sh2 := StoreWord(sh1, f.slot, w, word.(target := args[w].target, expected := args[w].expected));
            var sh3 := StoreWord(sh2, f.slot, w, args[w]);
            && StepsTo(k, At(sh, [], f, InitTarget(args, w)), At(sh1, [], f, InitExpected(args, w)))
            && StepsTo(k, At(sh1, [], f, InitExpected(args, w)), At(sh2, [], f, InitDesired(args, w)))
            && StepsTo(k, At(sh2, [], f, InitDesired(args, w)), At(sh3, [], f, AfterInit(args, w, k)))
  {
  }

  lemma StoreTwice(sh: Shared, i: nat, w: nat, x: KWord, y: KWord)
    requires i < |sh.slots| && w < |sh.slots[i].words|
    ensures StoreWord(StoreWord(sh, i, w, x), i, w, y) == StoreWord(sh, i, w, y)
  {
    assert sh.slots[i].words[w := x][w := y] == sh.slots[i].words[w := y];
  }

  // The first `w` words of the descriptor have been stored.
  function Filled(sh: Shared, i: nat, args: seq<KWord>, w: nat): Shared
    requires i < |sh.slots| && w <= |args| == |sh.slots[i].words|
  {
    sh.(slots := sh.slots[i := sh.slots[i].(words := args[..w] + sh.slots[i].words[w..])])
  }

  lemma FillStep(sh: Shared, i: nat, args: seq<KWord>, w: nat)
    requires i < |sh.slots| && w < |args| == |sh.slots[i].words|
    ensures StoreWord(Filled(sh, i, args, w), i, w, args[w]) == Filled(sh, i, args, w + 1)
  {
    var words := sh.slots[i].words;
    assert (args[..w] + words[w..])[w := args[w]] == args[..w + 1] + words[w + 1..];
  }

  lemma FillEnds(sh: Shared, i: nat, args: seq<KWord>)
    requires i < |sh.slots| && |args| == |sh.slots[i].words|
    ensures Filled(sh, i, args, 0) == sh
    ensures Filled(sh, i, args, |args|) == sh.(slots := sh.slots[i := sh.slots[i].(words := args)])
  {
    assert args[..0] + sh.slots[i].words[0..] == sh.slots[i].words;
    assert args[..|args|] + sh.slots[i].words[|args|..] == args;
  }

  function AfterInit(args: seq<KWord>, w: nat, k: nat): Pc {
    if w + 1 < k then InitTarget(args, w + 1) else InitLoad(args)
  }

  lemma StartSteps(sh: Shared, f: Frame, k: nat, args: seq<KWord>, seqno: nat)
    requires k > 0 && f.slot < |sh.slots| && |sh.slots[f.slot].words| == k == |args|
    requires sh.slots[f.slot].seqno == seqno
    ensures var g := f.(seqno := seqno);
            && StepsTo(k, At(sh, [], f, InitLoad(args)), At(sh, [], g, InitStage(args)))
            && StepsTo(k, At(sh, [], g, InitStage(args)),
                       At(StoreStage(sh, f.slot, Claiming, seqno), [], g, ClaimLoadTarget(0)))
  {
  }

  // --------------------------------------------------------------- claim

  lemma ClaimLoadSteps(sh: Shared, below: seq<Frame>, f: Frame, k: nat, w: nat)
    requires f.slot < |sh.slots| && |sh.slots[f.slot].words| == k && w < k
    requires sh.slots[f.slot].words[w].target.Some? && sh.slots[f.slot].words[w].target.value < |sh.mem|
    ensures var word := sh.slots[f.slot].words[w];
            var a := word.target.value;
            && StepsTo(k, At(sh, below, f, ClaimLoadTarget(w)), At(sh, below, f, ClaimLoadExpected(w, a)))
            && StepsTo(k, At(sh, below, f, ClaimLoadExpected(w, a)), At(sh, below, f, ClaimCas(w, a, word.expected)))
  {
  }

  function AfterClaimCas(sh: Shared, below: seq<Frame>, f: Frame, k: nat, w: nat, a: Addr, e: Value): SoloState
    requires a < |sh.mem|
  {
    if sh.mem[a] == e then At(StoreMem(sh, a, MarkerOf(f)), below, f, AfterClaim(w, k))
    else if sh.mem[a] == MarkerOf(f) then At(sh, below, f, AfterClaim(w, k))
    else At(sh, below, f, ClaimVerify(w, a, e, sh.mem[a]))
  }

  lemma ClaimCasStep(sh: Shared, below: seq<Frame>, f: Frame, k: nat, w: nat, a: Addr, e: Value)
    requires f.slot < |sh.slots| && |sh.slots[f.slot].words| == k && w < k && a < |sh.mem|
    ensures StepsTo(k, At(sh, below, f, ClaimCas(w, a, e)), AfterClaimCas(sh, below, f, k, w, a, e))
  {
  }

  // A live claim that found `actual` gives up or asks for help.
  function AfterClaimVerify(sh: Shared, below: seq<Frame>, f: Frame, w: nat, a: Addr, e: Value, actual: Value)
    : SoloState
    requires !actual.Illegal?
  {
    match actual
    case Clean(_) => At(sh, below, f, DecideReverting(w))
    case Marker(j, s) => Running(sh, below + [f.(pc := ClaimHelping(w, a, e))], Frame(j, s, false, HelpLoad))
  }

  lemma ClaimCheckStep(sh: Shared, below: seq<Frame>, f: Frame, k: nat, w: nat, a: Addr, e: Value, actual: Value)
    requires Live(sh, f, Claiming) && |sh.slots[f.slot].words| == k && w < k && a < |sh.mem| && !actual.Illegal?
    ensures StepsTo(k, At(sh, below, f, ClaimVerify(w, a, e, actual)), AfterClaimVerify(sh, below, f, w, a, e, actual))
  {
  }

  // ------------------------------------------------- leaving Claiming

  lemma CommitStep(sh: Shared, below: seq<Frame>, f: Frame, k: nat)
    requires k > 0 && Live(sh, f, Claiming) && |sh.slots[f.slot].words| == k
    ensures StepsTo(k, At(sh, below, f, DecideSetting),
                    At(StoreStage(sh, f.slot, Setting, f.seqno), below, f, SetLoadTarget(0)))
  {
  }

  function AfterOf(f: Frame): AfterRevert {
    if f.owner then OwnerFails else MarkReverted
  }

  lemma AbortStep(sh: Shared, below: seq<Frame>, f: Frame, k: nat, w: nat)
    requires w < k && Live(sh, f, Claiming) && |sh.slots[f.slot].words| == k
    ensures StepsTo(k, At(sh, below, f, DecideReverting(w)),
                    At(StoreStage(sh, f.slot, Reverting, f.seqno), below, f, RevertLoadTarget(w, AfterOf(f))))
  {
  }

  // ----------------------------------------------------------------- set

  lemma SetSteps(sh: Shared, below: seq<Frame>, f: Frame, k: nat, w: nat)
    requires Live(sh, f, Setting) && |sh.slots[f.slot].words| == k && w < k
    requires sh.slots[f.slot].words[w].target.Some? && sh.slots[f.slot].words[w].target.value < |sh.mem|
    ensures var word := sh.slots[f.slot].words[w];
            var a := word.target.value;
            && StepsTo(k, At(sh, below, f, SetLoadTarget(w)), At(sh, below, f, SetLoadDesired(w, a)))
            && StepsTo(k, At(sh, below, f, SetLoadDesired(w, a)), At(sh, below, f, SetCas(w, a, word.desired)))
            && StepsTo(k, At(sh, below, f, SetCas(w, a, word.desired)),
                       if sh.mem[a] == MarkerOf(f) then At(StoreMem(sh, a, word.desired), below, f, AfterSet(f, w, k))
                       else At(sh, below, f, SetVerify(w)))
            && StepsTo(k, At(sh, below, f, SetVerify(w)), At(sh, below, f, AfterSet(f, w, k)))
  {
    SetLoadSteps(sh, below, f, k, w);
    SetCheckStep(sh, below, f, k, w);
    var word := sh.slots[f.slot].words[w];
    SetCasStep(sh, below, f, k, w, word.target.value, word.desired);
  }

  lemma SetLoadSteps(sh: Shared, below: seq<Frame>, f: Frame, k: nat, w: nat)
    requires f.slot < |sh.slots| && |sh.slots[f.slot].words| == k && w < k
    requires sh.slots[f.slot].words[w].target.Some? && sh.slots[f.slot].words[w].target.value < |sh.mem|
    ensures var word := sh.slots[f.slot].words[w];
            var a := word.target.value;
            && StepsTo(k, At(sh, below, f, SetLoadTarget(w)), At(sh, below, f, SetLoadDesired(w, a)))
            && StepsTo(k, At(sh, below, f, SetLoadDesired(w, a)), At(sh, below, f, SetCas(w, a, word.desired)))
  {
  }

  lemma SetCasStep(sh: Shared, below: seq<Frame>, f: Frame, k: nat, w: nat, a: Addr, d: Value)
    requires f.slot < |sh.slots| && |sh.slots[f.slot].words| == k && w < k && a < |sh.mem|
    ensures StepsTo(k, At(sh, below, f, SetCas(w, a, d)),
                    if sh.mem[a] == MarkerOf(f) then At(StoreMem(sh, a, d), below, f, AfterSet(f, w, k))
                    else At(sh, below, f, SetVerify(w)))
  {
  }

  lemma SetCheckStep(sh: Shared, below: seq<Frame>, f: Frame, k: nat, w: nat)
    requires Live(sh, f, Setting) && |sh.slots[f.slot].words| == k && w < k
    ensures StepsTo(k, At(sh, below, f, SetVerify(w)), At(sh, below, f, AfterSet(f, w, k)))
  {
  }

  // -------------------------------------------------------------- revert

  function AfterRevertWord(f: Frame, w: nat): Pc {
    if w > 0 then RevertLoadTarget(w - 1, AfterOf(f))
    else if f.owner then Prepare(ValueWasNotExpectedValue)
    else FinishReverted
  }

  lemma RevertSteps(sh: Shared, below: seq<Frame>, f: Frame, k: nat, w: nat)
    requires f.slot < |sh.slots| && |sh.slots[f.slot].words| == k && w < k
    requires sh.slots[f.slot].words[w].target.Some? && sh.slots[f.slot].words[w].target.value < |sh.mem|
    ensures var word := sh.slots[f.slot].words[w];
            var a := word.target.value;
            var after := AfterOf(f);
            && StepsTo(k, At(sh, below, f, RevertLoadTarget(w, after)),
                       At(sh, below, f, RevertLoadExpected(w, a, after)))
            && StepsTo(k, At(sh, below, f, RevertLoadExpected(w, a, after)),
                       At(sh, below, f, RevertCas(w, a, word.expected, after)))
            && StepsTo(k, At(sh, below, f, RevertCas(w, a, word.expected, after)),
                       At(if sh.mem[a] == MarkerOf(f) then StoreMem(sh, a, word.expected) else sh,
                          below, f, AfterRevertWord(f, w)))
  {
  }

  // ------------------------------------------------------------- endings

  // The help asked for by `parent` has succeeded.
  function HelpEnds(sh: Shared, below: seq<Frame>, parent: Frame): SoloState {
    Running(sh, below, Resume(parent, Ok))
  }

  lemma HelpEndStep(sh: Shared, below: seq<Frame>, parent: Frame, f: Frame, k: nat)
    requires k > 0 && f.slot < |sh.slots| && |sh.slots[f.slot].words| == k
    ensures Live(sh, f, Setting) ==>
              StepsTo(k, At(sh, below + [parent], f, FinishSuccessful),
                      HelpEnds(StoreStage(sh, f.slot, Successful, f.seqno), below, parent))
    ensures Live(sh, f, Reverting) ==>
              StepsTo(k, At(sh, below + [parent], f, FinishReverted),
                      HelpEnds(StoreStage(sh, f.slot, Reverted, f.seqno), below, parent))
  {
    assert (below + [parent])[..|below|] == below;
  }

  lemma ResetStep(sh: Shared, f: Frame, k: nat, r: Result)
    requires k > 0 && f.slot < |sh.slots| && |sh.slots[f.slot].words| == k
    ensures StepsTo(k, At(sh, [], f, Prepare(r)), Halted(StoreStage(sh, f.slot, Inactive, f.seqno + 1), r))
  {
  }

  lemma HelpEntryStep(sh: Shared, below: seq<Frame>, f: Frame, k: nat)
    requires k > 0 && Current(sh, f) && |sh.slots[f.slot].words| == k && !f.owner
    ensures Live(sh, f, Claiming) ==> StepsTo(k, At(sh, below, f, HelpLoad), At(sh, below, f, ClaimLoadTarget(0)))
    ensures Live(sh, f, Setting) ==> StepsTo(k, At(sh, below, f, HelpLoad), At(sh, below, f, SetLoadTarget(0)))
    ensures Live(sh, f, Reverting) ==>
              StepsTo(k, At(sh, below, f, HelpLoad), At(sh, below, f, RevertLoadTarget(k - 1, AfterOf(f))))
  {
  }

  // The cases in which there is nothing to help.
  function RefusedHelp(slot: Slot, encountered: nat): Result {
    if slot.seqno != encountered then SequenceChangedWhileHelping
    else if slot.stage == Inactive then Failed(IllegalHelpeeStage)
    else HelpeeStageIsAlreadyTerminal
  }

  lemma HelpRefusedSteps(sh: Shared, below: seq<Frame>, parent: Frame, f: Frame, k: nat)
    requires k > 0 && f.slot < |sh.slots| && |sh.slots[f.slot].words| == k && !f.owner
    requires sh.slots[f.slot].seqno != f.seqno || sh.slots[f.slot].stage == Inactive
             || sh.slots[f.slot].stage == Successful || sh.slots[f.slot].stage == Reverted
    ensures var r := RefusedHelp(sh.slots[f.slot], f.seqno);
            if r.Failed? then
              && StepsTo(k, At(sh, below + [parent], f, HelpLoad), At(sh, below + [parent], f, Fail(r.error)))
              && StepsTo(k, At(sh, below + [parent], f, Fail(r.error)), Running(sh, below, Resume(parent, r)))
            else StepsTo(k, At(sh, below + [parent], f, HelpLoad), Running(sh, below, Resume(parent, r)))
  {
    assert (below + [parent])[..|below|] == below;
  }

  // Where `help_thread` goes from its load of the stage word.
  function AfterHelpLoad(sh: Shared, below: seq<Frame>, parent: Frame, f: Frame, k: nat): SoloState
    requires f.slot < |sh.slots| && k > 0
  {
    var slot, r := sh.slots[f.slot], RefusedHelp(sh.slots[f.slot], f.seqno);
    if slot.seqno != f.seqno then Running(sh, below, Resume(parent, r))
    else match slot.stage
         case Inactive => At(sh, below + [parent], f, Fail(IllegalHelpeeStage))
         case Claiming => At(sh, below + [parent], f, ClaimLoadTarget(0))
         case Setting => At(sh, below + [parent], f, SetLoadTarget(0))
         case Reverting => At(sh, below + [parent], f, RevertLoadTarget(k - 1, MarkReverted))
         case _ => Running(sh, below, Resume(parent, r))
  }
}
