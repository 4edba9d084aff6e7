// The protocol as a step machine. Every atomic load, store or
// compare-and-swap of src/kcas is one step. Each slot's thread is a stack of
// frames: the bottom frame runs the call the slot's owner made, and every
// frame above it helps the operation whose marker the frame below ran into.
module StepMachine {
  import opened KcasTypes

  // What a revert pass does once it has visited word 0.
  datatype AfterRevert =
    | OwnerFails          // reset the slot, report ValueWasNotExpectedValue
    | OwnerSucceeds       // reset the slot, report Ok
    | OwnerLostSequence   // report the fatal sequence error
    | MarkReverted        // helper: CAS Reverting -> Reverted
    | HelpDone            // helper: report Ok
    | HelpOutdated        // helper: report SequenceChangedWhileHelping

  datatype Pc =
    // initialize_operation
    | InitTarget(args: seq<KWord>, w: nat)
    | InitExpected(args: seq<KWord>, w: nat)
    | InitDesired(args: seq<KWord>, w: nat)
    | InitLoad(args: seq<KWord>)
    | InitStage(args: seq<KWord>)
    // claim
    | ClaimLoadTarget(w: nat)
    | ClaimLoadExpected(w: nat, a: Addr)
    | ClaimCas(w: nat, a: Addr, e: Value)
    | ClaimVerify(w: nat, a: Addr, e: Value, actual: Value)
    | ClaimHelping(w: nat, a: Addr, e: Value)
    // change_stage_and_transition out of Claiming
    | DecideSetting
    | DecideReverting(w: nat)
    // set
    | SetLoadTarget(w: nat)
    | SetLoadDesired(w: nat, a: Addr)
    | SetCas(w: nat, a: Addr, d: Value)
    | SetVerify(w: nat)
    // revert
    | RevertLoadTarget(w: nat, after: AfterRevert)
    | RevertLoadExpected(w: nat, a: Addr, after: AfterRevert)
    | RevertCas(w: nat, a: Addr, e: Value, after: AfterRevert)
    // endings
    | FinishSuccessful
    | FinishReverted
    | Prepare(r: Result)
    | HelpLoad
    | Fail(error: Fatal)

  datatype Frame = Frame(slot: nat, seqno: nat, owner: bool, pc: Pc)

  datatype Move =
    | Goto(frame: Frame)
    | Call(frame: Frame, child: Frame)
    | Return(result: Result)

  // What a step means for the operation of the frame that took it.
  datatype Event =
    | Quiet
    | Began(words: seq<KWord>)   // the stage word was stored as Claiming
    | Mismatch(w: nat)           // a live claim found a clean unexpected value
    | Commit                     // Claiming -> Setting
    | Abort                      // Claiming -> Reverting
    | Switched(w: nat)           // a marker was replaced by the desired value
    | Returned(result: Result)   // the owner's call returned

  datatype Outcome = Outcome(sh: Shared, event: Event, move: Move)

  // -------------------------------------------------- atomic shared actions

  function MarkerOf(f: Frame): Value {
    Marker(f.slot, f.seqno)
  }

  function StoreMem(sh: Shared, a: Addr, v: Value): Shared
    requires a < |sh.mem|
  {
    sh.(mem := sh.mem[a := v])
  }

  function StoreStage(sh: Shared, i: nat, stage: Stage, seqno: nat): Shared
    requires i < |sh.slots|
  {
    sh.(slots := sh.slots[i := Slot(stage, seqno, sh.slots[i].words)])
  }

  function StoreWord(sh: Shared, i: nat, w: nat, word: KWord): Shared
    requires i < |sh.slots| && w < |sh.slots[i].words|
  {
    sh.(slots := sh.slots[i := sh.slots[i].(words := sh.slots[i].words[w := word])])
  }

  // ------------------------------------------- reactions to a stage change

  // handle_concurrent_stage_change_and_transition and its helper twin.
  function StageChanged(actual: Stage, owner: bool, k: nat): Pc
    requires k > 0
  {
    match actual
    case Inactive => Fail(IllegalStageChange)
    case Claiming => Fail(IllegalStageChange)
    case Setting => SetLoadTarget(0)
    case Reverting => RevertLoadTarget(k - 1, if owner then OwnerFails else MarkReverted)
    case Reverted => RevertLoadTarget(k - 1, if owner then OwnerFails else HelpDone)
    case Successful => RevertLoadTarget(k - 1, if owner then OwnerSucceeds else HelpDone)
  }

  // The failure path of change_stage_and_transition and its helper twin.
  function CasStageFailed(f: Frame, slot: Slot, k: nat): Pc
    requires k > 0
  {
    if slot.seqno != f.seqno then
      RevertLoadTarget(k - 1, if f.owner then OwnerLostSequence else HelpOutdated)
    else StageChanged(slot.stage, f.owner, k)
  }

  // handle_concurrent_stage_and_sequence_verification_error_and_transition
  // and its helper twin.
  function VerifyFailed(f: Frame, slot: Slot, k: nat): Pc
    requires k > 0
  {
    if slot.seqno != f.seqno then
      if f.owner then Fail(SequenceNumChangedByNonOriginatingThread)
      else RevertLoadTarget(k - 1, HelpOutdated)
    else StageChanged(slot.stage, f.owner, k)
  }

  function AfterClaim(w: nat, k: nat): Pc {
    if w + 1 < k then ClaimLoadTarget(w + 1) else DecideSetting
  }

  function AfterSet(f: Frame, w: nat, k: nat): Pc {
    if w + 1 < k then SetLoadTarget(w + 1)
    else if f.owner then Prepare(Ok) else FinishSuccessful
  }

  function To(f: Frame, pc: Pc): Move {
    Goto(f.(pc := pc))
  }

  function Stay(sh: Shared, f: Frame, pc: Pc): Outcome {
    Outcome(sh, Quiet, To(f, pc))
  }

  // Where a revert pass goes after it has dealt with word `w`.
  function RevertNext(f: Frame, w: nat, after: AfterRevert): Move {
    if w > 0 then To(f, RevertLoadTarget(w - 1, after))
    else
      match after
      case OwnerFails => To(f, Prepare(ValueWasNotExpectedValue))
      case OwnerSucceeds => To(f, Prepare(Ok))
      case OwnerLostSequence => To(f, Fail(SequenceNumChangedByNonOriginatingThread))
      case MarkReverted => To(f, FinishReverted)
      case HelpDone => Return(Ok)
      case HelpOutdated => Return(SequenceChangedWhileHelping)
  }

  // --------------------------------------------------------- one atomic step

  // The frame's operation is in range of the shared state, and so are the
  // word number and the address the frame has loaded.
  predicate InRange(sh: Shared, f: Frame, k: nat) {
    && k > 0
    && f.slot < |sh.slots|
    && |sh.slots[f.slot].words| == k
    && match f.pc
       case InitTarget(args, w) => w < k && |args| == k
       case InitExpected(args, w) => w < k && |args| == k
       case InitDesired(args, w) => w < k && |args| == k
       case InitLoad(args) => |args| == k
       case InitStage(args) => |args| == k
       case ClaimLoadTarget(w) => w < k
       case ClaimLoadExpected(w, a) => w < k && a < |sh.mem|
       case ClaimCas(w, a, e) => w < k && a < |sh.mem|
       case ClaimVerify(w, a, e, actual) => w < k && a < |sh.mem|
       case ClaimHelping(w, a, e) => w < k && a < |sh.mem|
       case DecideReverting(w) => w < k
       case SetLoadTarget(w) => w < k
       case SetLoadDesired(w, a) => w < k && a < |sh.mem|
       case SetCas(w, a, d) => w < k && a < |sh.mem|
       case SetVerify(w) => w < k
       case RevertLoadTarget(w, after) => w < k
       case RevertLoadExpected(w, a, after) => w < k && a < |sh.mem|
       case RevertCas(w, a, e, after) => w < k && a < |sh.mem|
       case _ => true
  }

  function Exec(sh: Shared, f: Frame, k: nat): Outcome
    requires InRange(sh, f, k) && !f.pc.ClaimHelping?
  {
    var slot := sh.slots[f.slot];
    match f.pc
    case InitTarget(args, w) =>
      Stay(StoreWord(sh, f.slot, w, slot.words[w].(target := args[w].target)), f, InitExpected(args, w))
    case InitExpected(args, w) =>
      Stay(StoreWord(sh, f.slot, w, slot.words[w].(expected := args[w].expected)), f, InitDesired(args, w))
    case InitDesired(args, w) =>
      Stay(StoreWord(sh, f.slot, w, slot.words[w].(desired := args[w].desired)), f,
           if w + 1 < k then InitTarget(args, w + 1) else InitLoad(args))
    case InitLoad(args) =>
      Outcome(sh, Quiet, Goto(f.(seqno := slot.seqno, pc := InitStage(args))))
    case InitStage(args) =>
      Outcome(StoreStage(sh, f.slot, Claiming, f.seqno), Began(args), To(f, ClaimLoadTarget(0)))

    case ClaimLoadTarget(w) =>
      (match slot.words[w].target
       case None => Stay(sh, f, Fail(TargetAddressWasNotValidPointer))
       case Some(a) => Stay(sh, f, ClaimLoadExpected(w, a)))
    case ClaimLoadExpected(w, a) =>
      Stay(sh, f, ClaimCas(w, a, slot.words[w].expected))
    case ClaimCas(w, a, e) =>
      if sh.mem[a] == e then Stay(StoreMem(sh, a, MarkerOf(f)), f, AfterClaim(w, k))
      else if sh.mem[a] == MarkerOf(f) then Stay(sh, f, AfterClaim(w, k))
      else
        Outcome(sh,
                if slot.seqno == f.seqno && slot.stage == Claiming && sh.mem[a].Clean? then Mismatch(w) else Quiet,
                To(f, ClaimVerify(w, a, e, sh.mem[a])))
    case ClaimVerify(w, a, e, actual) =>
      if slot.seqno != f.seqno || slot.stage != Claiming then Stay(sh, f, VerifyFailed(f, slot, k))
      else (match actual
            case Clean(_) => Stay(sh, f, DecideReverting(w))
            case Marker(i, s) =>
              Outcome(sh, Quiet, Call(f.(pc := ClaimHelping(w, a, e)), Frame(i, s, false, HelpLoad)))
            case Illegal(_) => Stay(sh, f, Fail(TopBitsOfValueWereIllegal)))

    case DecideSetting =>
      if slot.seqno == f.seqno && slot.stage == Claiming
      then Outcome(StoreStage(sh, f.slot, Setting, f.seqno), Commit, To(f, SetLoadTarget(0)))
      else Stay(sh, f, CasStageFailed(f, slot, k))
    case DecideReverting(w) =>
      if slot.seqno == f.seqno && slot.stage == Claiming
      then Outcome(StoreStage(sh, f.slot, Reverting, f.seqno), Abort,
                   To(f, RevertLoadTarget(w, if f.owner then OwnerFails else MarkReverted)))
      else Stay(sh, f, CasStageFailed(f, slot, k))

    case SetLoadTarget(w) =>
      (match slot.words[w].target
       case None => Stay(sh, f, Fail(TargetAddressWasNotValidPointer))
       case Some(a) => Stay(sh, f, SetLoadDesired(w, a)))
    case SetLoadDesired(w, a) =>
      Stay(sh, f, SetCas(w, a, slot.words[w].desired))
    case SetCas(w, a, d) =>
      if sh.mem[a] == MarkerOf(f)
      then Outcome(StoreMem(sh, a, d), Switched(w), To(f, AfterSet(f, w, k)))
      else Stay(sh, f, SetVerify(w))
    case SetVerify(w) =>
      if slot.seqno != f.seqno || slot.stage != Setting then Stay(sh, f, VerifyFailed(f, slot, k))
      else Stay(sh, f, AfterSet(f, w, k))

    case RevertLoadTarget(w, after) =>
      (match slot.words[w].target
       case None => Stay(sh, f, Fail(TargetAddressWasNotValidPointer))
       case Some(a) => Stay(sh, f, RevertLoadExpected(w, a, after)))
    case RevertLoadExpected(w, a, after) =>
      Stay(sh, f, RevertCas(w, a, slot.words[w].expected, after))
    case RevertCas(w, a, e, after) =>
      Outcome(if sh.mem[a] == MarkerOf(f) then StoreMem(sh, a, e) else sh, Quiet, RevertNext(f, w, after))

    case FinishSuccessful =>
      if slot.seqno == f.seqno && slot.stage == Setting
      then Outcome(StoreStage(sh, f.slot, Successful, f.seqno), Quiet, Return(Ok))
      else Stay(sh, f, CasStageFailed(f, slot, k))
    case FinishReverted =>
      if slot.seqno == f.seqno && slot.stage == Reverting
      then Outcome(StoreStage(sh, f.slot, Reverted, f.seqno), Quiet, Return(Ok))
      else Stay(sh, f, CasStageFailed(f, slot, k))
    case Prepare(r) =>
      Outcome(StoreStage(sh, f.slot, Inactive, f.seqno + 1), Returned(r), Return(r))
    case HelpLoad =>
      if slot.seqno != f.seqno then Outcome(sh, Quiet, Return(SequenceChangedWhileHelping))
      else (match slot.stage
            case Inactive => Stay(sh, f, Fail(IllegalHelpeeStage))
            case Claiming => Stay(sh, f, ClaimLoadTarget(0))
            case Setting => Stay(sh, f, SetLoadTarget(0))
            case Reverting => Stay(sh, f, RevertLoadTarget(k - 1, MarkReverted))
            case Successful => Outcome(sh, Quiet, Return(HelpeeStageIsAlreadyTerminal))
            case Reverted => Outcome(sh, Quiet, Return(HelpeeStageIsAlreadyTerminal)))
    case Fail(error) =>
      Outcome(sh, if f.owner then Returned(Failed(error)) else Quiet, Return(Failed(error)))
  }

  // -------------------------------------------------------------- the world

  // One operation: its slot and the sequence number it ran under.
  datatype OpId = OpId(slot: nat, seqno: nat)

  // What has happened so far. The protocol never reads it.
  datatype History = History(
    began: map<OpId, seq<KWord>>,
    mismatched: set<OpId>,
    committed: set<OpId>,
    aborted: set<OpId>,
    switched: multiset<(OpId, nat)>,
    results: map<OpId, Result>)

  const NO_HISTORY := History(map[], {}, {}, {}, multiset{}, map[])

  function OpOf(f: Frame): OpId {
    OpId(f.slot, f.seqno)
  }

  function Record(h: History, op: OpId, e: Event): History {
    match e
    case Quiet => h
    case Began(words) => h.(began := h.began[op := words])
    case Mismatch(_) => h.(mismatched := h.mismatched + {op})
    case Commit => h.(committed := h.committed + {op})
    case Abort => h.(aborted := h.aborted + {op})
    case Switched(w) => h.(switched := h.switched[(op, w) := h.switched[(op, w)] + 1])
    case Returned(r) => h.(results := h.results[op := r])
  }

  // `taken[t]` is thread_index_slots[t]: some wrapper owns slot `t`.
  datatype World = World(sh: Shared, stacks: seq<seq<Frame>>, taken: seq<bool>, hist: History)

  // The parameters of a run. `k` is NUM_WORDS and `rank` the global order of
  // target addresses. The flags switch on assumptions about the callers:
  //   ranked  every operation lists its targets by increasing rank;
  //   stable  a slot starts an operation only when no helper is still at work
  //           on the slot's previous one;
  //   mono    no word's desired value is below its expected value.
  datatype Config = Config(k: nat, rank: seq<nat>, ranked: bool, stable: bool, mono: bool)

  // A helped operation has ended: the claim that asked for the help retries
  // its compare-and-swap unless the help failed fatally.
  function Resume(parent: Frame, r: Result): Frame {
    if r.Failed? then parent.(pc := Fail(r.error))
    else match parent.pc
         case ClaimHelping(w, a, e) => parent.(pc := ClaimCas(w, a, e))
         case _ => parent
  }

  function Restack(stack: seq<Frame>, m: Move): seq<Frame>
    requires stack != []
  {
    var below := stack[..|stack| - 1];
    match m
    case Goto(f) => below + [f]
    case Call(f, c) => below + [f, c]
    case Return(r) =>
      if below == [] then [] else below[..|below| - 1] + [Resume(Last(below), r)]
  }

  // A helper that has looked at slot `i`'s stage and is still at work on it.
  ghost predicate HelperAtWork(stacks: seq<seq<Frame>>, i: nat) {
    exists t, d :: 0 <= t < |stacks| && 0 <= d < |stacks[t]|
                   && stacks[t][d].slot == i && !stacks[t][d].pc.HelpLoad?
  }

  ghost predicate Init(cfg: Config, w: World) {
    && cfg.k > 0
    && |w.stacks| == |w.taken| == |w.sh.slots|
    && |cfg.rank| == |w.sh.mem|
    && (forall a :: 0 <= a < |w.sh.mem| ==> w.sh.mem[a].Clean?)
    && (forall t :: 0 <= t < |w.stacks| ==>
          && w.stacks[t] == [] && !w.taken[t]
          && w.sh.slots[t] == Slot(Inactive, 0, seq(cfg.k, _ => NULL_WORD)))
    && w.hist == NO_HISTORY
  }

  // A wrapper wins slot `t` in find_next_available_thread_index.
  ghost predicate Acquire(w: World, w': World, t: nat) {
    && t < |w.taken| && !w.taken[t]
    && w' == w.(taken := w.taken[t := true])
  }

  // The wrapper of slot `t` is dropped; a call borrows it exclusively.
  ghost predicate Release(w: World, w': World, t: nat) {
    && t < |w.taken| && w.taken[t] && t < |w.stacks| && w.stacks[t] == []
    && w' == w.(taken := w.taken[t := false])
  }

  ghost predicate Allowed(cfg: Config, w: World, t: nat, words: seq<KWord>) {
    && ValidWords(words, cfg.k, |w.sh.mem|)
    && (cfg.ranked ==> Ranked(words, cfg.rank))
    && (cfg.mono ==> NonDecreasing(words))
    && (cfg.stable ==> !HelperAtWork(w.stacks, t))
  }

  // The owner of slot `t` calls kcas(words).
  ghost predicate Begin(cfg: Config, w: World, w': World, t: nat, words: seq<KWord>) {
    && t < |w.stacks| && t < |w.taken| && w.taken[t] && w.stacks[t] == []
    && Allowed(cfg, w, t, words)
    && w' == w.(stacks := w.stacks[t := [Frame(t, 0, true, InitTarget(words, 0))]])
  }

  ghost predicate Runnable(cfg: Config, w: World, t: nat) {
    && t < |w.stacks| && w.stacks[t] != []
    && InRange(w.sh, Last(w.stacks[t]), cfg.k)
    && !Last(w.stacks[t]).pc.ClaimHelping?
  }

  function After(w: World, t: nat, f: Frame, o: Outcome): World
    requires t < |w.stacks| && w.stacks[t] != []
  {
    World(o.sh, w.stacks[t := Restack(w.stacks[t], o.move)], w.taken, Record(w.hist, OpOf(f), o.event))
  }

  // The thread of slot `t` takes one atomic step.
  ghost predicate Execute(cfg: Config, w: World, w': World, t: nat) {
    && Runnable(cfg, w, t)
    && w' == After(w, t, Last(w.stacks[t]), Exec(w.sh, Last(w.stacks[t]), cfg.k))
  }

  // The weak compare-and-swap of `claim` fails although the value matches;
  // the loop retries it.
  ghost predicate Spurious(cfg: Config, w: World, w': World, t: nat) {
    && Runnable(cfg, w, t)
    && Last(w.stacks[t]).pc.ClaimCas?
    && w' == w
  }

  ghost predicate Next(cfg: Config, w: World, w': World) {
    || (exists t :: Acquire(w, w', t))
    || (exists t :: Release(w, w', t))
    || (exists t, words :: Begin(cfg, w, w', t, words))
    || (exists t :: Execute(cfg, w, w', t))
    || (exists t :: Spurious(cfg, w, w', t))
  }

  ghost predicate Run(cfg: Config, run: seq<World>) {
    && run != []
    && Init(cfg, run[0])
    && forall n :: 0 <= n < |run| - 1 ==> NextAt(cfg, run, n)
  }

  ghost predicate NextAt(cfg: Config, run: seq<World>, n: nat)
    requires n + 1 < |run|
  {
    Next(cfg, run[n], run[n + 1])
  }
}
