// The invariant every run keeps, whatever the callers do with descriptor reuse
// and recurring values. It is proved by rely and guarantee: a step of one
// thread changes the shared state only in the ways `Rely` allows, and what a
// frame knows about the shared state survives every such change.
// The first part states the invariant for slots, values, history, frames and
// stacks; the second shows what one thread's step may do to the knowledge of the
// others; the third proves the invariant step by step, one lemma for each kind of
// frame position, and carries it along runs.
module ProtocolInvariant {
  import opened KcasTypes
  import opened StepMachine

  // --------------------------------------------------------- slot by slot

  // Operation (i, s) has been started.
  ghost predicate Started(sh: Shared, i: nat, s: nat) {
    && i < |sh.slots|
    && (s < sh.slots[i].seqno || (s == sh.slots[i].seqno && sh.slots[i].stage != Inactive))
  }

  // Operation (i, s) has been reset.
  ghost predicate Finished(sh: Shared, i: nat, s: nat) {
    i < |sh.slots| && s < sh.slots[i].seqno
  }

  ghost predicate WordShape(word: KWord, size: nat) {
    && (word.target.Some? ==> word.target.value < size)
    && word.expected.Clean? && word.desired.Clean?
  }

  ghost predicate WordsShape(words: seq<KWord>, k: nat, size: nat) {
    && |words| == k
    && forall x :: 0 <= x < k ==> WordShape(words[x], size)
  }

  ghost predicate AllTargets(words: seq<KWord>) {
    forall x :: 0 <= x < |words| ==> words[x].target.Some?
  }

  ghost predicate IsSwitched(h: History, op: OpId, x: nat) {
    h.switched[(op, x)] > 0
  }

  ghost predicate AllSwitched(h: History, op: OpId, n: nat) {
    forall x :: 0 <= x < n ==> IsSwitched(h, op, x)
  }

  ghost predicate MarkedUpTo(sh: Shared, i: nat, n: nat) {
    forall x :: 0 <= x < n ==> Marked(sh, i, x)
  }

  // The words that hold a claiming operation's marker form a prefix.
  ghost predicate PrefixMarked(sh: Shared, i: nat) {
    forall y :: Marked(sh, i, y) ==> MarkedUpTo(sh, i, y)
  }

  // A live operation's marker lies only in the operation's own targets.
  ghost predicate MarkersAtHome(sh: Shared, i: nat)
    requires i < |sh.slots|
  {
    forall a :: 0 <= a < |sh.mem| && sh.mem[a] == Marker(i, sh.slots[i].seqno)
      ==> WordAt(sh.slots[i].words, a) < |sh.slots[i].words|
  }

  ghost predicate SlotShape(sh: Shared, k: nat, i: nat) {
    && i < |sh.slots|
    && WordsShape(sh.slots[i].words, k, |sh.mem|)
    && ((sh.slots[i].seqno > 0 || sh.slots[i].stage != Inactive) ==> AllTargets(sh.slots[i].words))
    && (sh.slots[i].stage != Inactive ==> DistinctTargets(sh.slots[i].words))
  }

  ghost predicate SlotMarks(sh: Shared, h: History, k: nat, i: nat) {
    && i < |sh.slots|
    && MarkersAtHome(sh, i)
    && (sh.slots[i].stage == Claiming ==> PrefixMarked(sh, i))
    && (sh.slots[i].stage == Setting ==>
          forall x :: 0 <= x < k ==> Marked(sh, i, x) || IsSwitched(h, OpId(i, sh.slots[i].seqno), x))
    && (sh.slots[i].stage == Successful ==> AllSwitched(h, OpId(i, sh.slots[i].seqno), k))
  }

  ghost predicate ValueInv(sh: Shared, v: Value) {
    match v
    case Clean(_) => true
    case Marker(i, s) => Started(sh, i, s)
    case Illegal(_) => false
  }

  ghost predicate SharedInv(sh: Shared, h: History, k: nat) {
    && k > 0
    && (forall i :: 0 <= i < |sh.slots| ==> SlotShape(sh, k, i))
    && (forall i :: 0 <= i < |sh.slots| ==> SlotMarks(sh, h, k, i))
    && (forall a :: 0 <= a < |sh.mem| ==> ValueInv(sh, sh.mem[a]))
  }

  // ----------------------------------------------------------- the history

  ghost predicate Undone(stage: Stage) {
    stage == Reverting || stage == Reverted
  }

  // The history agrees with the current stage of every slot.
  ghost predicate SlotHistory(sh: Shared, h: History, i: nat) {
    && i < |sh.slots|
    && var op := OpId(i, sh.slots[i].seqno);
    && (Committed(sh.slots[i].stage) <==> op in h.committed)
    && (Undone(sh.slots[i].stage) <==> op in h.aborted)
    && (sh.slots[i].stage != Inactive ==> op in h.began && h.began[op] == sh.slots[i].words)
  }

  ghost predicate OpHistory(sh: Shared, h: History, op: OpId) {
    && (op in h.began <==> Started(sh, op.slot, op.seqno))
    && (op in h.committed || op in h.aborted || op in h.mismatched ==> op in h.began)
    && (op in h.results <==> Finished(sh, op.slot, op.seqno))
    && !(op in h.committed && op in h.aborted)
    && (op in h.aborted ==> op in h.mismatched)
    && (op in h.results ==>
          || (h.results[op] == Ok && op in h.committed)
          || (h.results[op] == ValueWasNotExpectedValue && op in h.aborted))
  }

  ghost predicate HistoryInv(sh: Shared, h: History) {
    && (forall i :: 0 <= i < |sh.slots| ==> SlotHistory(sh, h, i))
    && (forall op: OpId :: OpHistory(sh, h, op))
  }

  // ---------------------------------------------------------------- frames

  ghost predicate Current(sh: Shared, f: Frame) {
    f.slot < |sh.slots| && sh.slots[f.slot].seqno == f.seqno
  }

  ghost predicate Live(sh: Shared, f: Frame, stage: Stage) {
    Current(sh, f) && sh.slots[f.slot].stage == stage
  }

  // The argument words stored so far; word `w` has its first `fields` fields.
  ghost predicate Stored(sh: Shared, i: nat, args: seq<KWord>, w: nat, fields: nat)
    requires i < |sh.slots|
  {
    var words := sh.slots[i].words;
    && |words| == |args| && w <= |args|
    && (forall x :: 0 <= x < w ==> words[x] == args[x])
    && (fields > 0 ==> w < |args| && words[w].target == args[w].target)
    && (fields > 1 ==> words[w].expected == args[w].expected)
  }

  ghost predicate InitInv(sh: Shared, k: nat, f: Frame, args: seq<KWord>, w: nat, fields: nat) {
    && f.owner && f.slot < |sh.slots|
    && sh.slots[f.slot].stage == Inactive
    && ValidWords(args, k, |sh.mem|)
    && Stored(sh, f.slot, args, w, fields)
  }

  ghost predicate TargetLoaded(sh: Shared, f: Frame, w: nat, a: Addr) {
    && a < |sh.mem|
    && (Current(sh, f) ==> w < |sh.slots[f.slot].words| && sh.slots[f.slot].words[w].target == Some(a))
  }

  ghost predicate ExpectedLoaded(sh: Shared, f: Frame, w: nat, e: Value) {
    && e.Clean?
    && (Current(sh, f) ==> w < |sh.slots[f.slot].words| && sh.slots[f.slot].words[w].expected == e)
  }

  ghost predicate DesiredLoaded(sh: Shared, f: Frame, w: nat, d: Value) {
    && d.Clean?
    && (Current(sh, f) ==> w < |sh.slots[f.slot].words| && sh.slots[f.slot].words[w].desired == d)
  }

  ghost predicate ClaimInv(sh: Shared, k: nat, f: Frame, w: nat) {
    w < k && (Live(sh, f, Claiming) ==> MarkedUpTo(sh, f.slot, w))
  }

  ghost predicate SetInv(sh: Shared, h: History, k: nat, f: Frame, w: nat, done: nat) {
    && w < k && OpOf(f) in h.committed
    && (Current(sh, f) ==> Committed(sh.slots[f.slot].stage))
    && (Live(sh, f, Setting) ==> AllSwitched(h, OpOf(f), done))
  }

  ghost predicate AfterInv(sh: Shared, f: Frame, after: AfterRevert)
    requires f.slot < |sh.slots|
  {
    var stage := sh.slots[f.slot].stage;
    match after
    case OwnerFails => f.owner && Undone(stage)
    case OwnerSucceeds => f.owner && stage == Successful
    case OwnerLostSequence => false
    case MarkReverted => !f.owner && (Current(sh, f) ==> Undone(stage))
    case HelpDone => !f.owner && (Current(sh, f) ==> stage == Reverted || stage == Successful)
    case HelpOutdated => !f.owner && !Current(sh, f)
  }

  ghost predicate RevertInv(sh: Shared, k: nat, f: Frame, w: nat, after: AfterRevert) {
    w < k && f.slot < |sh.slots| && AfterInv(sh, f, after)
  }

  ghost predicate PcInv(sh: Shared, h: History, k: nat, f: Frame)
    requires f.slot < |sh.slots|
  {
    match f.pc
    case InitTarget(args, w) => w < k && InitInv(sh, k, f, args, w, 0)
    case InitExpected(args, w) => w < k && InitInv(sh, k, f, args, w, 1)
    case InitDesired(args, w) => w < k && InitInv(sh, k, f, args, w, 2)
    case InitLoad(args) => InitInv(sh, k, f, args, k, 0)
    case InitStage(args) => InitInv(sh, k, f, args, k, 0) && Current(sh, f)
    case ClaimLoadTarget(w) => ClaimInv(sh, k, f, w)
    case ClaimLoadExpected(w, a) => ClaimInv(sh, k, f, w) && TargetLoaded(sh, f, w, a)
    case ClaimCas(w, a, e) =>
      ClaimInv(sh, k, f, w) && TargetLoaded(sh, f, w, a) && ExpectedLoaded(sh, f, w, e)
    case ClaimVerify(w, a, e, actual) =>
      && ClaimInv(sh, k, f, w) && TargetLoaded(sh, f, w, a) && ExpectedLoaded(sh, f, w, e)
      && ValueInv(sh, actual) && actual != MarkerOf(f)
      && (Live(sh, f, Claiming) && actual.Clean? ==> OpOf(f) in h.mismatched)
    case ClaimHelping(w, a, e) =>
      ClaimInv(sh, k, f, w) && TargetLoaded(sh, f, w, a) && ExpectedLoaded(sh, f, w, e)
    case DecideSetting => Live(sh, f, Claiming) ==> MarkedUpTo(sh, f.slot, k)
    case DecideReverting(w) => w < k && (Live(sh, f, Claiming) ==> OpOf(f) in h.mismatched)
    case SetLoadTarget(w) => SetInv(sh, h, k, f, w, w)
    case SetLoadDesired(w, a) => SetInv(sh, h, k, f, w, w) && TargetLoaded(sh, f, w, a)
    case SetCas(w, a, d) =>
      SetInv(sh, h, k, f, w, w) && TargetLoaded(sh, f, w, a) && DesiredLoaded(sh, f, w, d)
    case SetVerify(w) => SetInv(sh, h, k, f, w, w + 1)
    case RevertLoadTarget(w, after) => RevertInv(sh, k, f, w, after)
    case RevertLoadExpected(w, a, after) => RevertInv(sh, k, f, w, after) && TargetLoaded(sh, f, w, a)
    case RevertCas(w, a, e, after) =>
      RevertInv(sh, k, f, w, after) && TargetLoaded(sh, f, w, a) && ExpectedLoaded(sh, f, w, e)
    case FinishSuccessful => !f.owner && SetInv(sh, h, k, f, 0, k)
    case FinishReverted => !f.owner && (Current(sh, f) ==> Undone(sh.slots[f.slot].stage))
    case Prepare(r) =>
      && f.owner
      && (r == Ok || r == ValueWasNotExpectedValue)
      && (r == Ok ==> SetInv(sh, h, k, f, 0, k))
      && (r == ValueWasNotExpectedValue ==> Undone(sh.slots[f.slot].stage))
    case HelpLoad => !f.owner
    case Fail(_) => false
  }

  predicate InitPc(pc: Pc) {
    pc.InitTarget? || pc.InitExpected? || pc.InitDesired? || pc.InitLoad? || pc.InitStage?
  }

  // What a frame knows about the shared state.
  ghost predicate FrameInv(sh: Shared, h: History, k: nat, f: Frame) {
    && f.slot < |sh.slots|
    && (!InitPc(f.pc) ==> Started(sh, f.slot, f.seqno))
    && (!InitPc(f.pc) && f.owner ==> Current(sh, f))
    && PcInv(sh, h, k, f)
  }

  // ---------------------------------------------------------------- stacks

  ghost predicate StackShape(stack: seq<Frame>, t: nat) {
    stack != [] ==>
      && stack[0].owner && stack[0].slot == t
      && (forall d :: 0 < d < |stack| ==> !stack[d].owner)
      && (forall d :: 0 <= d < |stack| - 1 ==> stack[d].pc.ClaimHelping?)
      && !Last(stack).pc.ClaimHelping?
  }

  ghost predicate FramesInv(sh: Shared, h: History, k: nat, stack: seq<Frame>) {
    forall d :: 0 <= d < |stack| ==> FrameInv(sh, h, k, stack[d])
  }

  ghost predicate StacksInv(cfg: Config, w: World) {
    && |w.stacks| == |w.sh.slots| == |w.taken|
    && (forall t :: 0 <= t < |w.stacks| ==> StackShape(w.stacks[t], t))
    && (forall t :: 0 <= t < |w.stacks| ==> FramesInv(w.sh, w.hist, cfg.k, w.stacks[t]))
    && (forall t :: 0 <= t < |w.stacks| && w.stacks[t] == [] ==> w.sh.slots[t].stage == Inactive)
    && (forall t :: 0 <= t < |w.stacks| && w.stacks[t] != [] ==> w.taken[t])
  }

  ghost predicate Inv(cfg: Config, w: World) {
    && SharedInv(w.sh, w.hist, cfg.k)
    && HistoryInv(w.sh, w.hist)
    && StacksInv(cfg, w)
  }

  // -------------------------------------------------------- rely, guarantee

  // The stage of a started operation moves on.
  ghost predicate StageAdvances(s: Stage, t: Stage) {
    || s == t
    || (s == Claiming && t != Inactive)
    || (s == Setting && t == Successful)
    || (s == Reverting && t == Reverted)
  }

  ghost predicate StageLe(s: Stage, t: Stage) {
    s == Inactive || StageAdvances(s, t)
  }

  // How slot `i` may change in one step taken by slot `mover`'s owner.
  ghost predicate SlotRely(sh: Shared, sh': Shared, i: nat, mover: int) {
    && i < |sh.slots| && i < |sh'.slots|
    && var old_, new_ := sh.slots[i], sh'.slots[i];
    && old_.seqno <= new_.seqno
    && (i != mover ==>
          && new_.seqno == old_.seqno && new_.words == old_.words
          && (old_.stage == Inactive <==> new_.stage == Inactive))
    && (new_.seqno == old_.seqno ==> StageLe(old_.stage, new_.stage))
    && (new_.seqno == old_.seqno && old_.stage != Inactive ==> new_.words == old_.words)
  }

  // A claiming operation's markers stay where they are.
  ghost predicate KeepsClaims(sh: Shared, sh': Shared) {
    && |sh'.mem| == |sh.mem| && |sh'.slots| == |sh.slots|
    && forall a :: 0 <= a < |sh.mem| && ClaimMarker(sh', sh.mem[a]) ==> sh'.mem[a] == sh.mem[a]
  }

  // `v` is the marker of an operation that is Claiming in `sh`.
  ghost predicate ClaimMarker(sh: Shared, v: Value) {
    v.Marker? && v.slot < |sh.slots|
    && sh.slots[v.slot].seqno == v.seqno && sh.slots[v.slot].stage == Claiming
  }

  ghost predicate HistoryGrows(h: History, h': History) {
    && h.mismatched <= h'.mismatched && h.committed <= h'.committed
    && (forall op, x :: IsSwitched(h, op, x) ==> IsSwitched(h', op, x))
  }

  // `mover` is the slot whose owner takes the step, or -1 for a helper.
  ghost predicate Rely(sh: Shared, h: History, sh': Shared, h': History, mover: int) {
    && KeepsClaims(sh, sh')
    && HistoryGrows(h, h')
    && forall i :: 0 <= i < |sh.slots| ==> SlotRely(sh, sh', i, mover)
  }

  lemma StartedStable(sh: Shared, h: History, sh': Shared, h': History, mover: int, i: nat, s: nat)
    requires Rely(sh, h, sh', h', mover) && Started(sh, i, s)
    ensures Started(sh', i, s)
  {
    assert SlotRely(sh, sh', i, mover);
  }

  // A frame whose operation was Claiming after the step was so before it.
  lemma LiveBefore(sh: Shared, h: History, sh': Shared, h': History, mover: int, f: Frame)
    requires Rely(sh, h, sh', h', mover)
    requires Started(sh, f.slot, f.seqno) && Current(sh', f)
    ensures Current(sh, f)
    ensures sh.slots[f.slot].stage != Inactive
    ensures sh'.slots[f.slot].words == sh.slots[f.slot].words
    ensures StageLe(sh.slots[f.slot].stage, sh'.slots[f.slot].stage)
  {
    assert SlotRely(sh, sh', f.slot, mover);
  }

  lemma MarkedStable(sh: Shared, h: History, sh': Shared, h': History, mover: int, f: Frame, n: nat)
    requires Rely(sh, h, sh', h', mover)
    requires Started(sh, f.slot, f.seqno) && Live(sh', f, Claiming)
    requires MarkedUpTo(sh, f.slot, n)
    ensures MarkedUpTo(sh', f.slot, n)
  {
    LiveBefore(sh, h, sh', h', mover, f);
    forall x | 0 <= x < n ensures Marked(sh', f.slot, x) {
      assert Marked(sh, f.slot, x);
    }
  }

  lemma InitStable(sh: Shared, h: History, sh': Shared, h': History, k: nat, f: Frame, mover: int)
    requires Rely(sh, h, sh', h', mover)
    requires FrameInv(sh, h, k, f) && InitPc(f.pc) && f.slot != mover
    ensures FrameInv(sh', h', k, f)
  {
    assert SlotRely(sh, sh', f.slot, mover);
  }

  lemma ClaimStable(sh: Shared, h: History, sh': Shared, h': History, k: nat, f: Frame, mover: int, w: nat)
    requires Rely(sh, h, sh', h', mover)
    requires Started(sh, f.slot, f.seqno) && ClaimInv(sh, k, f, w)
    ensures ClaimInv(sh', k, f, w)
  {
    if Live(sh', f, Claiming) {
      LiveBefore(sh, h, sh', h', mover, f);
      MarkedStable(sh, h, sh', h', mover, f, w);
    }
  }

  lemma SetStable(sh: Shared, h: History, sh': Shared, h': History, k: nat, f: Frame, mover: int, w: nat, done: nat)
    requires Rely(sh, h, sh', h', mover)
    requires Started(sh, f.slot, f.seqno) && SetInv(sh, h, k, f, w, done)
    ensures SetInv(sh', h', k, f, w, done)
  {
    if Current(sh', f) {
      LiveBefore(sh, h, sh', h', mover, f);
      if Live(sh', f, Setting) {
        assert AllSwitched(h, OpOf(f), done);
      }
    }
  }

  lemma RevertStable(sh: Shared, h: History, sh': Shared, h': History, k: nat, f: Frame, mover: int, w: nat,
                     after: AfterRevert)
    requires Rely(sh, h, sh', h', mover)
    requires Started(sh, f.slot, f.seqno) && RevertInv(sh, k, f, w, after)
    requires f.owner ==> Current(sh, f) && f.slot != mover
    ensures RevertInv(sh', k, f, w, after)
  {
    assert SlotRely(sh, sh', f.slot, mover);
  }

  lemma LoadedStable(sh: Shared, h: History, sh': Shared, h': History, f: Frame, mover: int, w: nat, a: Addr, v: Value)
    requires Rely(sh, h, sh', h', mover)
    requires Started(sh, f.slot, f.seqno)
    ensures TargetLoaded(sh, f, w, a) ==> TargetLoaded(sh', f, w, a)
    ensures ExpectedLoaded(sh, f, w, v) ==> ExpectedLoaded(sh', f, w, v)
    ensures DesiredLoaded(sh, f, w, v) ==> DesiredLoaded(sh', f, w, v)
  {
    if Current(sh', f) {
      LiveBefore(sh, h, sh', h', mover, f);
    }
  }

  lemma ValueStable(sh: Shared, h: History, sh': Shared, h': History, mover: int, v: Value)
    requires Rely(sh, h, sh', h', mover) && ValueInv(sh, v)
    ensures ValueInv(sh', v)
  {
    if v.Marker? {
      StartedStable(sh, h, sh', h', mover, v.slot, v.seqno);
    }
  }

  // What a frame knows survives every step of the other threads.
  lemma FrameStable(sh: Shared, h: History, sh': Shared, h': History, k: nat, f: Frame, mover: int)
    requires Rely(sh, h, sh', h', mover)
    requires FrameInv(sh, h, k, f)
    requires f.owner ==> f.slot != mover
    ensures FrameInv(sh', h', k, f)
  {
    if InitPc(f.pc) {
      InitStable(sh, h, sh', h', k, f, mover);
    } else {
      StartedStable(sh, h, sh', h', mover, f.slot, f.seqno);
      assert SlotRely(sh, sh', f.slot, mover);
      match f.pc
      case ClaimLoadTarget(w) => ClaimStable(sh, h, sh', h', k, f, mover, w);
      case ClaimLoadExpected(w, a) =>
        ClaimStable(sh, h, sh', h', k, f, mover, w);
        LoadedStable(sh, h, sh', h', f, mover, w, a, Clean(0));
      case ClaimCas(w, a, e) =>
        ClaimStable(sh, h, sh', h', k, f, mover, w);
        LoadedStable(sh, h, sh', h', f, mover, w, a, e);
      case ClaimVerify(w, a, e, actual) =>
        ClaimStable(sh, h, sh', h', k, f, mover, w);
        LoadedStable(sh, h, sh', h', f, mover, w, a, e);
        ValueStable(sh, h, sh', h', mover, actual);
        if Live(sh', f, Claiming) {
          LiveBefore(sh, h, sh', h', mover, f);
        }
      case ClaimHelping(w, a, e) =>
        ClaimStable(sh, h, sh', h', k, f, mover, w);
        LoadedStable(sh, h, sh', h', f, mover, w, a, e);
      case DecideSetting =>
        if Live(sh', f, Claiming) {
          LiveBefore(sh, h, sh', h', mover, f);
          MarkedStable(sh, h, sh', h', mover, f, k);
        }
      case DecideReverting(w) =>
        if Live(sh', f, Claiming) {
          LiveBefore(sh, h, sh', h', mover, f);
        }
      case SetLoadTarget(w) => SetStable(sh, h, sh', h', k, f, mover, w, w);
      case SetLoadDesired(w, a) =>
        SetStable(sh, h, sh', h', k, f, mover, w, w);
        LoadedStable(sh, h, sh', h', f, mover, w, a, Clean(0));
      case SetCas(w, a, d) =>
        SetStable(sh, h, sh', h', k, f, mover, w, w);
        LoadedStable(sh, h, sh', h', f, mover, w, a, d);
      case SetVerify(w) => SetStable(sh, h, sh', h', k, f, mover, w, w + 1);
      case RevertLoadTarget(w, after) => RevertStable(sh, h, sh', h', k, f, mover, w, after);
      case RevertLoadExpected(w, a, after) =>
        RevertStable(sh, h, sh', h', k, f, mover, w, after);
        LoadedStable(sh, h, sh', h', f, mover, w, a, Clean(0));
      case RevertCas(w, a, e, after) =>
        RevertStable(sh, h, sh', h', k, f, mover, w, after);
        LoadedStable(sh, h, sh', h', f, mover, w, a, e);
      case FinishSuccessful => SetStable(sh, h, sh', h', k, f, mover, 0, k);
      case FinishReverted =>
      case Prepare(r) =>
        if r == Ok { SetStable(sh, h, sh', h', k, f, mover, 0, k); }
      case HelpLoad =>
    }
  }

  // ------------------------------------------------- what one step changes

  function MoverOf(f: Frame): int {
    if f.owner then f.slot else -1
  }

  lemma RelyRefl(sh: Shared, h: History, h': History, mover: int)
    requires HistoryGrows(h, h')
    ensures Rely(sh, h, sh, h', mover)
  {
  }

  // A target word goes from a clean value to the frame's marker.
  lemma MarkEffect(sh: Shared, h: History, k: nat, f: Frame, a: Addr, w: nat)
    requires SharedInv(sh, h, k) && Started(sh, f.slot, f.seqno)
    requires a < |sh.mem| && sh.mem[a].Clean?
    requires TargetLoaded(sh, f, w, a) && ClaimInv(sh, k, f, w)
    ensures var sh' := StoreMem(sh, a, MarkerOf(f));
            SharedInv(sh', h, k) && Rely(sh, h, sh', h, MoverOf(f))
  {
    var sh' := StoreMem(sh, a, MarkerOf(f));
    forall i | 0 <= i < |sh.slots| ensures SlotShape(sh', k, i) && SlotMarks(sh', h, k, i) {
      assert SlotShape(sh, k, i) && SlotMarks(sh, h, k, i);
      forall x | Marked(sh, i, x) ensures Marked(sh', i, x) {}
      if sh.slots[i].stage == Claiming {
        forall y: nat | Marked(sh', i, y) ensures MarkedUpTo(sh', i, y) {
          if Marked(sh, i, y) {
            assert MarkedUpTo(sh, i, y);
          } else {
            assert i == f.slot && y == w;
            assert MarkedUpTo(sh, i, w);
          }
        }
      }
      if Current(sh, f) && i == f.slot {
        assert sh.slots[i].words[w].target == Some(a);
        assert WordAt(sh.slots[i].words, a) <= w;
      }
    }
    forall b | 0 <= b < |sh.mem| ensures ValueInv(sh', sh'.mem[b]) {
      assert ValueInv(sh, sh.mem[b]);
    }
  }

  ghost predicate SwitchedAt(sh: Shared, h: History, f: Frame, a: Addr)
    requires f.slot < |sh.slots|
  {
    forall x :: 0 <= x < |sh.slots[f.slot].words| && sh.slots[f.slot].words[x].target == Some(a)
      ==> IsSwitched(h, OpOf(f), x)
  }

  // A target word goes from the frame's marker to a clean value.
  lemma UnmarkEffect(sh: Shared, h: History, h': History, k: nat, f: Frame, a: Addr, v: Value)
    requires SharedInv(sh, h, k) && HistoryGrows(h, h')
    requires a < |sh.mem| && sh.mem[a] == MarkerOf(f) && v.Clean?
    requires f.slot < |sh.slots| && !Live(sh, f, Claiming)
    requires Live(sh, f, Setting) ==> SwitchedAt(sh, h', f, a)
    ensures var sh' := StoreMem(sh, a, v);
            SharedInv(sh', h', k) && Rely(sh, h, sh', h', MoverOf(f))
  {
    var sh' := StoreMem(sh, a, v);
    forall i | 0 <= i < |sh.slots| ensures SlotShape(sh', k, i) && SlotMarks(sh', h', k, i) {
      assert SlotShape(sh, k, i) && SlotMarks(sh, h, k, i);
      var op := OpId(i, sh.slots[i].seqno);
      if sh.slots[i].stage == Claiming {
        forall y: nat | Marked(sh', i, y) ensures MarkedUpTo(sh', i, y) {
          assert Marked(sh, i, y) && MarkedUpTo(sh, i, y);
          forall x | 0 <= x < y ensures Marked(sh', i, x) {
            assert Marked(sh, i, x);
          }
        }
      } else if sh.slots[i].stage == Setting {
        forall x | 0 <= x < k ensures Marked(sh', i, x) || IsSwitched(h', op, x) {
          assert Marked(sh, i, x) || IsSwitched(h, op, x);
        }
      }
    }
    forall b | 0 <= b < |sh.mem| ensures ValueInv(sh', sh'.mem[b]) {
      assert ValueInv(sh, sh.mem[b]);
    }
  }

  // The slot's stage moves on while its sequence number stays.
  lemma AdvanceEffect(sh: Shared, h: History, k: nat, f: Frame, stage: Stage)
    requires SharedInv(sh, h, k) && Current(sh, f)
    requires sh.slots[f.slot].stage != Inactive && stage != Inactive && stage != Claiming
    requires StageLe(sh.slots[f.slot].stage, stage)
    requires stage == Setting ==> MarkedUpTo(sh, f.slot, k)
    requires stage == Successful ==> AllSwitched(h, OpOf(f), k)
    ensures var sh' := StoreStage(sh, f.slot, stage, f.seqno);
            SharedInv(sh', h, k) && Rely(sh, h, sh', h, MoverOf(f))
  {
    var sh' := StoreStage(sh, f.slot, stage, f.seqno);
    forall i | 0 <= i < |sh.slots| ensures SlotShape(sh', k, i) && SlotMarks(sh', h, k, i) {
      assert SlotShape(sh, k, i) && SlotMarks(sh, h, k, i);
      forall x ensures Marked(sh, i, x) <==> Marked(sh', i, x) {}
      if sh'.slots[i].stage == Claiming {
        forall y: nat | Marked(sh', i, y) ensures MarkedUpTo(sh', i, y) {
          assert Marked(sh, i, y) && MarkedUpTo(sh, i, y);
        }
      }
      if sh'.slots[i].stage == Setting && i == f.slot {
        forall x | 0 <= x < k ensures Marked(sh', i, x) {
          assert Marked(sh, i, x);
        }
      }
    }
    forall b | 0 <= b < |sh.mem| ensures ValueInv(sh', sh'.mem[b]) {
      assert ValueInv(sh, sh.mem[b]);
    }
  }

  // No marker of a slot's next operation exists before it starts.
  lemma NoFutureMarker(sh: Shared, h: History, k: nat, i: nat, x: nat)
    requires SharedInv(sh, h, k) && i < |sh.slots| && sh.slots[i].stage == Inactive
    ensures !Marked(sh, i, x)
  {
  }

  // initialize_operation stores one field of a descriptor word.
  lemma StoreEffect(sh: Shared, h: History, k: nat, f: Frame, w: nat, word: KWord)
    requires SharedInv(sh, h, k) && f.owner && f.slot < |sh.slots| && w < k
    requires sh.slots[f.slot].stage == Inactive
    requires WordShape(word, |sh.mem|)
    requires |sh.slots[f.slot].words| == k
    requires sh.slots[f.slot].words[w].target.Some? ==> word.target.Some?
    ensures var sh' := StoreWord(sh, f.slot, w, word);
            SharedInv(sh', h, k) && Rely(sh, h, sh', h, MoverOf(f))
  {
    var sh' := StoreWord(sh, f.slot, w, word);
    forall i | 0 <= i < |sh.slots| ensures SlotShape(sh', k, i) && SlotMarks(sh', h, k, i) {
      assert SlotShape(sh, k, i) && SlotMarks(sh, h, k, i);
      if i == f.slot {
        forall a | 0 <= a < |sh.mem| ensures sh.mem[a] != Marker(i, sh.slots[i].seqno) {
          assert ValueInv(sh, sh.mem[a]);
        }
      } else {
        forall x ensures Marked(sh, i, x) <==> Marked(sh', i, x) {}
        if sh.slots[i].stage == Claiming {
          forall y: nat | Marked(sh', i, y) ensures MarkedUpTo(sh', i, y) {
            assert Marked(sh, i, y) && MarkedUpTo(sh, i, y);
          }
        }
      }
    }
    forall b | 0 <= b < |sh.mem| ensures ValueInv(sh', sh'.mem[b]) {
      assert ValueInv(sh, sh.mem[b]);
    }
  }

  // initialize_operation stores Claiming.
  lemma StartEffect(sh: Shared, h: History, h': History, k: nat, f: Frame)
    requires SharedInv(sh, h, k) && HistoryGrows(h, h') && f.owner && Current(sh, f)
    requires sh.slots[f.slot].stage == Inactive
    requires ValidWords(sh.slots[f.slot].words, k, |sh.mem|)
    ensures var sh' := StoreStage(sh, f.slot, Claiming, f.seqno);
            SharedInv(sh', h', k) && Rely(sh, h, sh', h', MoverOf(f))
  {
    var sh' := StoreStage(sh, f.slot, Claiming, f.seqno);
    forall a | 0 <= a < |sh.mem| ensures sh.mem[a] != MarkerOf(f) {
      assert ValueInv(sh, sh.mem[a]);
    }
    forall i | 0 <= i < |sh.slots| ensures SlotShape(sh', k, i) && SlotMarks(sh', h', k, i) {
      assert SlotShape(sh, k, i) && SlotMarks(sh, h, k, i);
      forall x ensures Marked(sh, i, x) <==> Marked(sh', i, x) {}
      if i == f.slot {
        forall x ensures !Marked(sh, i, x) { NoFutureMarker(sh, h, k, i, x); }
        assert forall x :: 0 <= x < k ==> CleanWord(sh.slots[i].words[x], |sh.mem|);
      } else {
        OtherSlotMarks(sh, h, sh', h', k, i);
      }
    }
    forall b | 0 <= b < |sh.mem| ensures ValueInv(sh', sh'.mem[b]) {
      assert ValueInv(sh, sh.mem[b]);
    }
  }

  lemma OtherSlotMarks(sh: Shared, h: History, sh': Shared, h': History, k: nat, i: nat)
    requires SlotMarks(sh, h, k, i) && HistoryGrows(h, h')
    requires i < |sh'.slots| && sh'.slots[i] == sh.slots[i] && sh'.mem == sh.mem
    ensures SlotMarks(sh', h', k, i)
  {
    forall x ensures Marked(sh, i, x) <==> Marked(sh', i, x) {}
    if sh.slots[i].stage == Claiming {
      forall y: nat | Marked(sh', i, y) ensures MarkedUpTo(sh', i, y) {
        assert Marked(sh, i, y) && MarkedUpTo(sh, i, y);
      }
    }
    var op := OpId(i, sh.slots[i].seqno);
    if sh.slots[i].stage == Setting {
      forall x | 0 <= x < k ensures Marked(sh', i, x) || IsSwitched(h', op, x) {
        assert Marked(sh, i, x) || IsSwitched(h, op, x);
      }
    }
  }

  // prepare_for_next_operation resets the stage and advances the sequence.
  lemma ResetEffect(sh: Shared, h: History, h': History, k: nat, f: Frame)
    requires SharedInv(sh, h, k) && HistoryGrows(h, h') && f.owner && Current(sh, f)
    requires sh.slots[f.slot].stage != Inactive
    ensures var sh' := StoreStage(sh, f.slot, Inactive, f.seqno + 1);
            SharedInv(sh', h', k) && Rely(sh, h, sh', h', MoverOf(f))
  {
    var sh' := StoreStage(sh, f.slot, Inactive, f.seqno + 1);
    forall a | 0 <= a < |sh.mem| ensures sh.mem[a] != Marker(f.slot, f.seqno + 1) && ValueInv(sh', sh'.mem[a]) {
      assert ValueInv(sh, sh.mem[a]);
    }
    forall i | 0 <= i < |sh.slots| ensures SlotShape(sh', k, i) && SlotMarks(sh', h', k, i) {
      assert SlotShape(sh, k, i) && SlotMarks(sh, h, k, i);
      if i != f.slot {
        OtherSlotMarks(sh, h, sh', h', k, i);
      }
    }
  }

  // ------------------------------------------------------------ every step

  ghost predicate StepKeeps(sh: Shared, h: History, k: nat, f: Frame, o: Outcome) {
    var h' := Record(h, OpOf(f), o.event);
    && SharedInv(o.sh, h', k)
    && Rely(sh, h, o.sh, h', MoverOf(f))
    && MoveInv(o.sh, h', k, f, o.move)
  }

  ghost predicate MoveInv(sh: Shared, h: History, k: nat, f: Frame, m: Move) {
    match m
    case Goto(g) => NextFrame(sh, h, k, f, g)
    case Call(g, c) =>
      && NextFrame(sh, h, k, f, g) && g.pc.ClaimHelping?
      && !c.owner && FrameInv(sh, h, k, c) && c.pc == HelpLoad
    case Return(r) => !r.Failed? && (f.owner ==> f.slot < |sh.slots| && sh.slots[f.slot].stage == Inactive)
  }

  ghost predicate NextFrame(sh: Shared, h: History, k: nat, f: Frame, g: Frame) {
    && FrameInv(sh, h, k, g)
    && g.slot == f.slot && g.owner == f.owner
    && !g.pc.Fail?
  }

  lemma RecordGrows(h: History, op: OpId, e: Event)
    ensures HistoryGrows(h, Record(h, op, e))
  {
  }

  lemma FrameInRange(sh: Shared, h: History, k: nat, f: Frame)
    requires SharedInv(sh, h, k) && FrameInv(sh, h, k, f)
    ensures InRange(sh, f, k)
  {
    assert SlotShape(sh, k, f.slot);
  }

  lemma InitStoreStep(sh: Shared, h: History, k: nat, f: Frame)
    requires SharedInv(sh, h, k) && FrameInv(sh, h, k, f) && InRange(sh, f, k)
    requires f.pc.InitTarget? || f.pc.InitExpected? || f.pc.InitDesired?
    ensures StepKeeps(sh, h, k, f, Exec(sh, f, k))
  {
    var args, w := f.pc.args, f.pc.w;
    var word := sh.slots[f.slot].words[w];
    assert SlotShape(sh, k, f.slot);
    assert CleanWord(args[w], |sh.mem|) && WordShape(word, |sh.mem|);
    StoreEffect(sh, h, k, f, w,
                if f.pc.InitTarget? then word.(target := args[w].target)
                else if f.pc.InitExpected? then word.(expected := args[w].expected)
                else word.(desired := args[w].desired));
  }

  lemma InitStep(sh: Shared, h: History, k: nat, f: Frame)
    requires SharedInv(sh, h, k) && FrameInv(sh, h, k, f) && InRange(sh, f, k) && InitPc(f.pc)
    ensures StepKeeps(sh, h, k, f, Exec(sh, f, k))
  {
    if f.pc.InitLoad? {
      RelyRefl(sh, h, h, MoverOf(f));
    } else if f.pc.InitStage? {
      RecordGrows(h, OpOf(f), Exec(sh, f, k).event);
      assert sh.slots[f.slot].words == f.pc.args;
      StartEffect(sh, h, Record(h, OpOf(f), Began(f.pc.args)), k, f);
    } else {
      InitStoreStep(sh, h, k, f);
    }
  }

  predicate ClaimPc(pc: Pc) {
    pc.ClaimLoadTarget? || pc.ClaimLoadExpected? || pc.ClaimCas? || pc.ClaimVerify?
  }

  // A slot with a started operation has every target address in place.
  lemma TargetsPresent(sh: Shared, h: History, k: nat, f: Frame, w: nat)
    requires SharedInv(sh, h, k) && Started(sh, f.slot, f.seqno) && w < k
    ensures |sh.slots[f.slot].words| == k
    ensures sh.slots[f.slot].words[w].target.Some?
    ensures WordShape(sh.slots[f.slot].words[w], |sh.mem|)
  {
    assert SlotShape(sh, k, f.slot);
  }

  lemma MarkStep(sh: Shared, h: History, k: nat, f: Frame)
    requires SharedInv(sh, h, k) && FrameInv(sh, h, k, f) && InRange(sh, f, k)
    requires f.pc.ClaimCas? && (sh.mem[f.pc.a] == f.pc.e || sh.mem[f.pc.a] == MarkerOf(f))
    ensures StepKeeps(sh, h, k, f, Exec(sh, f, k))
  {
    var w, a := f.pc.w, f.pc.a;
    var sh' := Exec(sh, f, k).sh;
    if sh.mem[a] == f.pc.e {
      MarkEffect(sh, h, k, f, a, w);
    } else {
      RelyRefl(sh, h, h, MoverOf(f));
    }
    StartedStable(sh, h, sh', h, MoverOf(f), f.slot, f.seqno);
    if Live(sh', f, Claiming) {
      MarkedStable(sh, h, sh', h, MoverOf(f), f, w);
      assert Marked(sh', f.slot, w);
      assert MarkedUpTo(sh', f.slot, w + 1);
    }
  }

  lemma MissStep(sh: Shared, h: History, k: nat, f: Frame)
    requires SharedInv(sh, h, k) && FrameInv(sh, h, k, f) && InRange(sh, f, k)
    requires f.pc.ClaimCas? && sh.mem[f.pc.a] != f.pc.e && sh.mem[f.pc.a] != MarkerOf(f)
    ensures StepKeeps(sh, h, k, f, Exec(sh, f, k))
  {
    var h' := Record(h, OpOf(f), Exec(sh, f, k).event);
    RecordGrows(h, OpOf(f), Exec(sh, f, k).event);
    RelyRefl(sh, h, h', MoverOf(f));
    SharedHistory(sh, h, h', k);
    assert ValueInv(sh, sh.mem[f.pc.a]);
  }

  // SharedInv depends on the history only through what has been switched.
  lemma SharedHistory(sh: Shared, h: History, h': History, k: nat)
    requires SharedInv(sh, h, k) && HistoryGrows(h, h')
    ensures SharedInv(sh, h', k)
  {
    forall i | 0 <= i < |sh.slots| ensures SlotMarks(sh, h', k, i) {
      OtherSlotMarks(sh, h, sh, h', k, i);
    }
  }

  lemma VerifyFailedStep(sh: Shared, h: History, k: nat, f: Frame, stage: Stage)
    requires SharedInv(sh, h, k) && HistoryInv(sh, h) && FrameInv(sh, h, k, f) && InRange(sh, f, k) && !InitPc(f.pc)
    requires !Live(sh, f, stage) && (stage == Claiming || stage == Setting)
    requires stage == Setting && Current(sh, f) ==> Committed(sh.slots[f.slot].stage)
    requires Current(sh, f) ==> sh.slots[f.slot].stage != Claiming
    ensures NextFrame(sh, h, k, f, f.(pc := VerifyFailed(f, sh.slots[f.slot], k)))
  {
    assert SlotMarks(sh, h, k, f.slot) && SlotHistory(sh, h, f.slot);
  }

  lemma CasStageFailedStep(sh: Shared, h: History, k: nat, f: Frame)
    requires SharedInv(sh, h, k) && HistoryInv(sh, h) && FrameInv(sh, h, k, f) && InRange(sh, f, k) && !InitPc(f.pc)
    requires Current(sh, f) ==> sh.slots[f.slot].stage != Claiming
    ensures NextFrame(sh, h, k, f, f.(pc := CasStageFailed(f, sh.slots[f.slot], k)))
  {
    assert SlotMarks(sh, h, k, f.slot) && SlotHistory(sh, h, f.slot);
  }

  lemma ClaimLoadStep(sh: Shared, h: History, k: nat, f: Frame)
    requires SharedInv(sh, h, k) && FrameInv(sh, h, k, f) && InRange(sh, f, k)
    requires f.pc.ClaimLoadTarget? || f.pc.ClaimLoadExpected?
    ensures StepKeeps(sh, h, k, f, Exec(sh, f, k))
  {
    TargetsPresent(sh, h, k, f, f.pc.w);
    RelyRefl(sh, h, h, MoverOf(f));
  }

  lemma ClaimVerifyStep(sh: Shared, h: History, k: nat, f: Frame)
    requires SharedInv(sh, h, k) && HistoryInv(sh, h) && FrameInv(sh, h, k, f) && InRange(sh, f, k) && f.pc.ClaimVerify?
    ensures StepKeeps(sh, h, k, f, Exec(sh, f, k))
  {
    hide HistoryInv;
    RelyRefl(sh, h, h, MoverOf(f));
    if !Live(sh, f, Claiming) {
      VerifyFailedStep(sh, h, k, f, Claiming);
    } else if f.pc.actual.Marker? {
      assert Started(sh, f.pc.actual.slot, f.pc.actual.seqno);
    }
  }

  lemma ClaimStep(sh: Shared, h: History, k: nat, f: Frame)
    requires SharedInv(sh, h, k) && HistoryInv(sh, h) && FrameInv(sh, h, k, f) && InRange(sh, f, k) && ClaimPc(f.pc)
    ensures StepKeeps(sh, h, k, f, Exec(sh, f, k))
  {
    if f.pc.ClaimVerify? {
      ClaimVerifyStep(sh, h, k, f);
    } else if !f.pc.ClaimCas? {
      ClaimLoadStep(sh, h, k, f);
    } else if sh.mem[f.pc.a] == f.pc.e || sh.mem[f.pc.a] == MarkerOf(f) {
      MarkStep(sh, h, k, f);
    } else {
      MissStep(sh, h, k, f);
    }
  }

  lemma DecideStep(sh: Shared, h: History, k: nat, f: Frame)
    requires SharedInv(sh, h, k) && HistoryInv(sh, h) && FrameInv(sh, h, k, f) && InRange(sh, f, k)
    requires f.pc.DecideSetting? || f.pc.DecideReverting?
    ensures StepKeeps(sh, h, k, f, Exec(sh, f, k))
  {
    hide HistoryInv;
    var o := Exec(sh, f, k);
    var h' := Record(h, OpOf(f), o.event);
    RecordGrows(h, OpOf(f), o.event);
    if Live(sh, f, Claiming) {
      AdvanceEffect(sh, h, k, f, if f.pc.DecideSetting? then Setting else Reverting);
      SharedHistory(o.sh, h, h', k);
    } else {
      RelyRefl(sh, h, h, MoverOf(f));
      CasStageFailedStep(sh, h, k, f);
    }
  }

  predicate SetPc(pc: Pc) {
    pc.SetLoadTarget? || pc.SetLoadDesired? || pc.SetCas? || pc.SetVerify?
  }

  lemma AfterSetFrame(sh: Shared, h: History, k: nat, f: Frame, w: nat)
    requires SharedInv(sh, h, k) && Started(sh, f.slot, f.seqno) && (f.owner ==> Current(sh, f))
    requires SetInv(sh, h, k, f, w, w + 1)
    ensures NextFrame(sh, h, k, f, f.(pc := AfterSet(f, w, k)))
  {
  }

  lemma SwitchStep(sh: Shared, h: History, k: nat, f: Frame)
    requires SharedInv(sh, h, k) && FrameInv(sh, h, k, f) && InRange(sh, f, k)
    requires f.pc.SetCas? && sh.mem[f.pc.a] == MarkerOf(f)
    ensures StepKeeps(sh, h, k, f, Exec(sh, f, k))
  {
    var w, a, d := f.pc.w, f.pc.a, f.pc.d;
    var h' := Record(h, OpOf(f), Switched(w));
    RecordGrows(h, OpOf(f), Switched(w));
    assert IsSwitched(h', OpOf(f), w);
    assert SlotShape(sh, k, f.slot);
    if Live(sh, f, Setting) {
      forall x | 0 <= x < k && sh.slots[f.slot].words[x].target == Some(a) ensures IsSwitched(h', OpOf(f), x) {
        assert x == w;
      }
    }
    UnmarkEffect(sh, h, h', k, f, a, d);
    var sh' := StoreMem(sh, a, d);
    SetStable(sh, h, sh', h', k, f, MoverOf(f), w, w);
    assert SetInv(sh', h', k, f, w, w + 1);
    AfterSetFrame(sh', h', k, f, w);
  }

  lemma SwitchMissStep(sh: Shared, h: History, k: nat, f: Frame)
    requires SharedInv(sh, h, k) && FrameInv(sh, h, k, f) && InRange(sh, f, k)
    requires f.pc.SetCas? && sh.mem[f.pc.a] != MarkerOf(f)
    ensures StepKeeps(sh, h, k, f, Exec(sh, f, k))
  {
    var w := f.pc.w;
    RelyRefl(sh, h, h, MoverOf(f));
    if Live(sh, f, Setting) {
      assert SlotMarks(sh, h, k, f.slot);
      assert !Marked(sh, f.slot, w);
    }
    assert SetInv(sh, h, k, f, w, w + 1);
  }

  lemma SetVerifyStep(sh: Shared, h: History, k: nat, f: Frame)
    requires SharedInv(sh, h, k) && HistoryInv(sh, h) && FrameInv(sh, h, k, f) && InRange(sh, f, k) && f.pc.SetVerify?
    ensures StepKeeps(sh, h, k, f, Exec(sh, f, k))
  {
    RelyRefl(sh, h, h, MoverOf(f));
    if Live(sh, f, Setting) {
      AfterSetFrame(sh, h, k, f, f.pc.w);
    } else {
      VerifyFailedStep(sh, h, k, f, Setting);
    }
  }

  lemma SetLoadStep(sh: Shared, h: History, k: nat, f: Frame)
    requires SharedInv(sh, h, k) && FrameInv(sh, h, k, f) && InRange(sh, f, k)
    requires f.pc.SetLoadTarget? || f.pc.SetLoadDesired?
    ensures StepKeeps(sh, h, k, f, Exec(sh, f, k))
  {
    TargetsPresent(sh, h, k, f, f.pc.w);
    RelyRefl(sh, h, h, MoverOf(f));
  }

  lemma SetStep(sh: Shared, h: History, k: nat, f: Frame)
    requires SharedInv(sh, h, k) && HistoryInv(sh, h) && FrameInv(sh, h, k, f) && InRange(sh, f, k) && SetPc(f.pc)
    ensures StepKeeps(sh, h, k, f, Exec(sh, f, k))
  {
    if f.pc.SetVerify? {
      SetVerifyStep(sh, h, k, f);
    } else if !f.pc.SetCas? {
      SetLoadStep(sh, h, k, f);
    } else if sh.mem[f.pc.a] == MarkerOf(f) {
      SwitchStep(sh, h, k, f);
    } else {
      SwitchMissStep(sh, h, k, f);
    }
  }

  predicate RevertPc(pc: Pc) {
    pc.RevertLoadTarget? || pc.RevertLoadExpected? || pc.RevertCas?
  }

  lemma RevertedFrame(sh: Shared, h: History, k: nat, f: Frame, w: nat, after: AfterRevert)
    requires SharedInv(sh, h, k) && HistoryInv(sh, h) && Started(sh, f.slot, f.seqno) && (f.owner ==> Current(sh, f))
    requires RevertInv(sh, k, f, w, after)
    ensures MoveInv(sh, h, k, f, RevertNext(f, w, after))
  {
    assert SlotMarks(sh, h, k, f.slot) && SlotHistory(sh, h, f.slot);
    hide HistoryInv;
    hide SharedInv;
  }

  lemma RevertLoadStep(sh: Shared, h: History, k: nat, f: Frame)
    requires SharedInv(sh, h, k) && FrameInv(sh, h, k, f) && InRange(sh, f, k)
    requires f.pc.RevertLoadTarget? || f.pc.RevertLoadExpected?
    ensures StepKeeps(sh, h, k, f, Exec(sh, f, k))
  {
    TargetsPresent(sh, h, k, f, f.pc.w);
    RelyRefl(sh, h, h, MoverOf(f));
  }

  lemma RevertCasStep(sh: Shared, h: History, k: nat, f: Frame)
    requires SharedInv(sh, h, k) && HistoryInv(sh, h) && FrameInv(sh, h, k, f) && InRange(sh, f, k) && f.pc.RevertCas?
    ensures StepKeeps(sh, h, k, f, Exec(sh, f, k))
  {
    hide HistoryInv;
    RelyRefl(sh, h, h, MoverOf(f));
    if sh.mem[f.pc.a] == MarkerOf(f) {
      UnmarkEffect(sh, h, h, k, f, f.pc.a, f.pc.e);
    }
    HistoryUnmoved(sh, h, Exec(sh, f, k).sh, h);
    RevertedFrame(Exec(sh, f, k).sh, h, k, f, f.pc.w, f.pc.after);
  }

  lemma RevertStep(sh: Shared, h: History, k: nat, f: Frame)
    requires SharedInv(sh, h, k) && HistoryInv(sh, h) && FrameInv(sh, h, k, f) && InRange(sh, f, k) && RevertPc(f.pc)
    ensures StepKeeps(sh, h, k, f, Exec(sh, f, k))
  {
    if f.pc.RevertCas? {
      RevertCasStep(sh, h, k, f);
    } else {
      RevertLoadStep(sh, h, k, f);
    }
  }

  lemma FinishStep(sh: Shared, h: History, k: nat, f: Frame)
    requires SharedInv(sh, h, k) && HistoryInv(sh, h) && FrameInv(sh, h, k, f) && InRange(sh, f, k)
    requires f.pc.FinishSuccessful? || f.pc.FinishReverted?
    ensures StepKeeps(sh, h, k, f, Exec(sh, f, k))
  {
    var from, to := if f.pc.FinishSuccessful? then Setting else Reverting,
                    if f.pc.FinishSuccessful? then Successful else Reverted;
    hide HistoryInv;
    hide SharedInv;
    if Live(sh, f, from) {
      AdvanceEffect(sh, h, k, f, to);
    } else {
      RelyRefl(sh, h, h, MoverOf(f));
      CasStageFailedStep(sh, h, k, f);
    }
  }

  lemma PrepareStep(sh: Shared, h: History, k: nat, f: Frame)
    requires SharedInv(sh, h, k) && FrameInv(sh, h, k, f) && InRange(sh, f, k) && f.pc.Prepare?
    ensures StepKeeps(sh, h, k, f, Exec(sh, f, k))
  {
    RecordGrows(h, OpOf(f), Exec(sh, f, k).event);
    ResetEffect(sh, h, Record(h, OpOf(f), Exec(sh, f, k).event), k, f);
  }

  lemma HelpLoadStep(sh: Shared, h: History, k: nat, f: Frame)
    requires SharedInv(sh, h, k) && HistoryInv(sh, h) && FrameInv(sh, h, k, f) && InRange(sh, f, k) && f.pc.HelpLoad?
    ensures StepKeeps(sh, h, k, f, Exec(sh, f, k))
  {
    assert SlotMarks(sh, h, k, f.slot) && SlotHistory(sh, h, f.slot);
    hide HistoryInv;
    hide SharedInv;
    hide Rely;
    RelyRefl(sh, h, h, MoverOf(f));
  }

  lemma EveryStep(sh: Shared, h: History, k: nat, f: Frame)
    requires SharedInv(sh, h, k) && HistoryInv(sh, h) && FrameInv(sh, h, k, f)
    requires InRange(sh, f, k) && !f.pc.ClaimHelping?
    ensures StepKeeps(sh, h, k, f, Exec(sh, f, k))
  {
    if InitPc(f.pc) { InitStep(sh, h, k, f); }
    else if ClaimPc(f.pc) { ClaimStep(sh, h, k, f); }
    else if f.pc.DecideSetting? || f.pc.DecideReverting? { DecideStep(sh, h, k, f); }
    else if SetPc(f.pc) { SetStep(sh, h, k, f); }
    else if RevertPc(f.pc) { RevertStep(sh, h, k, f); }
    else if f.pc.FinishSuccessful? || f.pc.FinishReverted? { FinishStep(sh, h, k, f); }
    else if f.pc.Prepare? { PrepareStep(sh, h, k, f); }
    else { HelpLoadStep(sh, h, k, f); }
  }

  // ----------------------------------------------------- history, per step

  // Stages, sequences and live descriptors are what the history speaks about.
  ghost predicate SameProgress(sh: Shared, sh': Shared) {
    && |sh'.slots| == |sh.slots|
    && forall i :: 0 <= i < |sh.slots| ==>
         && sh'.slots[i].stage == sh.slots[i].stage && sh'.slots[i].seqno == sh.slots[i].seqno
         && (sh.slots[i].stage != Inactive ==> sh'.slots[i].words == sh.slots[i].words)
  }

  ghost predicate SameRecords(h: History, h': History) {
    && h'.began == h.began && h'.mismatched == h.mismatched && h'.committed == h.committed
    && h'.aborted == h.aborted && h'.results == h.results
  }

  lemma HistoryUnmoved(sh: Shared, h: History, sh': Shared, h': History)
    requires HistoryInv(sh, h) && SameProgress(sh, sh') && SameRecords(h, h')
    ensures HistoryInv(sh', h')
  {
    forall i | 0 <= i < |sh.slots| ensures SlotHistory(sh', h', i) {
      assert SlotHistory(sh, h, i);
    }
    forall op: OpId ensures OpHistory(sh', h', op) {
      assert OpHistory(sh, h, op);
      assert Started(sh, op.slot, op.seqno) <==> Started(sh', op.slot, op.seqno);
    }
  }

  // The step moved only slot `i`.
  ghost predicate OnlySlot(sh: Shared, sh': Shared, i: nat) {
    && |sh'.slots| == |sh.slots| && i < |sh.slots|
    && forall j :: 0 <= j < |sh.slots| && j != i ==> sh'.slots[j] == sh.slots[j]
  }

  lemma HistoryMoved(sh: Shared, h: History, sh': Shared, h': History, op: OpId)
    requires HistoryInv(sh, h) && OnlySlot(sh, sh', op.slot)
    requires SlotHistory(sh', h', op.slot)
    requires forall j, s :: j != op.slot || s != op.seqno ==> SameAt(h, h', OpId(j, s))
    requires OpHistory(sh', h', op)
    requires forall s :: s != op.seqno ==> (Started(sh, op.slot, s) <==> Started(sh', op.slot, s))
    requires forall s :: s != op.seqno ==> (Finished(sh, op.slot, s) <==> Finished(sh', op.slot, s))
    ensures HistoryInv(sh', h')
  {
    forall i | 0 <= i < |sh'.slots| ensures SlotHistory(sh', h', i) {
      if i != op.slot {
        assert SlotHistory(sh, h, i);
        assert SameAt(h, h', OpId(i, sh.slots[i].seqno));
      }
    }
    forall p: OpId ensures OpHistory(sh', h', p) {
      if p != op {
        assert OpHistory(sh, h, p);
        assert SameAt(h, h', OpId(p.slot, p.seqno));
        assert Started(sh, p.slot, p.seqno) <==> Started(sh', p.slot, p.seqno);
        assert Finished(sh, p.slot, p.seqno) <==> Finished(sh', p.slot, p.seqno);
      }
    }
  }

  // The two histories agree about operation `p`.
  ghost predicate SameAt(h: History, h': History, p: OpId) {
    && (p in h.began <==> p in h'.began) && (p in h.began ==> h'.began[p] == h.began[p])
    && (p in h.mismatched <==> p in h'.mismatched)
    && (p in h.committed <==> p in h'.committed)
    && (p in h.aborted <==> p in h'.aborted)
    && (p in h.results <==> p in h'.results) && (p in h.results ==> h'.results[p] == h.results[p])
  }

  // A stage change of the frame's live operation, recorded as `e`.
  lemma HistoryAdvance(sh: Shared, h: History, f: Frame, stage: Stage, e: Event)
    requires HistoryInv(sh, h) && Current(sh, f) && sh.slots[f.slot].stage != Inactive
    requires
      || (sh.slots[f.slot].stage == Claiming && stage == Setting && e == Commit)
      || (sh.slots[f.slot].stage == Claiming && stage == Reverting && e == Abort && OpOf(f) in h.mismatched)
      || (sh.slots[f.slot].stage == Setting && stage == Successful && e == Quiet)
      || (sh.slots[f.slot].stage == Reverting && stage == Reverted && e == Quiet)
    ensures HistoryInv(StoreStage(sh, f.slot, stage, f.seqno), Record(h, OpOf(f), e))
  {
    assert OpHistory(sh, h, OpOf(f)) && SlotHistory(sh, h, f.slot);
    HistoryMoved(sh, h, StoreStage(sh, f.slot, stage, f.seqno), Record(h, OpOf(f), e), OpOf(f));
  }

  lemma HistoryMismatch(sh: Shared, h: History, f: Frame, w: nat)
    requires HistoryInv(sh, h) && Started(sh, f.slot, f.seqno)
    ensures HistoryInv(sh, Record(h, OpOf(f), Mismatch(w)))
  {
    assert OpHistory(sh, h, OpOf(f)) && SlotHistory(sh, h, f.slot);
    HistoryMoved(sh, h, sh, Record(h, OpOf(f), Mismatch(w)), OpOf(f));
  }

  lemma HistoryStart(sh: Shared, h: History, f: Frame)
    requires HistoryInv(sh, h) && Current(sh, f) && sh.slots[f.slot].stage == Inactive
    ensures HistoryInv(StoreStage(sh, f.slot, Claiming, f.seqno), Record(h, OpOf(f), Began(sh.slots[f.slot].words)))
  {
    assert OpHistory(sh, h, OpOf(f)) && SlotHistory(sh, h, f.slot);
    HistoryMoved(sh, h, StoreStage(sh, f.slot, Claiming, f.seqno),
                 Record(h, OpOf(f), Began(sh.slots[f.slot].words)), OpOf(f));
  }

  lemma HistoryReset(sh: Shared, h: History, f: Frame, r: Result)
    requires HistoryInv(sh, h) && Current(sh, f) && sh.slots[f.slot].stage != Inactive
    requires (r == Ok && Committed(sh.slots[f.slot].stage))
             || (r == ValueWasNotExpectedValue && Undone(sh.slots[f.slot].stage))
    ensures HistoryInv(StoreStage(sh, f.slot, Inactive, f.seqno + 1), Record(h, OpOf(f), Returned(r)))
  {
    assert OpHistory(sh, h, OpOf(f)) && SlotHistory(sh, h, f.slot);
    assert OpHistory(sh, h, OpId(f.slot, f.seqno + 1));
    var sh', h' := StoreStage(sh, f.slot, Inactive, f.seqno + 1), Record(h, OpOf(f), Returned(r));
    assert SlotHistory(sh', h', f.slot);
    HistoryMoved(sh, h, sh', h', OpOf(f));
  }

  predicate StagePc(pc: Pc) {
    || pc.InitStage? || pc.DecideSetting? || pc.DecideReverting?
    || pc.FinishSuccessful? || pc.FinishReverted? || pc.Prepare?
  }

  lemma HistoryStageStep(sh: Shared, h: History, k: nat, f: Frame)
    requires SharedInv(sh, h, k) && HistoryInv(sh, h)
    requires FrameInv(sh, h, k, f) && InRange(sh, f, k) && StagePc(f.pc)
    ensures HistoryInv(Exec(sh, f, k).sh, Record(h, OpOf(f), Exec(sh, f, k).event))
  {
    hide HistoryInv;
    hide SharedInv;
    match f.pc
    case InitStage(args) =>
      assert sh.slots[f.slot].words == args;
      HistoryStart(sh, h, f);
    case DecideSetting =>
      if Live(sh, f, Claiming) { HistoryAdvance(sh, h, f, Setting, Commit); }
    case DecideReverting(w) =>
      if Live(sh, f, Claiming) { HistoryAdvance(sh, h, f, Reverting, Abort); }
    case FinishSuccessful =>
      if Live(sh, f, Setting) { HistoryAdvance(sh, h, f, Successful, Quiet); }
    case FinishReverted =>
      if Live(sh, f, Reverting) { HistoryAdvance(sh, h, f, Reverted, Quiet); }
    case Prepare(r) => HistoryReset(sh, h, f, r);
  }

  lemma StageUntouched(sh: Shared, h: History, k: nat, f: Frame)
    requires FrameInv(sh, h, k, f) && InRange(sh, f, k) && !f.pc.ClaimHelping? && !StagePc(f.pc)
    ensures var o := Exec(sh, f, k);
            if o.event.Mismatch? then o.sh == sh && Started(sh, f.slot, f.seqno)
            else SameProgress(sh, o.sh) && SameRecords(h, Record(h, OpOf(f), o.event))
  {
  }

  lemma HistoryStep(sh: Shared, h: History, k: nat, f: Frame)
    requires SharedInv(sh, h, k) && HistoryInv(sh, h)
    requires FrameInv(sh, h, k, f) && InRange(sh, f, k) && !f.pc.ClaimHelping?
    ensures HistoryInv(Exec(sh, f, k).sh, Record(h, OpOf(f), Exec(sh, f, k).event))
  {
    hide HistoryInv;
    hide SharedInv;
    hide Exec;
    var o := Exec(sh, f, k);
    if StagePc(f.pc) {
      HistoryStageStep(sh, h, k, f);
    } else {
      StageUntouched(sh, h, k, f);
      if o.event.Mismatch? {
        HistoryMismatch(sh, h, f, o.event.w);
      } else {
        HistoryUnmoved(sh, h, o.sh, Record(h, OpOf(f), o.event));
      }
    }
  }

  // ------------------------------------------------------ worlds and runs

  lemma InitInvariant(cfg: Config, w: World)
    requires Init(cfg, w)
    ensures Inv(cfg, w)
  {
    forall i | 0 <= i < |w.sh.slots| ensures SlotShape(w.sh, cfg.k, i) && SlotMarks(w.sh, w.hist, cfg.k, i) {
      assert w.stacks[i] == [];
    }
    forall i | 0 <= i < |w.sh.slots| ensures SlotHistory(w.sh, w.hist, i) {
      assert w.stacks[i] == [];
    }
    forall op: OpId ensures OpHistory(w.sh, w.hist, op) {
      if op.slot < |w.sh.slots| { assert w.stacks[op.slot] == []; }
    }
  }

  lemma BeginInvariant(cfg: Config, w: World, w': World, t: nat, words: seq<KWord>)
    requires Inv(cfg, w) && Begin(cfg, w, w', t, words)
    ensures Inv(cfg, w')
  {
    var f := Frame(t, 0, true, InitTarget(words, 0));
    assert SlotShape(w.sh, cfg.k, t);
    assert FrameInv(w.sh, w.hist, cfg.k, f);
    forall u | 0 <= u < |w'.stacks| ensures StackShape(w'.stacks[u], u)
    {
      assert StackShape(w.stacks[u], u);
    }
    forall u | 0 <= u < |w'.stacks| ensures FramesInv(w'.sh, w'.hist, cfg.k, w'.stacks[u]) {
      if u != t { assert FramesInv(w.sh, w.hist, cfg.k, w.stacks[u]); }
    }
  }

  // Every frame but the running one keeps what it knows.
  lemma OthersStable(cfg: Config, w: World, t: nat, u: nat, d: nat, sh': Shared, h': History)
    requires Inv(cfg, w) && t < |w.stacks| && w.stacks[t] != []
    requires Rely(w.sh, w.hist, sh', h', MoverOf(Last(w.stacks[t])))
    requires u < |w.stacks| && d < |w.stacks[u]| && (u == t ==> d < |w.stacks[u]| - 1)
    ensures FrameInv(sh', h', cfg.k, w.stacks[u][d])
  {
    assert StackShape(w.stacks[t], t) && StackShape(w.stacks[u], u);
    assert FramesInv(w.sh, w.hist, cfg.k, w.stacks[u]);
    hide Inv;
    hide Rely;
    hide PcInv;
    FrameStable(w.sh, w.hist, sh', h', cfg.k, w.stacks[u][d], MoverOf(Last(w.stacks[t])));
  }

  lemma RestackShape(sh: Shared, h: History, k: nat, stack: seq<Frame>, t: nat, m: Move)
    requires stack != [] && StackShape(stack, t)
    requires MoveInv(sh, h, k, Last(stack), m)
    requires m.Goto? ==> !m.frame.pc.ClaimHelping?
    ensures StackShape(Restack(stack, m), t)
  {
    assert forall d :: 0 < d < |stack| ==> !stack[d].owner;
    assert Last(stack).slot == stack[|stack| - 1].slot;
  }

  lemma RestackFrames(sh: Shared, h: History, k: nat, stack: seq<Frame>, t: nat, m: Move)
    requires stack != [] && StackShape(stack, t)
    requires MoveInv(sh, h, k, Last(stack), m)
    requires forall d :: 0 <= d < |stack| - 1 ==> FrameInv(sh, h, k, stack[d])
    ensures FramesInv(sh, h, k, Restack(stack, m))
  {
    if m.Return? && |stack| > 1 {
      var parent := stack[|stack| - 2];
      assert FrameInv(sh, h, k, parent) && parent.pc.ClaimHelping?;
      assert FrameInv(sh, h, k, Resume(parent, m.result));
    }
  }

  // The step of a frame never leaves it suspended unless it asks for help.
  lemma GotoRuns(sh: Shared, f: Frame, k: nat)
    requires InRange(sh, f, k) && !f.pc.ClaimHelping?
    ensures Exec(sh, f, k).move.Goto? ==> !Exec(sh, f, k).move.frame.pc.ClaimHelping?
  {
  }

  // The thread that took the step knows what its new stack needs.
  lemma ExecuteOwnStack(cfg: Config, w: World, w': World, t: nat)
    requires Inv(cfg, w) && Execute(cfg, w, w', t)
    requires StepKeeps(w.sh, w.hist, cfg.k, Last(w.stacks[t]), Exec(w.sh, Last(w.stacks[t]), cfg.k))
    ensures StackShape(w'.stacks[t], t) && FramesInv(w'.sh, w'.hist, cfg.k, w'.stacks[t])
    ensures w'.stacks[t] == [] ==> w'.sh.slots[t].stage == Inactive
  {
    hide Exec;
    var f := Last(w.stacks[t]);
    var o := Exec(w.sh, f, cfg.k);
    assert StackShape(w.stacks[t], t);
    GotoRuns(w.sh, f, cfg.k);
    RestackShape(o.sh, w'.hist, cfg.k, w.stacks[t], t, o.move);
    forall d | 0 <= d < |w.stacks[t]| - 1 ensures FrameInv(o.sh, w'.hist, cfg.k, w.stacks[t][d]) {
      OthersStable(cfg, w, t, t, d, o.sh, w'.hist);
    }
    RestackFrames(o.sh, w'.hist, cfg.k, w.stacks[t], t, o.move);
  }

  lemma ExecuteStacks(cfg: Config, w: World, w': World, t: nat)
    requires Inv(cfg, w) && Execute(cfg, w, w', t)
    requires StepKeeps(w.sh, w.hist, cfg.k, Last(w.stacks[t]), Exec(w.sh, Last(w.stacks[t]), cfg.k))
    ensures StacksInv(cfg, w')
  {
    hide Exec;
    var o := Exec(w.sh, Last(w.stacks[t]), cfg.k);
    ExecuteOwnStack(cfg, w, w', t);
    forall u | 0 <= u < |w'.stacks| && u != t ensures FramesInv(w'.sh, w'.hist, cfg.k, w'.stacks[u]) {
      forall d | 0 <= d < |w'.stacks[u]| ensures FrameInv(w'.sh, w'.hist, cfg.k, w'.stacks[u][d]) {
        OthersStable(cfg, w, t, u, d, o.sh, w'.hist);
      }
    }
    forall u | 0 <= u < |w'.stacks| && w'.stacks[u] == [] ensures w'.sh.slots[u].stage == Inactive {
      if u != t {
        assert SlotRely(w.sh, o.sh, u, MoverOf(Last(w.stacks[t])));
      }
    }
  }

  lemma ExecuteInvariant(cfg: Config, w: World, w': World, t: nat)
    requires Inv(cfg, w) && Execute(cfg, w, w', t)
    ensures StepKeeps(w.sh, w.hist, cfg.k, Last(w.stacks[t]), Exec(w.sh, Last(w.stacks[t]), cfg.k))
    ensures Inv(cfg, w')
  {
    var f := Last(w.stacks[t]);
    assert FramesInv(w.sh, w.hist, cfg.k, w.stacks[t]);
    EveryStep(w.sh, w.hist, cfg.k, f);
    HistoryStep(w.sh, w.hist, cfg.k, f);
    ExecuteStacks(cfg, w, w', t);
  }

  lemma NextInvariant(cfg: Config, w: World, w': World)
    requires Inv(cfg, w) && Next(cfg, w, w')
    ensures Inv(cfg, w')
  {
    if t: nat :| Acquire(w, w', t) {
    } else if t: nat :| Release(w, w', t) {
    } else if t: nat, words :| Begin(cfg, w, w', t, words) {
      BeginInvariant(cfg, w, w', t, words);
    } else if t: nat :| Execute(cfg, w, w', t) {
      ExecuteInvariant(cfg, w, w', t);
    }
  }

  lemma {:induction false} RunInvariant(cfg: Config, run: seq<World>, n: nat)
    requires Run(cfg, run) && n < |run|
    ensures Inv(cfg, run[n])
    decreases n
  {
    if n == 0 {
      InitInvariant(cfg, run[0]);
    } else {
      RunInvariant(cfg, run, n - 1);
      assert NextAt(cfg, run, n - 1);
      NextInvariant(cfg, run[n - 1], run[n]);
    }
  }
}
