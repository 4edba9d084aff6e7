// The protocol as imperative code over the shared arrays, run by one thread
// while all others are stopped.
module SoloKcas {
  import opened KcasTypes
  import opened StepMachine
  import opened ProtocolInvariant
  import opened SoloSpec
  import opened AtomicSwaps
  import opened SoloRuns
  import opened SoloSteps

  datatype StageAndSequence = StageAndSequence(stage: Stage, sequence: nat)

  ghost function StagePair(sh: Shared, i: nat): StageAndSequence
    requires i < |sh.slots|
  {
    StageAndSequence(sh.slots[i].stage, sh.slots[i].seqno)
  }

  // `f` is the frame that runs operation (i, sequence).
  ghost predicate Runs(f: Frame, i: nat, sequence: nat) {
    f.slot == i && f.seqno == sequence
  }

  // Only words holding, or about to hold, operation `i`'s marker were written.
  ghost predicate WordsOnly(sh: Shared, sh': Shared, i: nat) {
    Progress(sh, sh') && SparesOthers(sh, sh', i) && sh'.slots == sh.slots
  }

  datatype ClaimResult = Claimed | Unexpected(wordNum: nat)

  // The claim of `f` stops at word `w`, which keeps the whole operation from matching.
  ghost predicate Refused(now: SoloState, rank: seq<nat>, i: nat, w: nat, below: seq<Frame>, f: Frame) {
    && i < |now.sh.slots| && now == At(now.sh, below, f, DecideReverting(w))
    && UnmarkedFrom(now.sh, i, w) && !Matches(Logical(now.sh), now.sh.slots[i].words)
  }

  // Operation `i` has ended and all others are as they were.
  ghost predicate HelpedOut(sh: Shared, sh': Shared, i: nat) {
    Progress(sh, sh') && SparesOthers(sh, sh', i) && !Unfinished(sh', i)
  }

  lemma HelpTransitive(sh: Shared, sh1: Shared, i: nat)
    requires Progress(sh, sh1) && SparesOthers(sh, sh1, i)
    ensures forall sh2 :: HelpedOut(sh1, sh2, i) ==> HelpedOut(sh, sh2, i)
  {
    forall sh2 | HelpedOut(sh1, sh2, i) ensures HelpedOut(sh, sh2, i) {
      ProgressTransitive(sh, sh1, sh2);
      SparesOthersTransitive(sh, sh1, sh2, i);
    }
  }

  // The methods below are those of the source. Weak compare-and-swaps are taken
  // as strong. Branches that only a concurrent step can cause are dead here and
  // are shown to be; the step machine has them. Ghost state runs the step machine
  // beside the code, one machine step for each atomic access.
  class State {
    const numThreads: nat
    const numWords: nat
    ghost const rank: seq<nat>

    const memory: array<Value>
    const targetAddresses: array2<Option<Addr>>
    const expectedValues: array2<Value>
    const desiredValues: array2<Value>
    const stageAndSequenceNumbers: array<StageAndSequence>

    // The machine run beside the code, and where it has got to.
    ghost var trace: seq<SoloState>
    ghost var now: SoloState

    // The call in progress: its slot, the shared state it began in, and the
    // operations committed since, in order.
    ghost var me: nat
    ghost var start: Shared
    ghost var log: seq<Entry>

    // How many of them had committed at each state of `trace`.
    ghost var marks: seq<nat>

    ghost predicate Shaped()
    {
      && numWords > 0 && memory.Length == |rank|
      && targetAddresses.Length0 == numThreads && targetAddresses.Length1 == numWords
      && expectedValues.Length0 == numThreads && expectedValues.Length1 == numWords
      && desiredValues.Length0 == numThreads && desiredValues.Length1 == numWords
      && stageAndSequenceNumbers.Length == numThreads
      && expectedValues != desiredValues
    }

    ghost function WordOf(i: nat, w: nat): KWord
      requires Shaped() && i < numThreads && w < numWords
      reads targetAddresses, expectedValues, desiredValues
    {
      KWord(targetAddresses[i, w], expectedValues[i, w], desiredValues[i, w])
    }

    ghost function WordsOf(i: nat): (words: seq<KWord>)
      requires Shaped() && i < numThreads
      reads targetAddresses, expectedValues, desiredValues
      ensures |words| == numWords && forall w :: 0 <= w < numWords ==> words[w] == WordOf(i, w)
    {
      seq(numWords, w requires 0 <= w < numWords && Shaped() reads targetAddresses, expectedValues, desiredValues
        => WordOf(i, w))
    }

    ghost function SlotOf(i: nat): Slot
      requires Shaped() && i < numThreads
      reads targetAddresses, expectedValues, desiredValues, stageAndSequenceNumbers
    {
      Slot(stageAndSequenceNumbers[i].stage, stageAndSequenceNumbers[i].sequence, WordsOf(i))
    }

    // The shared state of the protocol, as the step machine sees it.
    ghost function Sh(): (sh: Shared)
      requires Shaped()
      reads memory, targetAddresses, expectedValues, desiredValues, stageAndSequenceNumbers
      ensures sh.mem == memory[..] && |sh.slots| == numThreads
      ensures forall i :: 0 <= i < numThreads ==> sh.slots[i] == SlotOf(i)
    {
      Shared(memory[..],
        seq(numThreads, i requires 0 <= i < numThreads && Shaped()
          reads targetAddresses, expectedValues, desiredValues, stageAndSequenceNumbers
          => SlotOf(i)))
    }

    // The machine is in step with the code, and `log` with the machine.
    ghost predicate Valid()
      reads `trace, `now, `start, `log, `marks
      reads memory, targetAddresses, expectedValues, desiredValues, stageAndSequenceNumbers
    {
      && Shaped()
      && SoloTrace(numWords, trace) && Last(trace) == now
      && now.sh == Sh()
      && Stepwise(start, trace, log, marks)
    }

    // A frozen state, reached from `start` by the swaps of `log`.
    ghost predicate Solo()
      reads this, memory, targetAddresses, expectedValues, desiredValues, stageAndSequenceNumbers
    {
      Valid() && SoloInv(now.sh, numWords, rank) && Logged(start, now.sh, me, log)
    }

    // State::new over target words that hold user values.
    constructor (numThreads: nat, numWords: nat, values: seq<nat>, ghost rank: seq<nat>)
      requires numWords > 0 && |rank| == |values|
      ensures this.numThreads == numThreads && this.numWords == numWords && this.rank == rank
      ensures fresh(memory) && fresh(targetAddresses) && fresh(expectedValues) && fresh(desiredValues)
      ensures fresh(stageAndSequenceNumbers)
      ensures Shaped() && SoloInv(Sh(), numWords, rank)
      ensures Logical(Sh()) == values
      ensures forall i :: 0 <= i < numThreads ==> Sh().slots[i] == Slot(Inactive, 0, seq(numWords, _ => NULL_WORD))
    {
      this.numThreads := numThreads;
      this.numWords := numWords;
      this.rank := rank;
      memory := new Value[|values|](a requires 0 <= a < |values| => Clean(values[a]));
      targetAddresses := new Option<Addr>[numThreads, numWords]((_, _) => None);
      expectedValues := new Value[numThreads, numWords]((_, _) => Clean(0));
      desiredValues := new Value[numThreads, numWords]((_, _) => Clean(0));
      stageAndSequenceNumbers := new StageAndSequence[numThreads](_ => StageAndSequence(Inactive, 0));
      new;
      forall i | 0 <= i < numThreads ensures Sh().slots[i] == Slot(Inactive, 0, seq(numWords, _ => NULL_WORD)) {
        assert WordsOf(i) == seq(numWords, _ => NULL_WORD);
      }
    }

    // ------------------------------------------------- atomic accesses

    // The machine takes the step that belongs to the access just made.
    ghost method Tick(next: SoloState)
      requires Shaped()
      requires SoloTrace(numWords, trace) && Last(trace) == now && Stepwise(start, trace, log, marks)
      requires StepsTo(numWords, now, next) && next.sh == Sh() && Logical(next.sh) == Logical(now.sh)
      modifies this`trace, this`now, this`marks
      ensures Valid() && now == next && old(trace) <= trace
    {
      hide Stepwise;
      hide SoloNext;
      hide Logical;
      hide SlotOf;
      ExtendTrace(numWords, trace);
      QuietStep(start, trace, log, marks, next);
      now := next;
      trace := trace + [now];
      marks := marks + [|log|];
    }

    // The same for the step that commits the operation of `e`.
    ghost method TickCommit(next: SoloState, e: Entry)
      requires Shaped()
      requires SoloTrace(numWords, trace) && Last(trace) == now && Stepwise(start, trace, log, marks)
      requires StepsTo(numWords, now, next) && next.sh == Sh()
      requires CommitsEntry(now.sh, next.sh, e) && Logical(next.sh) == Replay(Logical(start), log + [e])
      modifies this`trace, this`now, this`marks, this`log
      ensures Valid() && now == next && old(trace) <= trace && log == old(log) + [e]
    {
      hide Stepwise;
      hide SoloNext;
      hide Logical;
      hide Replay;
      hide SlotOf;
      ExtendTrace(numWords, trace);
      CommitStepwise(start, trace, log, marks, next, e);
      now := next;
      trace := trace + [now];
      marks := marks + [|log| + 1];
      log := log + [e];
    }

    // A machine step that touches nothing shared.
    ghost method Advance(next: SoloState)
      requires Valid() && StepsTo(numWords, now, next) && next.sh == now.sh
      modifies this`trace, this`now, this`marks
      ensures Valid() && now == next && old(trace) <= trace
    {
      hide StepsTo;
      Tick(next);
    }

    method LoadTarget(i: nat, w: nat, ghost next: SoloState) returns (target: Option<Addr>)
      requires Valid() && i < |now.sh.slots| && w < numWords == |now.sh.slots[i].words|
      requires StepsTo(numWords, now, next) && next.sh == now.sh
      modifies this`trace, this`now, this`marks
      ensures Valid() && now == next && old(trace) <= trace
      ensures target == now.sh.slots[i].words[w].target
    {
      hide StepsTo;
      target := targetAddresses[i, w];
      Tick(next);
    }

    method LoadExpected(i: nat, w: nat, ghost next: SoloState) returns (expected: Value)
      requires Valid() && i < |now.sh.slots| && w < numWords == |now.sh.slots[i].words|
      requires StepsTo(numWords, now, next) && next.sh == now.sh
      modifies this`trace, this`now, this`marks
      ensures Valid() && now == next && old(trace) <= trace
      ensures expected == now.sh.slots[i].words[w].expected
    {
      hide StepsTo;
      expected := expectedValues[i, w];
      Tick(next);
    }

    method LoadDesired(i: nat, w: nat, ghost next: SoloState) returns (desired: Value)
      requires Valid() && i < |now.sh.slots| && w < numWords == |now.sh.slots[i].words|
      requires StepsTo(numWords, now, next) && next.sh == now.sh
      modifies this`trace, this`now, this`marks
      ensures Valid() && now == next && old(trace) <= trace
      ensures desired == now.sh.slots[i].words[w].desired
    {
      hide StepsTo;
      desired := desiredValues[i, w];
      Tick(next);
    }

    method LoadStage(i: nat, ghost next: SoloState) returns (s: StageAndSequence)
      requires Valid() && i < |now.sh.slots|
      requires StepsTo(numWords, now, next) && next.sh == now.sh
      modifies this`trace, this`now, this`marks
      ensures Valid() && now == next && old(trace) <= trace
      ensures s == StagePair(now.sh, i)
    {
      hide StepsTo;
      s := stageAndSequenceNumbers[i];
      Tick(next);
    }

    // compare_exchange on a target word; returns the value found.
    method CasMemory(a: Addr, current: Value, value: Value, ghost next: SoloState) returns (found: Value)
      requires Valid() && a < |now.sh.mem|
      requires StepsTo(numWords, now, next)
      requires next.sh == if now.sh.mem[a] == current then StoreMem(now.sh, a, value) else now.sh
      requires Logical(next.sh) == Logical(now.sh)
      modifies this`trace, this`now, this`marks, memory
      ensures Valid() && now == next && old(trace) <= trace
      ensures found == old(now.sh).mem[a]
    {
      hide StepsTo;
      found := memory[a];
      if found == current {
        memory[a] := value;
      }
      Tick(next);
    }

    // compare_exchange on a stage word; returns the pair found. `commits` is the
    // operation that commits by it, if any.
    method CasStageWord(i: nat, current: StageAndSequence, value: StageAndSequence,
                        ghost next: SoloState, ghost commits: Option<Entry>)
      returns (found: StageAndSequence)
      requires Valid() && i < |now.sh.slots|
      requires StepsTo(numWords, now, next)
      requires next.sh ==
                 if StagePair(now.sh, i) == current then StoreStage(now.sh, i, value.stage, value.sequence) else now.sh
      requires commits.None? ==> Logical(next.sh) == Logical(now.sh)
      requires commits.Some? ==>
                 CommitsEntry(now.sh, next.sh, commits.value)
                 && Logical(next.sh) == Replay(Logical(start), log + [commits.value])
      modifies this`trace, this`now, this`marks, this`log, stageAndSequenceNumbers
      ensures Valid() && now == next && old(trace) <= trace
      ensures commits.None? ==> log == old(log)
      ensures commits.Some? ==> log == old(log) + [commits.value]
      ensures found == StagePair(old(now.sh), i)
    {
      hide StepsTo;
      found := stageAndSequenceNumbers[i];
      if found == current {
        stageAndSequenceNumbers[i] := value;
      }
      if commits.Some? {
        TickCommit(next, commits.value);
      } else {
        Tick(next);
      }
    }

    method StoreStageWord(i: nat, value: StageAndSequence, ghost next: SoloState)
      requires Valid() && i < |now.sh.slots|
      requires StepsTo(numWords, now, next)
      requires next.sh == StoreStage(now.sh, i, value.stage, value.sequence) && Logical(next.sh) == Logical(now.sh)
      modifies this`trace, this`now, this`marks, stageAndSequenceNumbers
      ensures Valid() && now == next && old(trace) <= trace
    {
      hide StepsTo;
      stageAndSequenceNumbers[i] := value;
      Tick(next);
    }

    method StoreTarget(i: nat, w: nat, target: Option<Addr>, ghost next: SoloState)
      requires Valid() && i < |now.sh.slots| && w < numWords == |now.sh.slots[i].words|
      requires StepsTo(numWords, now, next)
      requires next.sh == StoreWord(now.sh, i, w, now.sh.slots[i].words[w].(target := target))
      requires Logical(next.sh) == Logical(now.sh)
      modifies this`trace, this`now, this`marks, targetAddresses
      ensures Valid() && now == next && old(trace) <= trace
    {
      hide StepsTo;
      ghost var sh := now.sh;
      targetAddresses[i, w] := target;
      assert Sh() == next.sh by {
        assert WordsOf(i) == next.sh.slots[i].words;
        assert forall p :: 0 <= p < numThreads && p != i ==> SlotOf(p) == sh.slots[p];
      }
      Tick(next);
    }

    method StoreExpected(i: nat, w: nat, expected: Value, ghost next: SoloState)
      requires Valid() && i < |now.sh.slots| && w < numWords == |now.sh.slots[i].words|
      requires StepsTo(numWords, now, next)
      requires next.sh == StoreWord(now.sh, i, w, now.sh.slots[i].words[w].(expected := expected))
      requires Logical(next.sh) == Logical(now.sh)
      modifies this`trace, this`now, this`marks, expectedValues
      ensures Valid() && now == next && old(trace) <= trace
    {
      hide StepsTo;
      ghost var sh := now.sh;
      expectedValues[i, w] := expected;
      assert Sh() == next.sh by {
        assert WordsOf(i) == next.sh.slots[i].words;
        assert forall p :: 0 <= p < numThreads && p != i ==> SlotOf(p) == sh.slots[p];
      }
      Tick(next);
    }

    method StoreDesired(i: nat, w: nat, desired: Value, ghost next: SoloState)
      requires Valid() && i < |now.sh.slots| && w < numWords == |now.sh.slots[i].words|
      requires StepsTo(numWords, now, next)
      requires next.sh == StoreWord(now.sh, i, w, now.sh.slots[i].words[w].(desired := desired))
      requires Logical(next.sh) == Logical(now.sh)
      modifies this`trace, this`now, this`marks, desiredValues
      ensures Valid() && now == next && old(trace) <= trace
    {
      hide StepsTo;
      ghost var sh := now.sh;
      desiredValues[i, w] := desired;
      assert Sh() == next.sh by {
        assert WordsOf(i) == next.sh.slots[i].words;
        assert forall p :: 0 <= p < numThreads && p != i ==> SlotOf(p) == sh.slots[p];
      }
      Tick(next);
    }

    // ------------------------------------------------------------ set

    // Swap the marker on word `w` of a committed operation for its desired value.
    method SetWord(i: nat, sequence: nat, w: nat, ghost below: seq<Frame>, ghost f: Frame)
      requires Solo() && Runs(f, i, sequence) && Live(now.sh, f, Setting) && w < numWords
      requires now == At(now.sh, below, f, SetLoadTarget(w))
      modifies this`trace, this`now, this`marks, memory
      ensures Solo() && old(trace) <= trace
      ensures WordsOnly(old(now.sh), now.sh, i)
      ensures !Marked(now.sh, i, w) && forall x :: Marked(now.sh, i, x) ==> Marked(old(now.sh), i, x)
      ensures now == At(now.sh, below, f, AfterSet(f, w, numWords))
    {
      hide StepsTo;
      hide Valid;
      ghost var sh := now.sh;
      assert SoloSlot(sh, numWords, rank, i);
      assert CleanWord(sh.slots[i].words[w], |sh.mem|);
      SetSteps(sh, below, f, numWords, w);
      var target := LoadTarget(i, w, At(sh, below, f, SetLoadDesired(w, sh.slots[i].words[w].target.value)));
      if target.None? { assert false; }
      var a := target.value;
      var desired := LoadDesired(i, w, At(sh, below, f, SetCas(w, a, sh.slots[i].words[w].desired)));
      if Marked(sh, i, w) { CleanMarked(sh, numWords, rank, i, w, desired); }
      var found := CasMemory(a, Marker(i, sequence), desired,
                             if sh.mem[a] == MarkerOf(f)
                             then At(StoreMem(sh, a, desired), below, f, AfterSet(f, w, numWords))
                             else At(sh, below, f, SetVerify(w)));
      if found == Marker(i, sequence) {
        WriteSpares(sh, i, a, desired);
        LoggedQuiet(start, sh, now.sh, me, log);
      } else {
        var s := LoadStage(i, At(sh, below, f, AfterSet(f, w, numWords)));
        if s != StageAndSequence(Setting, sequence) { assert false; }
      }
    }

    // Swap every marker of a committed operation for its desired value.
    method Set(i: nat, sequence: nat, ghost below: seq<Frame>, ghost f: Frame)
      requires Solo() && Runs(f, i, sequence) && Live(now.sh, f, Setting)
      requires now == At(now.sh, below, f, SetLoadTarget(0))
      modifies this`trace, this`now, this`marks, memory
      ensures Solo() && old(trace) <= trace
      ensures WordsOnly(old(now.sh), now.sh, i) && Unmarked(now.sh, i)
      ensures now == At(now.sh, below, f, if f.owner then Prepare(Ok) else FinishSuccessful)
    {
      hide StepsTo;
      hide Valid;
      ghost var before := now.sh;
      for w := 0 to numWords
        invariant Solo() && old(trace) <= trace
        invariant WordsOnly(before, now.sh, i)
        invariant forall x :: 0 <= x < w ==> !Marked(now.sh, i, x)
        invariant now == At(now.sh, below, f, if w == 0 then SetLoadTarget(0) else AfterSet(f, w - 1, numWords))
      {
        ghost var sh := now.sh;
        SetWord(i, sequence, w, below, f);
        ProgressTransitive(before, sh, now.sh);
        SparesOthersTransitive(before, sh, now.sh, i);
      }
      assert SoloSlot(now.sh, numWords, rank, i);
    }

    // Reset the slot after its operation; only its owner does this.
    method PrepareForNextOperation(i: nat, sequence: nat, ghost f: Frame, ghost r: Result)
      requires Solo() && Runs(f, i, sequence) && i == me && Unfinished(now.sh, i) && Unmarked(now.sh, i)
      requires Current(now.sh, f) && now == At(now.sh, [], f, Prepare(r))
      modifies this`trace, this`now, this`marks, stageAndSequenceNumbers
      ensures Valid() && SoloInv(now.sh, numWords, rank) && old(trace) <= trace
      ensures now == Halted(StoreStage(old(now.sh), i, Inactive, sequence + 1), r)
      ensures Logical(now.sh) == Logical(old(now.sh))
    {
      hide StepsTo;
      hide Valid;
      ghost var sh := now.sh;
      assert SoloSlot(sh, numWords, rank, i);
      ResetStep(sh, f, numWords, r);
      ResetSolo(sh, numWords, rank, i);
      var nextSequence := sequence + 1;
      StoreStageWord(i, StageAndSequence(Inactive, nextSequence), Halted(StoreStage(sh, i, Inactive, nextSequence), r));
    }

    // The owner's set phase.
    method SetAndTransition(i: nat, sequence: nat, ghost f: Frame) returns (r: Result)
      requires Solo() && Runs(f, i, sequence) && f.owner && i == me && Live(now.sh, f, Setting)
      requires now == At(now.sh, [], f, SetLoadTarget(0))
      modifies this`trace, this`now, this`marks, memory, stageAndSequenceNumbers
      ensures Valid() && SoloInv(now.sh, numWords, rank) && old(trace) <= trace
      ensures r == Ok && Reset(old(now.sh), now.sh, i) && Logical(now.sh) == Logical(old(now.sh))
      ensures now == Halted(now.sh, r)
    {
      hide StepsTo;
      hide Valid;
      Set(i, sequence, [], f);
      PrepareForNextOperation(i, sequence, f, Ok);
      return Ok;
    }

    // --------------------------------------------------------- revert

    // Put the expected value back where word `w` of an aborted operation holds its marker.
    method RevertWord(i: nat, sequence: nat, w: nat, ghost below: seq<Frame>, ghost f: Frame)
      requires Solo() && Runs(f, i, sequence) && Live(now.sh, f, Reverting) && w < numWords
      requires now == At(now.sh, below, f, RevertLoadTarget(w, AfterOf(f)))
      modifies this`trace, this`now, this`marks, memory
      ensures Solo() && old(trace) <= trace
      ensures WordsOnly(old(now.sh), now.sh, i)
      ensures !Marked(now.sh, i, w) && forall x :: Marked(now.sh, i, x) ==> Marked(old(now.sh), i, x)
      ensures now == At(now.sh, below, f, AfterRevertWord(f, w))
    {
      hide StepsTo;
      hide Valid;
      ghost var sh, after := now.sh, AfterOf(f);
      assert SoloSlot(sh, numWords, rank, i);
      assert CleanWord(sh.slots[i].words[w], |sh.mem|);
      RevertSteps(sh, below, f, numWords, w);
      var target := LoadTarget(i, w, At(sh, below, f, RevertLoadExpected(w, sh.slots[i].words[w].target.value, after)));
      if target.None? { assert false; }
      var a := target.value;
      var expected := LoadExpected(i, w, At(sh, below, f, RevertCas(w, a, sh.slots[i].words[w].expected, after)));
      if Marked(sh, i, w) { CleanMarked(sh, numWords, rank, i, w, expected); }
      var found := CasMemory(a, Marker(i, sequence), expected,
                             At(if sh.mem[a] == MarkerOf(f) then StoreMem(sh, a, expected) else sh,
                                below, f, AfterRevertWord(f, w)));
      if found == Marker(i, sequence) {
        WriteSpares(sh, i, a, expected);
        LoggedQuiet(start, sh, now.sh, me, log);
      }
    }

    // Clean words `from` down to 0 of an aborted operation; no later word is marked.
    method Revert(i: nat, sequence: nat, from: nat, ghost below: seq<Frame>, ghost f: Frame)
      requires Solo() && Runs(f, i, sequence) && Live(now.sh, f, Reverting)
      requires from < numWords && UnmarkedFrom(now.sh, i, from + 1)
      requires now == At(now.sh, below, f, RevertLoadTarget(from, AfterOf(f)))
      modifies this`trace, this`now, this`marks, memory
      ensures Solo() && old(trace) <= trace
      ensures WordsOnly(old(now.sh), now.sh, i) && Unmarked(now.sh, i)
      ensures now == At(now.sh, below, f, AfterRevertWord(f, 0))
    {
      hide StepsTo;
      hide Valid;
      ghost var before := now.sh;
      for w := from + 1 downto 0
        invariant Solo() && old(trace) <= trace
        invariant WordsOnly(before, now.sh, i) && UnmarkedFrom(now.sh, i, w)
        invariant now == At(now.sh, below, f,
                            if w == from + 1 then RevertLoadTarget(from, AfterOf(f)) else AfterRevertWord(f, w))
      {
        ghost var sh := now.sh;
        RevertWord(i, sequence, w, below, f);
        ProgressTransitive(before, sh, now.sh);
        SparesOthersTransitive(before, sh, now.sh, i);
      }
    }

    // The owner's revert phase, from the word at which the claim failed.
    method RevertAndTransition(i: nat, sequence: nat, from: nat, ghost f: Frame) returns (r: Result)
      requires Solo() && Runs(f, i, sequence) && f.owner && i == me && Live(now.sh, f, Reverting)
      requires from < numWords && UnmarkedFrom(now.sh, i, from + 1)
      requires now == At(now.sh, [], f, RevertLoadTarget(from, OwnerFails))
      modifies this`trace, this`now, this`marks, memory, stageAndSequenceNumbers
      ensures Valid() && SoloInv(now.sh, numWords, rank) && old(trace) <= trace
      ensures r == ValueWasNotExpectedValue
      ensures Reset(old(now.sh), now.sh, i) && Logical(now.sh) == Logical(old(now.sh))
      ensures now == Halted(now.sh, r)
    {
      hide StepsTo;
      hide Valid;
      Revert(i, sequence, from, [], f);
      PrepareForNextOperation(i, sequence, f, ValueWasNotExpectedValue);
      return ValueWasNotExpectedValue;
    }

    // -------------------------------------------------- stage changes

    // change_stage_and_transition up to its continuation.
    method ChangeStage(i: nat, sequence: nat, current: Stage, desired: Stage,
                       ghost next: SoloState, ghost commits: Option<Entry>)
      requires Valid() && i < |now.sh.slots| && StagePair(now.sh, i) == StageAndSequence(current, sequence)
      requires StepsTo(numWords, now, next) && next.sh == StoreStage(now.sh, i, desired, sequence)
      requires commits.None? ==> Logical(next.sh) == Logical(now.sh)
      requires commits.Some? ==>
                 CommitsEntry(now.sh, next.sh, commits.value)
                 && Logical(next.sh) == Replay(Logical(start), log + [commits.value])
      modifies this`trace, this`now, this`marks, this`log, stageAndSequenceNumbers
      ensures Valid() && now == next && old(trace) <= trace
      ensures commits.None? ==> log == old(log)
      ensures commits.Some? ==> log == old(log) + [commits.value]
    {
      hide StepsTo;
      hide Valid;
      var found := CasStageWord(i, StageAndSequence(current, sequence), StageAndSequence(desired, sequence),
                                next, commits);
      if found != StageAndSequence(current, sequence) { assert false; }
    }

    // Commit: logical memory takes all desired values in this one step.
    method Commit(i: nat, sequence: nat, ghost below: seq<Frame>, ghost f: Frame)
      requires Solo() && Runs(f, i, sequence) && Live(now.sh, f, Claiming) && MarkedUpTo(now.sh, i, numWords)
      requires now == At(now.sh, below, f, DecideSetting)
      modifies this`trace, this`now, this`marks, this`log, stageAndSequenceNumbers
      ensures Solo() && old(trace) <= trace
      ensures log == old(log) + [Entry(OpId(i, sequence), old(now.sh).slots[i].words)]
      ensures now == At(StoreStage(old(now.sh), i, Setting, sequence), below, f, SetLoadTarget(0))
    {
      hide StepsTo;
      hide Valid;
      hide Logged;
      hide AtomicKcas;
      ghost var sh := now.sh;
      assert SoloSlot(sh, numWords, rank, i);
      CommitStep(sh, below, f, numWords);
      CommitSolo(sh, numWords, rank, i);
      LoggedCommit(start, sh, me, log, i);
      ChangeStage(i, sequence, Claiming, Setting, At(StoreStage(sh, i, Setting, sequence), below, f, SetLoadTarget(0)),
                  Some(Entry(OpId(i, sequence), sh.slots[i].words)));
    }

    // Abort: nothing a user reads changes.
    method Abort(i: nat, sequence: nat, w: nat, ghost below: seq<Frame>, ghost f: Frame)
      requires Solo() && Runs(f, i, sequence) && Live(now.sh, f, Claiming) && w < numWords
      requires now == At(now.sh, below, f, DecideReverting(w))
      modifies this`trace, this`now, this`marks, this`log, stageAndSequenceNumbers
      ensures Solo() && old(trace) <= trace
      ensures now == At(StoreStage(old(now.sh), i, Reverting, sequence), below, f, RevertLoadTarget(w, AfterOf(f)))
      ensures forall x :: Marked(now.sh, i, x) ==> Marked(old(now.sh), i, x)
      ensures log == old(log)
    {
      hide StepsTo;
      hide Valid;
      ghost var sh := now.sh;
      assert SoloSlot(sh, numWords, rank, i);
      AbortStep(sh, below, f, numWords, w);
      AbortSolo(sh, numWords, rank, i);
      StageSpares(sh, i, Reverting);
      ChangeStage(i, sequence, Claiming, Reverting,
                  At(StoreStage(sh, i, Reverting, sequence), below, f, RevertLoadTarget(w, AfterOf(f))), None);
      LoggedQuiet(start, sh, now.sh, me, log);
    }

    // ---------------------------------------------------------- helping

    // A helper marks the cleaned-up operation as ended and returns to `parent`.
    method HelpFinish(i: nat, sequence: nat, stage: Stage, desired: Stage,
                      ghost below: seq<Frame>, ghost parent: Frame, ghost f: Frame)
      requires Solo() && Runs(f, i, sequence) && Live(now.sh, f, stage) && Unmarked(now.sh, i)
      requires (stage == Setting && desired == Successful) || (stage == Reverting && desired == Reverted)
      requires now == At(now.sh, below + [parent], f, if stage == Setting then FinishSuccessful else FinishReverted)
      modifies this`trace, this`now, this`marks, this`log, stageAndSequenceNumbers
      ensures Solo() && old(trace) <= trace
      ensures HelpedOut(old(now.sh), now.sh, i) && now == HelpEnds(now.sh, below, parent)
    {
      hide StepsTo;
      hide Valid;
      ghost var sh := now.sh;
      assert SoloSlot(sh, numWords, rank, i);
      HelpEndStep(sh, below, parent, f, numWords);
      FinishSolo(sh, numWords, rank, i, desired);
      StageSpares(sh, i, desired);
      ChangeStage(i, sequence, stage, desired, HelpEnds(StoreStage(sh, i, desired, sequence), below, parent), None);
      LoggedQuiet(start, sh, now.sh, me, log);
    }

    method HelpSetAndTransition(i: nat, sequence: nat, ghost below: seq<Frame>, ghost parent: Frame, ghost f: Frame)
      returns (r: Result)
      requires Solo() && Runs(f, i, sequence) && !f.owner && Live(now.sh, f, Setting)
      requires now == At(now.sh, below + [parent], f, SetLoadTarget(0))
      modifies this`trace, this`now, this`marks, this`log, memory, stageAndSequenceNumbers
      ensures Solo() && old(trace) <= trace && r == Ok
      ensures HelpedOut(old(now.sh), now.sh, i) && now == HelpEnds(now.sh, below, parent)
    {
      hide StepsTo;
      hide Valid;
      ghost var sh := now.sh;
      Set(i, sequence, below + [parent], f);
      HelpTransitive(sh, now.sh, i);
      HelpFinish(i, sequence, Setting, Successful, below, parent, f);
      return Ok;
    }

    method HelpRevertAndTransition(i: nat, sequence: nat, from: nat,
                                   ghost below: seq<Frame>, ghost parent: Frame, ghost f: Frame)
      returns (r: Result)
      requires Solo() && Runs(f, i, sequence) && !f.owner && Live(now.sh, f, Reverting)
      requires from < numWords && UnmarkedFrom(now.sh, i, from + 1)
      requires now == At(now.sh, below + [parent], f, RevertLoadTarget(from, MarkReverted))
      modifies this`trace, this`now, this`marks, this`log, memory, stageAndSequenceNumbers
      ensures Solo() && old(trace) <= trace && r == Ok
      ensures HelpedOut(old(now.sh), now.sh, i) && now == HelpEnds(now.sh, below, parent)
    {
      hide StepsTo;
      hide Valid;
      ghost var sh := now.sh;
      Revert(i, sequence, from, below + [parent], f);
      HelpTransitive(sh, now.sh, i);
      HelpFinish(i, sequence, Reverting, Reverted, below, parent, f);
      return Ok;
    }

    // Help the operation whose marker a claim at rank `floor - 1` ran into. If that
    // operation is over, say so.
    method HelpThread(i: nat, encountered: nat, ghost floor: nat, ghost below: seq<Frame>, ghost parent: Frame)
      returns (r: Result)
      requires Solo() && i < |now.sh.slots| && floor <= RankBound(rank)
      requires StagePair(now.sh, i) == StageAndSequence(Claiming, encountered) ==> ClaimedBelow(now.sh, rank, i, floor)
      requires now == Running(now.sh, below + [parent], Frame(i, encountered, false, HelpLoad))
      modifies this`trace, this`now, this`marks, this`log, memory, stageAndSequenceNumbers
      ensures Solo() && old(trace) <= trace && now == Running(now.sh, below, Resume(parent, r))
      ensures Unfinished(old(now.sh), i) && old(now.sh).slots[i].seqno == encountered ==>
                r == Ok && Climbed(old(now.sh), now.sh, rank, i, floor) && !Unfinished(now.sh, i)
      ensures !(Unfinished(old(now.sh), i) && old(now.sh).slots[i].seqno == encountered) ==> now.sh == old(now.sh)
      ensures r == SequenceChangedWhileHelping <==> old(now.sh).slots[i].seqno != encountered
      ensures r == HelpeeStageIsAlreadyTerminal <==>
                && old(now.sh).slots[i].seqno == encountered
                && (old(now.sh).slots[i].stage == Successful || old(now.sh).slots[i].stage == Reverted)
      ensures r == Failed(IllegalHelpeeStage) <==>
                old(now.sh).slots[i].seqno == encountered && old(now.sh).slots[i].stage == Inactive
      decreases |UnfinishedSet(now.sh)|, RankBound(rank) - floor, 5
    {
      hide StepsTo;
      hide Valid;
      ghost var sh, f := now.sh, Frame(i, encountered, false, HelpLoad);
      assert SoloSlot(sh, numWords, rank, i);
      if sh.slots[i].seqno == encountered && Unfinished(sh, i) {
        HelpEntryStep(sh, below + [parent], f, numWords);
      } else {
        HelpRefusedSteps(sh, below, parent, f, numWords);
      }
      var s := LoadStage(i, AfterHelpLoad(sh, below, parent, f, numWords));
      if s.sequence != encountered { return SequenceChangedWhileHelping; }
      match s.stage {
        case Inactive =>
          Advance(Running(sh, below, Resume(parent, Failed(IllegalHelpeeStage))));
          r := Failed(IllegalHelpeeStage);
        case Claiming =>
          r := HelpClaimAndTransition(i, encountered, floor, below, parent, f);
        case Setting =>
          r := HelpSetAndTransition(i, encountered, below, parent, f);
          ClimbedAlone(sh, now.sh, rank, i, floor);
        case Reverting =>
          r := HelpRevertAndTransition(i, encountered, numWords - 1, below, parent, f);
          ClimbedAlone(sh, now.sh, rank, i, floor);
        case _ => r := HelpeeStageIsAlreadyTerminal;
      }
    }

    method HelpClaimAndTransition(i: nat, sequence: nat, ghost floor: nat,
                                  ghost below: seq<Frame>, ghost parent: Frame, ghost f: Frame)
      returns (r: Result)
      requires Solo() && Runs(f, i, sequence) && !f.owner && Current(now.sh, f) && floor <= RankBound(rank)
      requires Claims(now.sh, rank, i, 0, floor) && now == At(now.sh, below + [parent], f, ClaimLoadTarget(0))
      modifies this`trace, this`now, this`marks, this`log, memory, stageAndSequenceNumbers
      ensures Solo() && old(trace) <= trace && r == Ok
      ensures Climbed(old(now.sh), now.sh, rank, i, floor) && !Unfinished(now.sh, i)
      ensures now == HelpEnds(now.sh, below, parent)
      decreases |UnfinishedSet(now.sh)|, RankBound(rank) - floor, 4
    {
      hide StepsTo;
      hide Valid;
      ghost var before := now.sh;
      var claim := Claim(i, sequence, floor, below + [parent], f);
      ghost var sh := now.sh;
      match claim {
        case Claimed =>
          Commit(i, sequence, below + [parent], f);
          StageSpares(sh, i, Setting);
          HelpTransitive(sh, now.sh, i);
          r := HelpSetAndTransition(i, sequence, below, parent, f);
        case Unexpected(w) =>
          Abort(i, sequence, w, below + [parent], f);
          StageSpares(sh, i, Reverting);
          HelpTransitive(sh, now.sh, i);
          r := HelpRevertAndTransition(i, sequence, w, below, parent, f);
      }
      ClimbedAlone(sh, now.sh, rank, i, floor);
      ClimbedTransitive(before, sh, now.sh, rank, i, floor);
    }

    // ----------------------------------------------------------- claim

    // Replace the expected values by the operation's marker, word by word,
    // up to the first word that holds another value.
    method Claim(i: nat, sequence: nat, ghost floor: nat, ghost below: seq<Frame>, ghost f: Frame)
      returns (result: ClaimResult)
      requires Solo() && Runs(f, i, sequence) && Current(now.sh, f) && floor <= RankBound(rank)
      requires Claims(now.sh, rank, i, 0, floor) && now == At(now.sh, below, f, ClaimLoadTarget(0))
      modifies this`trace, this`now, this`marks, this`log, memory, stageAndSequenceNumbers
      ensures Solo() && old(trace) <= trace && Live(now.sh, f, Claiming)
      ensures Climbed(old(now.sh), now.sh, rank, i, floor) && now.sh.slots[i] == old(now.sh).slots[i]
      ensures result.Claimed? ==> MarkedUpTo(now.sh, i, numWords) && now == At(now.sh, below, f, DecideSetting)
      ensures result.Unexpected? ==> Refused(now, rank, i, result.wordNum, below, f) && result.wordNum < numWords
      decreases |UnfinishedSet(now.sh)|, RankBound(rank) - floor, 3
    {
      hide StepsTo;
      hide Valid;
      ghost var before := now.sh;
      for w := 0 to numWords
        invariant Solo() && old(trace) <= trace
        invariant Climbed(before, now.sh, rank, i, floor) && now.sh.slots[i] == before.slots[i]
        invariant Claims(now.sh, rank, i, w, floor)
        invariant now == At(now.sh, below, f, if w == 0 then ClaimLoadTarget(0) else AfterClaim(w - 1, numWords))
      {
        ghost var sh := now.sh;
        FewerUnfinished(before, sh);
        var claimed := ClaimWord(i, sequence, w, floor, below, f);
        ClimbedTransitive(before, sh, now.sh, rank, i, floor);
        if !claimed {
          return Unexpected(w);
        }
      }
      return Claimed;
    }

    method ClaimWord(i: nat, sequence: nat, w: nat, ghost floor: nat, ghost below: seq<Frame>, ghost f: Frame)
      returns (claimed: bool)
      requires Solo() && Runs(f, i, sequence) && Current(now.sh, f) && floor <= RankBound(rank) && w < numWords
      requires Claims(now.sh, rank, i, w, floor) && now == At(now.sh, below, f, ClaimLoadTarget(w))
      modifies this`trace, this`now, this`marks, this`log, memory, stageAndSequenceNumbers
      ensures Solo() && old(trace) <= trace && Live(now.sh, f, Claiming)
      ensures Climbed(old(now.sh), now.sh, rank, i, floor) && now.sh.slots[i] == old(now.sh).slots[i]
      ensures claimed ==> Claims(now.sh, rank, i, w + 1, floor) && now == At(now.sh, below, f, AfterClaim(w, numWords))
      ensures !claimed ==> Refused(now, rank, i, w, below, f)
      decreases |UnfinishedSet(now.sh)|, RankBound(rank) - floor, 2
    {
      hide StepsTo;
      hide Valid;
      ghost var before := now.sh;
      assert SoloSlot(before, numWords, rank, i);
      assert CleanWord(before.slots[i].words[w], |before.mem|);
      ClaimLoadSteps(before, below, f, numWords, w);
      var target := LoadTarget(i, w, At(before, below, f, ClaimLoadExpected(w, before.slots[i].words[w].target.value)));
      if target.None? { assert false; }
      var a := target.value;
      var e := LoadExpected(i, w, At(before, below, f, ClaimCas(w, a, before.slots[i].words[w].expected)));
      claimed := false;
      var refused := false;
      while !claimed && !refused
        invariant Solo() && old(trace) <= trace
        invariant Climbed(before, now.sh, rank, i, floor) && now.sh.slots[i] == before.slots[i]
        invariant Claims(now.sh, rank, i, if claimed then w + 1 else w, floor)
        invariant refused ==> Refused(now, rank, i, w, below, f)
        invariant claimed ==> now == At(now.sh, below, f, AfterClaim(w, numWords))
        invariant !claimed && !refused ==> now == At(now.sh, below, f, ClaimCas(w, a, e))
        decreases !claimed && !refused, |UnfinishedSet(now.sh)|
      {
        ghost var sh := now.sh;
        FewerUnfinished(before, sh);
        claimed, refused := TryClaim(i, sequence, w, a, e, floor, below, f);
        ClimbedTransitive(before, sh, now.sh, rank, i, floor);
      }
    }

    // One turn of the compare-and-swap loop of `claim`.
    method TryClaim(i: nat, sequence: nat, w: nat, a: Addr, e: Value, ghost floor: nat,
                    ghost below: seq<Frame>, ghost f: Frame)
      returns (claimed: bool, refused: bool)
      requires Solo() && Runs(f, i, sequence) && Current(now.sh, f) && floor <= RankBound(rank)
      requires Claims(now.sh, rank, i, w, floor) && w < numWords == |now.sh.slots[i].words|
      requires now.sh.slots[i].words[w].target == Some(a) && a < |now.sh.mem|
      requires now.sh.slots[i].words[w].expected == e
      requires now == At(now.sh, below, f, ClaimCas(w, a, e))
      modifies this`trace, this`now, this`marks, this`log, memory, stageAndSequenceNumbers
      ensures Solo() && old(trace) <= trace
      ensures Climbed(old(now.sh), now.sh, rank, i, floor) && now.sh.slots[i] == old(now.sh).slots[i]
      ensures Claims(now.sh, rank, i, if claimed then w + 1 else w, floor)
      ensures !(claimed && refused)
      ensures claimed ==> now == At(now.sh, below, f, AfterClaim(w, numWords))
      ensures refused ==> Refused(now, rank, i, w, below, f)
      ensures !claimed && !refused ==>
                && now == At(now.sh, below, f, ClaimCas(w, a, e))
                && |UnfinishedSet(now.sh)| < |UnfinishedSet(old(now.sh))|
      decreases |UnfinishedSet(now.sh)|, RankBound(rank) - floor, 1
    {
      hide StepsTo;
      hide Valid;
      ghost var sh := now.sh;
      assert SoloValue(sh, a);
      ClaimCasStep(sh, below, f, numWords, w, a, e);
      if sh.mem[a] == e { ClaimWordEffect(sh, numWords, rank, i, w, a, floor); }
      var found := CasMemory(a, e, Marker(i, sequence), AfterClaimCas(sh, below, f, numWords, w, a, e));
      if found == e {
        LoggedQuiet(start, sh, now.sh, me, log);
        return true, false;
      }
      if found == Marker(i, sequence) {
        return true, false;
      }
      ClaimCheckStep(sh, below, f, numWords, w, a, e, found);
      var s := LoadStage(i, AfterClaimVerify(sh, below, f, w, a, e, found));
      if s != StageAndSequence(Claiming, sequence) { assert false; }
      match found {
        case Clean(_) =>
          MismatchEffect(sh, numWords, rank, i, w, a);
          return false, true;
        case Marker(j, encountered) =>
          HelpEncountered(i, w, a, e, floor, below, f, j, encountered);
          return false, false;
        case Illegal(_) => assert false;
      }
    }

    // Help the operation whose marker the claim of word `w` ran into.
    method HelpEncountered(i: nat, w: nat, a: Addr, ghost e: Value, ghost floor: nat,
                           ghost below: seq<Frame>, ghost f: Frame, j: nat, encountered: nat)
      requires Solo() && f.slot == i && floor <= RankBound(rank)
      requires Claims(now.sh, rank, i, w, floor) && w < numWords == |now.sh.slots[i].words|
      requires now.sh.slots[i].words[w].target == Some(a) && a < |now.sh.mem|
      requires now.sh.mem[a] == Marker(j, encountered) && now.sh.mem[a] != Marker(i, now.sh.slots[i].seqno)
      requires now == AfterClaimVerify(now.sh, below, f, w, a, e, now.sh.mem[a])
      modifies this`trace, this`now, this`marks, this`log, memory, stageAndSequenceNumbers
      ensures Solo() && old(trace) <= trace
      ensures Climbed(old(now.sh), now.sh, rank, i, floor) && now.sh.slots[i] == old(now.sh).slots[i]
      ensures Claims(now.sh, rank, i, w, floor)
      ensures now == At(now.sh, below, f, ClaimCas(w, a, e))
      ensures |UnfinishedSet(now.sh)| < |UnfinishedSet(old(now.sh))|
      decreases |UnfinishedSet(now.sh)|, RankBound(rank) - floor, 0
    {
      hide StepsTo;
      hide Valid;
      ghost var sh := now.sh;
      MeetMarker(sh, numWords, rank, i, w, a, floor);
      var r := HelpThread(j, encountered, RankOf(Some(a), rank) + 1, below, f.(pc := ClaimHelping(w, a, e)));
      if r != Ok { assert false; }
      HelpEffect(sh, now.sh, numWords, rank, i, w, a, j, floor);
    }

    // --------------------------------------------------- the owner's call

    // The owner's claim phase and all that follows it.
    method ClaimAndTransition(i: nat, sequence: nat, ghost f: Frame) returns (r: Result)
      requires Solo() && Runs(f, i, sequence) && f.owner && i == me && Current(now.sh, f)
      requires Claims(now.sh, rank, i, 0, 0) && now == At(now.sh, [], f, ClaimLoadTarget(0))
      modifies this`trace, this`now, this`marks, this`log, memory, stageAndSequenceNumbers
      ensures Valid() && SoloInv(now.sh, numWords, rank) && old(trace) <= trace
      ensures Ended(start, now.sh, Entry(OpId(i, sequence), old(now.sh).slots[i].words), log, r)
      ensures now == Halted(now.sh, r)
    {
      hide StepsTo;
      hide Valid;
      hide Logical;
      hide Ended;
      ghost var own := Entry(OpId(i, sequence), now.sh.slots[i].words);
      var claim := Claim(i, sequence, 0, [], f);
      ghost var sh;
      match claim {
        case Claimed =>
          Commit(i, sequence, [], f);
          sh := now.sh;
          r := SetAndTransition(i, sequence, f);
        case Unexpected(w) =>
          ghost var refused := now.sh;
          Abort(i, sequence, w, [], f);
          sh := now.sh;
          assert Logical(sh) == Logical(refused);
          r := RevertAndTransition(i, sequence, w, f);
      }
      EndsAfterReset(start, sh, now.sh, own, log, r);
    }

    // Store one word of the operation into the descriptor.
    method StoreWordFields(i: nat, w: nat, word: KWord, ghost words: seq<KWord>, ghost f: Frame)
      requires Valid() && f.slot == i && i < |now.sh.slots| && w < numWords == |now.sh.slots[i].words| == |words|
      requires SoloInv(now.sh, numWords, rank) && now.sh.slots[i].stage == Inactive
      requires word == words[w] && now == At(now.sh, [], f, InitTarget(words, w))
      modifies this`trace, this`now, this`marks, targetAddresses, expectedValues, desiredValues
      ensures Valid() && old(trace) <= trace
      ensures SoloInv(now.sh, numWords, rank)
      ensures now == At(StoreWord(old(now.sh), i, w, word), [], f, AfterInit(words, w, numWords))
    {
      hide StepsTo;
      hide Valid;
      ghost var sh := now.sh;
      InitSteps(sh, f, numWords, words, w);
      ghost var old_ := sh.slots[i].words[w];
      ghost var sh1 := StoreWord(sh, i, w, old_.(target := word.target));
      ghost var sh2 := StoreWord(sh1, i, w, old_.(target := word.target, expected := word.expected));
      StoreSolo(sh, numWords, rank, i, w, old_.(target := word.target));
      StoreTarget(i, w, word.target, At(sh1, [], f, InitExpected(words, w)));
      StoreSolo(sh1, numWords, rank, i, w, old_.(target := word.target, expected := word.expected));
      StoreExpected(i, w, word.expected, At(sh2, [], f, InitDesired(words, w)));
      StoreSolo(sh2, numWords, rank, i, w, word);
      StoreDesired(i, w, word.desired, At(StoreWord(sh2, i, w, word), [], f, AfterInit(words, w, numWords)));
      StoreTwice(sh, i, w, old_.(target := word.target), old_.(target := word.target, expected := word.expected));
      StoreTwice(sh, i, w, old_.(target := word.target, expected := word.expected), word);
    }

    // initialize_operation: fill the descriptor, then publish the operation.
    method InitializeOperation(i: nat, words: seq<KWord>, ghost f: Frame) returns (sequence: nat)
      requires Valid() && SoloInv(now.sh, numWords, rank) && now.sh == start && i == me && f.slot == i
      requires i < |start.slots| && start.slots[i].stage == Inactive
      requires ValidWords(words, numWords, |start.mem|) && Ranked(words, rank)
      requires log == [] && now == At(now.sh, [], f, InitTarget(words, 0))
      modifies this`trace, this`now, this`marks, targetAddresses, expectedValues, desiredValues, stageAndSequenceNumbers
      ensures Solo() && old(trace) <= trace && Unmarked(now.sh, i)
      ensures sequence == start.slots[i].seqno
      ensures now.sh == start.(slots := start.slots[i := Slot(Claiming, sequence, words)])
      ensures now == At(now.sh, [], f.(seqno := sequence), ClaimLoadTarget(0))
    {
      hide StepsTo;
      hide Valid;
      assert SoloSlot(start, numWords, rank, i);
      FillEnds(start, i, words);
      for w := 0 to numWords
        invariant Valid() && old(trace) <= trace
        invariant SoloInv(now.sh, numWords, rank) && now.sh == Filled(start, i, words, w)
        invariant now == At(now.sh, [], f, if w == 0 then InitTarget(words, 0) else AfterInit(words, w - 1, numWords))
      {
        StoreWordFields(i, w, words[w], words, f);
        FillStep(start, i, words, w);
      }
      sequence := PublishOperation(i, words, f);
    }

    // Read the slot's sequence number and make the operation claimable.
    method PublishOperation(i: nat, ghost words: seq<KWord>, ghost f: Frame) returns (sequence: nat)
      requires Valid() && SoloInv(start, numWords, rank) && i == me && f.slot == i
      requires i < |start.slots| && start.slots[i].stage == Inactive && numWords > 0
      requires ValidWords(words, numWords, |start.mem|) && Ranked(words, rank)
      requires |words| == |start.slots[i].words| == numWords && now.sh == Filled(start, i, words, numWords)
      requires log == [] && now == At(now.sh, [], f, InitLoad(words))
      modifies this`trace, this`now, this`marks, stageAndSequenceNumbers
      ensures Solo() && old(trace) <= trace && Unmarked(now.sh, i)
      ensures sequence == start.slots[i].seqno
      ensures now.sh == start.(slots := start.slots[i := Slot(Claiming, sequence, words)])
      ensures now == At(now.sh, [], f.(seqno := sequence), ClaimLoadTarget(0))
    {
      hide StepsTo;
      hide Valid;
      ghost var sh, g := now.sh, f.(seqno := now.sh.slots[i].seqno);
      FillEnds(start, i, words);
      StartSteps(sh, f, numWords, words, g.seqno);
      SlotSolo(start, numWords, rank, i, Slot(Inactive, g.seqno, words));
      SlotSolo(start, numWords, rank, i, Slot(Claiming, g.seqno, words));
      assert StoreStage(sh, i, Claiming, g.seqno) == start.(slots := start.slots[i := Slot(Claiming, g.seqno, words)]);
      var original := LoadStage(i, At(sh, [], g, InitStage(words)));
      sequence := original.sequence;
      StoreStageWord(i, StageAndSequence(Claiming, sequence),
                     At(StoreStage(sh, i, Claiming, sequence), [], g, ClaimLoadTarget(0)));
      NothingLogged(start, now.sh, me);
    }

    // One k-CAS by the owner of slot `i`, alone, from any frozen state. The call
    // ends; the machine's run from its first step to its last is `trace`, along
    // which logical memory goes through the swaps of `log` one by one.
    method Kcas(i: nat, words: seq<KWord>) returns (r: Result)
      requires Shaped() && SoloInv(Sh(), numWords, rank) && i < numThreads && Sh().slots[i].stage == Inactive
      requires ValidWords(words, numWords, |rank|) && Ranked(words, rank)
      modifies this, memory, targetAddresses, expectedValues, desiredValues, stageAndSequenceNumbers
      ensures Valid() && SoloInv(Sh(), numWords, rank)
      ensures Ended(old(Sh()), Sh(), Entry(OpId(i, old(Sh()).slots[i].seqno), words), log, r)
      ensures Stepwise(old(Sh()), trace, log, marks)
      ensures trace[0] == Running(old(Sh()), [], Frame(i, 0, true, InitTarget(words, 0)))
      ensures now == Halted(Sh(), r)
    {
      hide StepsTo;
      ghost var f := Frame(i, 0, true, InitTarget(words, 0));
      start, me, log, now := Sh(), i, [], At(Sh(), [], f, InitTarget(words, 0));
      trace, marks := [now], [0];
      var sequence := InitializeOperation(i, words, f);
      ghost var g := f.(seqno := sequence);
      assert Claims(now.sh, rank, i, 0, 0);
      r := ClaimAndTransition(i, sequence, g);
    }
  }
}
