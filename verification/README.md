# Verification of the k-CAS protocol

This project models the multi-word compare-and-swap of `src/kcas` and the word
packings and thread slots it rests on, and proves what the protocol guarantees.
`dafny verify dfyconfig.toml` checks all of it.

A k-CAS operation fills its thread's descriptor, claims its targets one by one by
swapping expected values for its `(thread, sequence)` marker, decides by one
compare-and-swap of its stage word (Claiming to Setting, or Claiming to Reverting)
and swaps its markers for the desired or the expected values. A thread that runs
into a foreign marker helps that operation first, recursively.

## The two models

**The step machine** (`Machine.dfy`). Any number of threads, words and addresses.
Each atomic load, store or compare-and-swap of the code is one step of `Exec`; a
thread is a stack of frames, because `claim` calls `help_thread`, which calls
`claim` again. Steps of different threads interleave in any order. A weak
compare-and-swap may fail spuriously (`Spurious`). A `World` also carries a
`History` that no step reads; theorems are stated over whole runs (`Run`).

| frame position | code |
|---|---|
| `InitTarget`, `InitExpected`, `InitDesired`, `InitLoad`, `InitStage` | `initialize_operation`, src/kcas/mod.rs:128-167 |
| `HelpLoad` | `help_thread`, src/kcas/mod.rs:218-283 |
| `ClaimLoadTarget`, `ClaimLoadExpected`, `ClaimCas`, `ClaimVerify`, `ClaimHelping` | `claim`, src/kcas/claim.rs:229-331 |
| `DecideSetting`, `DecideReverting` | `claim_and_transition` and its helper twin, src/kcas/claim.rs:27-190, with src/kcas/stage_change.rs:66-195 |
| `SetLoadTarget`, `SetLoadDesired`, `SetCas`, `SetVerify` | `set`, src/kcas/set.rs:115-170 |
| `RevertLoadTarget`, `RevertLoadExpected`, `RevertCas` | `revert`, src/kcas/revert.rs:88-129; `AfterRevert` is the continuation passed to it |
| `FinishSuccessful`, `FinishReverted` | src/kcas/set.rs:63-73, src/kcas/mod.rs:261-277 |
| `Prepare` | `prepare_for_next_operation`, src/kcas/mod.rs:174-188 |
| `StageChanged`, `CasStageFailed`, `VerifyFailed` | the concurrent-change handlers, src/kcas/stage_change.rs:95-123, 165-194, 200-373 |
| `Acquire`, `Release` | src/wrapper.rs:20-37, 96-104 |

**The imperative methods** (`Solo.dfy`). A class with the arrays of `State` and a
target memory, and methods with the loops and the recursion of the code, run by one
thread from any frozen state in which other operations are stopped mid-protocol.
Ghost state runs the step machine beside the code, one machine step for each atomic
access, so both models describe the same executions; `Frozen.dfy` turns a solo call
into a run of the machine. Branches only a concurrent step can cause are shown to be
dead here; the machine has them.

## Assumptions

Every theorem assumes sequential consistency, user values whose thread-id bits are
all 0 or all 1 (`CallMeetsIllegal` says what a call does about any other), distinct
targets within an operation, targets touched only through k-CAS, and at least one
word. The flags of `Config` add, where a theorem says so:

- `ranked`: every operation lists its targets by one global order of addresses.
- `stable`: a slot starts an operation only when no helper is still at work on the
  slot's previous one. Callers can see to it: it is enough that no call overlaps with
  two calls of another slot (`NoStraddlingIsPatient`, `PatientIsStable`). One call per
  slot is a special case (`OneShotIsStable`).
- `mono`: no word's desired value is below its expected value. Words that only compare
  are allowed.

In general neither `stable` nor `mono` can be dropped: `PromisesDecideRefinement` and
`PromisesDecideAtomicity` say, for every number of slots, words and addresses, exactly
which of them all runs need to be atomic.
Theorems that name no flag hold with descriptor reuse and recurring values.

## Where the code and its documentation differ

- src/types.rs:130-133 says the sequence number wraps to 0 at its maximum. The code
  computes `sequence + (1 % mask)` (src/kcas/mod.rs:180-181), which never wraps:
  `NextSequenceNeverWraps` says when the two agree, `OverflowNamesAnotherThread`
  what the first sequence past the bound does.
- README.md:8-10 and src/lib.rs:3-5 call the library lock-free. A helper or an owner that
  comes too late can leave a marker of an operation that is over, and while that thread
  pauses no claim gets past it, whatever the callers promise: `CallsGetStuck`,
  `StuckForever`. The comment at src/kcas/claim.rs:311-312 takes such a marker to be gone.
- tests/common/mod.rs:54-56 asserts that all targets end with one thread's number. With
  two threads they do (`TwoCallsAreStable`, `TestOutcome`); with four threads and two words
  they need not, because a wrapper dropped early hands its slot on: `TestDecided`.
- src/types.rs:148-149 gives 5 as the bit length of 33; the loop computes 6.
- src/lib.rs:86-98 words the ordering rule for pairs of operations. The orders
  (1,2), (2,3), (3,1) agree pairwise and still form a cycle, so `ranked` is one
  global order.

## Model

| member | source | states |
|---|---|---|
| ProtocolInvariant.EveryStep | src/kcas/stage_change.rs:66-373 | From any state satisfying the invariant, every step of every frame, owner or helper, keeps the shared invariant, stays within what other threads rely on, leads to a frame that knows what its next step needs, and never returns a fatal error. |
| ProtocolInvariant.FrameStable | src/kcas/claim.rs:235-265 | What a frame has loaded and concluded (claims made so far, words switched so far, the decision it acts on) survives every step other threads may take. |
| ProtocolInvariant.RunInvariant | src/kcas/mod.rs:107-283 | The invariant holds in every state of every run, with reused descriptors and recurring values. |
| CallerPromises.DescriptorIsArgument | src/kcas/mod.rs:128-167 | In every state of every run the descriptor of a live operation, which is what helpers read, is the argument its caller passed in, and it keeps that caller's promises. |
| SafetyTheorems.NoFatalError | src/err.rs:21-65 | In every run no call returns a fatal error, no thread is about to, and every call in flight has a next step. Stages are a datatype here; that no packed stage is out of bounds is PackedRuns.StatesPackExactly. |
| SafetyTheorems.SlotsAdvance | src/kcas/stage_change.rs:84-94 | Along every run each slot's (sequence, stage) only advances, and the descriptor of a live operation does not change. |
| SafetyTheorems.OperationStartsOnce | src/kcas/mod.rs:151-166 | A (thread, sequence) pair is started by at most one step of a run, also across release and reassignment of the slot. |
| SafetyTheorems.StartOf | src/kcas/mod.rs:159-163 | Every operation under way was started by an earlier step of the run, with the words it now has. |
| SafetyTheorems.LeavingClaiming | src/kcas/stage_change.rs:84-94 | A step after which an operation is no longer Claiming takes it to Setting or to Reverting. |
| SafetyTheorems.DecidedOnce | src/kcas/stage_change.rs:84-94 | Two steps that take an operation from Claiming to Setting or Reverting are the same step and the same decision, however many threads race for it. |
| SafetyTheorems.ResultIsDecision | src/kcas/stage_change.rs:281-322 | A call returned Ok if and only if its operation went Claiming to Setting, and ValueWasNotExpectedValue if and only if it went Claiming to Reverting. |
| SafetyTheorems.SettersCommitted | src/kcas/set.rs:115-170 | Every frame in the set phase works for an operation that committed earlier in the run. |
| SafetyTheorems.AbortsAreJustified | src/kcas/claim.rs:251-295 | For every operation that goes to Reverting there was an earlier state, with the operation Claiming, in which one of its targets held a clean value other than the word's expected value. |
| SafetyTheorems.ClaimsFormPrefix | src/kcas/claim.rs:235-265 | While an operation is Claiming its marker lies exactly on a prefix of its word list and nowhere else. |
| SafetyTheorems.ClaimsPersist | src/kcas/revert.rs:115-120 | No step of any thread removes a marker of an operation that is still Claiming after the step. |
| SafetyTheorems.CommitPoint | src/kcas/claim.rs:35-47 | At the step from Claiming to Setting every target holds the operation's marker; each was placed by a compare-and-swap from that word's expected value and has stayed since. |
| SafetyTheorems.SettingCompletes | src/kcas/set.rs:121-169 | When an operation leaves Setting, each of its targets has been switched from its marker to its desired value by an earlier step. |
| SafetyTheorems.NobodyRevertsSetting | src/kcas/stage_change.rs:292-321 | While an operation is Setting no thread is reverting it. |
| SafetyTheorems.AcquiredOnce | src/wrapper.rs:20-37 | In every run a slot is acquired again only after it has been released. |
| SafetyTheorems.CallsAreOwned | src/wrapper.rs:96-104 | A slot with a call in flight belongs to a wrapper and is neither released nor acquired. |
| BoundedEndings.EndsInTime | src/kcas/stage_change.rs:66-195 | Past claiming nothing waits: in every run a frame that is past its claim, or whose operation claims no more, returns within a number of its thread's own steps that is linear in the number of words (`LeavingHasSteps`: at most 14 * NUM_WORDS + 5), whatever the other threads do. |
| BoundedEndings.OwnerEnds | src/kcas/stage_change.rs:200-322 | If that frame is the owner's the call has then returned, Ok if and only if its operation was committed and ValueWasNotExpectedValue if and only if it was aborted. |
| BoundedEndings.HelperEnds | src/kcas/stage_change.rs:130-195 | If it is a helper's the claim that asked for the help tries again, and the answer says what has become of the operation: Ok only if it is over, SequenceChangedWhileHelping only if the sequence has moved on, and always so if it had moved on before the helper began to clean up, a failed last stage change included. |
| BoundedEndings.FirstLook | src/kcas/mod.rs:218-283 | In every run a helper's first load makes it return SequenceChangedWhileHelping exactly when the sequences differ and HelpeeStageIsAlreadyTerminal exactly when the stage is Successful or Reverted, and otherwise go to work by the stage; an inactive slot of the same sequence is never found. |
| BoundedEndings.AloneEnds | src/kcas/stage_change.rs:200-322 | Left alone, an owner past its claim reaches the end of its call within that bound. |
| BoundedEndings.DecidedOwnerEnds | src/kcas/stage_change.rs:281-322 | Left alone, an owner whose operation is Setting or Successful returns Ok, and one whose operation is Reverting or Reverted returns ValueWasNotExpectedValue, from wherever it stands. |
| HelpingClimbs.TriggersIncrease | src/kcas/claim.rs:296-306 | [ranked] Along every thread's stack the addresses at which nested helps were triggered strictly increase in rank. |
| HelpingClimbs.HelpDepthBounded | src/lib.rs:86-98 | [ranked] A thread's stack never has more frames than there are addresses plus one. |
| NoOrphanMarkers.MarkersHaveKeepers | src/kcas/stage_change.rs:171-185 | [stable] Every marker lies in a target of its operation that is still to be set by the owner or that some frame in flight is bound to clean up. |
| NoOrphanMarkers.BoundUntilClean | src/kcas/revert.rs:94-127 | [stable] A frame bound to clean a word stays bound through every step of its own as long as the marker is there. |
| NoOrphanMarkers.QuietMemoryIsClean | src/kcas/stage_change.rs:258-272 | [stable] When no call is in flight memory holds no marker. |
| ReusedDescriptors.ReuseLeavesMarkers | src/kcas/revert.rs:96-109 | Without `stable`, for any number of words and two slots, wherever two calls can differ in their targets: a run in which a descriptor is reused under a late helper and after which no call is in flight but a word holds the marker of an operation that ended. |
| ReusedDescriptors.ReuseBreaksAtomicity | src/kcas/revert.rs:96-109 | Without `stable`, with values that never shrink, for any number of words, two slots and any further slots and addresses: a run after which all calls have returned and one returned Ok that expects 7 in a word which never held 7 at first and to which no call wrote 7; no order of the successful calls explains it. |
| AtomicRefinement.RunAtomic | src/kcas/claim.rs:229-331 | [stable, mono] In every state of every run: no claim succeeds after its operation has committed unless the word only compares, a marker of a committed operation has been in place since the commit or lies in a word that only compares, no target of a committed operation reads below its desired value again, and only words that compare are switched twice. |
| Linearizability.CommitRefines | src/kcas/stage_change.rs:154-164 | [stable, mono] In every run a step that commits an operation, by owner or helper, is an atomic k-CAS of that operation's words on logical memory. |
| Linearizability.OtherwiseSilent | src/kcas/set.rs:121-169 | [stable, mono] In every run every other step leaves logical memory unchanged. |
| Linearizability.Linearizable | src/kcas/mod.rs:107-121 | [stable, mono] Every completed call takes effect at one step between its start and its return: on Ok an atomic swap of all its words, on failure a state in which its expected values do not all match. |
| SequentialHistory.PromisesRefine | src/kcas/claim.rs:229-331 | [stable, mono] Every step of every run is either the commit of one operation, and an atomic k-CAS of its words on logical memory, or leaves logical memory unchanged. |
| SequentialHistory.RunIsSequential | src/kcas/mod.rs:107-121 | In every state of every run that refines the atomic object so, logical memory is the initial memory after the atomic swaps of the operations committed so far, each listed once, in commit order, with its caller's words, and applied to a memory that holds all its expected values. |
| SequentialHistory.RealTimeOrder | src/kcas/mod.rs:107-121 | In that list an operation whose call had returned before another one began comes first. |
| SequentialHistory.QuietRunExplained | src/kcas/mod.rs:107-121 | [stable, mono] Once all calls have returned, the calls that returned Ok can be ordered so that each finds its expected values, from the first memory to the final one. |
| WholeHistory.OneHistory | src/kcas/mod.rs:107-121 | All completed calls of a run that refines the atomic object form one sequential history, the failed ones included: from the first memory on, each call succeeds if and only if the memory it finds holds all its expected values, the last memory is the final logical one, and calls that do not overlap keep their order. |
| WholeHistory.PromisesGiveHistory | src/kcas/mod.rs:107-121 | [stable, mono] Every run has such a history. |
| PromisesDecide.PromisesDecideRefinement | src/kcas/claim.rs:236-256 | For every configuration and number of slots: all runs refine the atomic object if and only if `stable` and `mono` are promised, or there is one slot at most, or there are two, operations have one word and `stable` is promised, or no call can be made at all. |
| PromisesDecide.PromisesDecideAtomicity | src/kcas/mod.rs:107-121 | For every configuration and number of slots: all runs in which every call returned are explained by an order of their successful calls, from the first memory to the final one, if and only if that condition holds or there are two slots and `stable` is promised. |
| FewSlots.SingleIsTimely | src/kcas/claim.rs:236-256 | [stable] With one slot no claim succeeds after its operation has committed. |
| FewSlots.SingleIsStable | src/wrapper.rs:20-37 | With one slot `stable` holds by itself. |
| FewSlots.TwoAreTimely | src/kcas/claim.rs:236-256 | [stable] With two slots and one-word operations no claim that changes a value succeeds after its operation has committed, whatever the values do. |
| TwoSlots.HelpersFreeze | src/kcas/claim.rs:296-316 | [stable] With two slots no operation commits while a helper is at work on one that has committed. |
| TwoSlots.TwoSlotsRefine | src/kcas/claim.rs:229-331 | [stable] With two slots, any number of words and values of any kind, every run refines the atomic object when the marker of a committed operation is read as the desired value until the word is switched and as the expected value if it comes back. |
| LateOwner.LateOwnerReads | src/kcas/claim.rs:236-256 | Without `mono` and with two words, two slots are enough for a run whose last step, a late claim of an owner, changes logical memory although nothing commits. |
| PatientCalls.PatientIsStable | src/kcas/revert.rs:96-109 | If no call still in flight when a slot's next call begins was in flight while an operation of the slot was live, the run keeps `stable`. |
| PatientCalls.NoStraddlingIsPatient | src/kcas/mod.rs:107-121 | It is enough that no call overlaps with two calls of another slot. |
| Linearizability.SwitchedExactlyOnce | src/kcas/set.rs:140-151 | [stable, mono] Each target of a committed operation whose value changes is switched from marker to desired value by one step only. |
| Linearizability.NeverRemarked | src/kcas/claim.rs:251-256 | [stable, mono] Once switched, a target whose value changes never holds the operation's marker again. |
| RecurringValues.LateClaimReads | src/kcas/claim.rs:236-256 | Without `mono`, for any number of words: a run whose last step, a late claim of a helper, changes logical memory although nothing commits. |
| RecurringValues.RecurrenceBreaksAtomicity | src/kcas/claim.rs:236-256 | Without `mono`, for any number of words, three slots and any further slots and addresses: a run after which all calls have returned and a word holds 1 although every order of the successful calls leaves it at 0. |
| FirstCommitWins.RaceHasOneWinner | src/kcas/claim.rs:229-331 | If all calls have the same targets and the same expected values, which memory holds at first, and each changes every word, then, with descriptors reused at any time and values of any kind, once all calls have returned, and at least one was made, exactly one returned Ok, the others ValueWasNotExpectedValue, and every target holds the winner's desired value. |
| ExactlyOneWinner.OneSetOfValues | src/kcas/claim.rs:229-331 | [stable, mono] If all operations have the same targets and the same expected values, which memory holds at first, then once all calls have returned, and at least one was made, all targets hold the desired values of one operation that returned Ok. |
| ExactlyOneWinner.ExactlyOneWins | src/kcas/claim.rs:229-331 | [stable, mono] If moreover every operation changes some word, exactly one returned Ok, the others ValueWasNotExpectedValue, and every target holds the winner's desired value. |
| ExactlyOneWinner.OneShotIsStable | tests/common/mod.rs:29-48 | A run with one call per slot keeps the `stable` assumption. |
| ExactlyOneWinner.OneShotWinner | tests/common/mod.rs:22-57 | [mono] The unique winner for one call per slot, without assuming `stable`. |
| ConcurrencyTest.TestOutcome | tests/common/mod.rs:50-56 | The test's assertion, thread 0 included, which replaces 0 by 0: once all calls have returned every target holds the number of one call, if there are at most two calls, one per slot, `stable` is kept, or no call's number is 0. |
| ConcurrencyTest.TwoCallsAreStable | tests/common/mod.rs:29-48 | A run of at most two calls, as in the tests with two threads, keeps `stable`. |
| TestFails.TestCanFail | tests/common/mod.rs:22-57 | For any number of words from two: a run of the test in which threads 0 to 3 call once each, the last of them in the slot that thread 0 has dropped, and after which the first target holds 3 and the second 0. |
| TestFails.TestDecided | tests/common/mod.rs:54-56 | With at least four threads, three slots and two words the assertion holds in all runs if and only if `stable` is kept. |
| SoloKcas.State.constructor | src/kcas/mod.rs:87-101 | A new state has idle slots with sequence 0 and null words, and is one a solo call can start from. |
| SoloKcas.State.Kcas | src/kcas/mod.rs:107-121 | A call made alone from any frozen state ends. Logical memory goes, step by step along the ghost trace, through a list of atomic k-CASes, each at the step that commits its operation: exactly one for each other operation that was claiming at the start and has committed since, then its own if and only if it returns Ok; on failure its words do not match the final memory. The slot is reset, the frozen-state invariant holds again, and the trace is the machine's run of the call. |
| SoloKcas.State.InitializeOperation | src/kcas/mod.rs:128-167 | The descriptor holds exactly the argument words and the stage word is Claiming with the slot's own sequence; nothing else in the shared state has changed, and logical memory is the same at every step. |
| SoloKcas.State.PrepareForNextOperation | src/kcas/mod.rs:174-188 | With no marker left, resetting the slot advances the sequence and changes nothing a user reads. |
| SoloKcas.State.HelpThread | src/kcas/mod.rs:218-283 | Helping a live operation ends, leaves it finished, advances other operations only, and does not disturb any operation that claims below the address where the help was triggered; otherwise nothing changes. It returns SequenceChangedWhileHelping exactly when the sequence differs from the encountered one, HelpeeStageIsAlreadyTerminal exactly when the sequence is the same and the stage is Successful or Reverted, and the fatal IllegalHelpeeStage exactly when the sequence is the same and the stage is Inactive. |
| SoloKcas.State.ClaimAndTransition | src/kcas/claim.rs:27-102 | The owner's call from its first claim to its return; the same account of logical memory as for Kcas. |
| SoloKcas.State.HelpClaimAndTransition | src/kcas/claim.rs:108-190 | A claiming operation is driven to its end, committed or reverted, with the same guarantees as HelpThread. |
| SoloKcas.State.Claim | src/kcas/claim.rs:229-331 | Either every word holds the marker, or the claim stops at a word whose value keeps the operation from matching and from which on no word is marked; termination by unfinished operations, then remaining rank. |
| SoloKcas.State.TryClaim | src/kcas/claim.rs:251-327 | One turn of the compare-and-swap loop: the word is claimed, or refused, or a foreign operation has been helped to its end and fewer operations are unfinished. |
| SoloKcas.State.Set | src/kcas/set.rs:115-170 | No word of the operation is marked any more, nothing a user reads has changed, and no other operation's marker was touched. |
| SoloKcas.State.SetAndTransition | src/kcas/set.rs:18-49 | The set phase followed by the reset returns Ok. |
| SoloKcas.State.HelpSetAndTransition | src/kcas/set.rs:55-95 | A helper's set phase ends with the operation Successful and returns to the claim that asked for it. |
| SoloKcas.State.Revert | src/kcas/revert.rs:88-129 | If no word after the starting one is marked, no word is marked afterwards, nothing a user reads has changed, and no other operation's marker was touched. |
| SoloKcas.State.RevertAndTransition | src/kcas/revert.rs:13-40 | The owner's revert phase followed by the reset returns ValueWasNotExpectedValue. |
| SoloKcas.State.HelpRevertAndTransition | src/kcas/revert.rs:45-74 | A helper's revert phase ends with the operation Reverted and returns to the claim that asked for it. |
| SoloKcas.State.ChangeStage | src/kcas/stage_change.rs:66-94 | The stage word goes from the current to the desired stage of the same sequence; alone, the failure path is dead. |
| SoloKcas.State.HelpFinish | src/kcas/stage_change.rs:130-164 | Ending a cleaned-up operation as a helper changes nothing a user reads. |
| SoloSpec.CommitSolo | src/kcas/claim.rs:35-47 | With every word marked, the stage change to Setting is an atomic k-CAS on logical memory. |
| SoloSpec.MarkWord | src/kcas/claim.rs:251-256 | Replacing an expected value by the marker of a claiming operation changes nothing a user reads. |
| SoloSpec.CleanMarked | src/kcas/set.rs:140-145 | Replacing a marker by the value it stands for changes nothing a user reads. |
| SoloSpec.HelpSpares | src/kcas/claim.rs:296-306 | Help triggered at an address leaves alone the operation it is done for and whatever that operation must leave alone. |
| SoloSpec.MetMarker | src/kcas/claim.rs:296-298 | A claiming operation whose marker is met at an address holds every one of its words up to that rank. |
| SoloMeetsMachine.FrozenIsSolo | src/kcas/mod.rs:218-283 | [ranked] A reachable state of the machine is one a solo call can start from if and only if every marker in it belongs to an operation that has not ended. |
| SoloMeetsMachine.SoloCallIsRun | src/kcas/mod.rs:107-121 | A solo call's trace continues a run of the machine in which no other thread moves. |
| SoloMeetsMachine.WeakSwapMayFail | src/kcas/claim.rs:251-256 | The compare-and-swap of a claim may fail spuriously at any time. |
| IllegalWords.CallMeetsIllegal | src/kcas/claim.rs:281-326 | A call made alone whose first word not to hold its expected value holds an illegal word returns the fatal TopBitsOfValueWereIllegal; its operation is left Claiming with its marker on the words before. |
| SoloMeetsMachine.SpinsIffDead | src/kcas/claim.rs:309-314 | Alone, a claim that stands before a foreign marker is back in the same state after comparing, verifying and asking for help if and only if the marker's operation is over. |
| SoloMeetsMachine.DeadMarkerBlocks | src/kcas/claim.rs:309-314 | So a call alone never gets past such a marker: every later state of its trace is one of those three. |
| DeadMarkers.CallsGetStuck | src/kcas/claim.rs:298-316 | Whatever the callers promise, with three slots, or with two and operations of at least two words: a run that ends with a call standing before the marker of an operation that is over. |
| DeadMarkers.StuckForever | src/kcas/claim.rs:298-316 | Running alone from such a state the call never returns and never changes anything. |
| Packing.GetBitLengthOfNumThreads | src/types.rs:151-160 | The loop ends with 2^(b-1) <= NUM_THREADS + 1 < 2^b. |
| Packing.BitLengthUnique | src/types.rs:151-160 | Those bounds fix b. |
| Packing.StageRoundTrip | src/types.rs:105-123 | A sequence survives packing with a stage if and only if it is below 2^(bits-3); then the stage does too, so no packed stage is out of bounds. |
| Packing.StageWordIs | src/types.rs:42-66 | Below the bound a packed stage word is the sequence plus 0, 1, 2, 3, 4 or 5 times 2^(bits-3) for Inactive, Claiming, Setting, Reverting, Successful or Reverted. |
| Packing.StageReadings | src/types.rs:112-123 | Every word reads as the stage whose range of 2^(bits-3) words it lies in, and as out of bounds from 6 * 2^(bits-3) on; 0 reads as Inactive with sequence 0. |
| Packing.StageWordRebuilt | src/types.rs:105-123 | Every word whose stage is in bounds is the packing of the stage and sequence it reads as. |
| Packing.StageWordsInjective | src/types.rs:105-110 | Below the bound packed stage words are equal if and only if the pairs are. |
| Packing.MarkerRoundTrip | src/types.rs:170-187 | A sequence survives packing with a thread id if and only if it is below 2^(bits-b); then the thread id does too. |
| Packing.SequenceBound | src/types.rs:100-187 | Stage, thread id and sequence are all recovered from the two packed words if and only if the sequence is below both bounds. |
| Packing.ClassificationAgrees | src/types.rs:136-139 | Every word is clean, a marker of a thread id from 1 to NUM_THREADS, or illegal, as `claim` decides it; the markers are exactly the words is_value_a_kcas_marker accepts, the clean words exactly those with all thread bits 0 or all 1. |
| Packing.MarkerRange | src/types.rs:136-139 | With m sequence bits a word is a marker if and only if it is from 2^m up to but not including (NUM_THREADS + 1) * 2^m, it is then the packing of a thread id from 1 to NUM_THREADS and a sequence below 2^m, and it is illegal if and only if it lies above that range and below the 2^m topmost words. |
| Packing.MarkerWordIs | src/types.rs:170-187 | The marker of thread id t and sequence s is t * 2^m + s, is accepted by is_value_a_kcas_marker and reads as thread index t - 1 and sequence s. |
| Packing.KernelTopAboveThreads | src/kcas/claim.rs:281-295 | All thread bits set is 2^b - 1 and above every thread id, so clean values and markers do not overlap. |
| Packing.DecodeEncode | src/types.rs:170-187 | Decoding a packed value gives the value back. |
| Packing.EncodeInjective | src/types.rs:170-175 | Packed values are equal if and only if the values are. |
| Packing.PackedCasRefines | src/kcas/claim.rs:251-256 | A compare-and-swap on packed words succeeds on the same occasions as one on the values and leaves corresponding memories. |
| Packing.NextSequenceNeverWraps | src/kcas/mod.rs:180-183 | The successor is always sequence + 1; it is the documented wrapping successor if and only if the sequence is not the largest, and the next marker fits if and only if it is below the largest. |
| Packing.OverflowNamesAnotherThread | src/kcas/mod.rs:180-183 | What the marker after the largest sequence reads as, for every thread id: the thread's own first marker if the id is odd, the next thread's first marker if it is even, and a user value or an illegal word if there is no next thread. |
| PackedRuns.NewStateIsZeros | src/kcas/mod.rs:87-101 | The initial state of the machine is packed as words of zeros with null targets, and a zero stage word reads as Inactive with sequence 0. |
| PackedRuns.StatesPackExactly | src/types.rs:100-187 | In every reachable state whose sequences are below the bound each packed target word decodes to its value and each packed stage word to its stage and sequence; no stage is out of bounds. |
| PackedRuns.ComparisonsAgree | src/kcas/stage_change.rs:84-94 | In such a state every comparison a thread in flight makes with a target word or a stage word has the same outcome on packed words. |
| ThreadSlots.SlotTable.constructor | src/kcas/mod.rs:90 | All slots of a new state are free. |
| ThreadSlots.SlotTable.FindNextAvailable | src/wrapper.rs:20-37 | The first free slot is taken and returned and no other slot changes; the error is returned, and nothing changes, if and only if none is free. |
| ThreadSlots.SlotTable.Release | src/wrapper.rs:96-100 | Dropping a wrapper frees its slot and no other. |
| ThreadSlots.SingleOwner | src/wrapper.rs:71-81 | Over any history of constructions and drops a thread id is not given out again before its owner drops it. |
| ThreadSlots.DroppedIsReused | src/wrapper.rs:96-104 | A dropped slot is the next one given out when all lower ones are taken. |

## Left out

- Weak memory: acquire and release orderings are read as sequential consistency.
- Raw pointers and lifetimes: an address is an index into memory, a null target is `None`.
- TestFails.TestDecided: with three threads one call can be made in a slot dropped under a helper; TestOutcome covers them on its conditions only.
- Absence of markers when a failing call returns: the owner's revert starts at the word where its claim failed, and a late helper may hold a later word for a while.
- Lock-freedom does not hold (`CallsGetStuck`). What is proved of progress is that a call made alone ends from every state whose markers all belong to operations under way (`FrozenIsSolo`, `Kcas`); and that nothing waits past claiming (`EndsInTime`); wait-freedom of whole calls and fairness are not part of this model.
- Continuing a slot after a fatal return: its operation stays Claiming under the same sequence; by `NoFatalError` no run gets there.
- Sequence numbers of the step machine are unbounded. `PackedRuns` says up to which sequence its states and comparisons are those of packed words; runs past the bound are not modelled.
- NUM_WORDS = 0, and thread counts that leave fewer than two sequence bits.
- Spurious failures of the weak compare-and-swap in the imperative methods: they are stutter steps of the step machine.
- Values outside 0..2^bits and the size of user values in the step machine: a clean value is any natural number; `Packing.Storable` says which ones a word can hold.
- num_threads_in_use: no protocol step reads it, and its release is fetch_min(1) rather than a decrement.
- The three wrapper types are one slot allocator; tracing, Display, error fields, cfg selection and Send/Sync have no behaviour to prove.
- SoloKcas.State.ChangeStage: the two change-stage functions take their continuation as a closure; here the caller calls the continuation itself, and the failure path, which no thread running alone can take, is in the step machine only (`CasStageFailed`).
