// Shared vocabulary of the k-CAS protocol: operation stages, the contents of
// a target word, the per-thread descriptor, and the logical memory a k-CAS
// user observes. Both protocol models (the interleaved step machine and the
// imperative methods run by one thread) are built on these definitions.
module KcasTypes {

  datatype Option<+T> = None | Some(value: T)

  // A target word is identified by its index in memory.
  type Addr = nat

  datatype Stage = Inactive | Claiming | Setting | Reverting | Successful | Reverted

  // What a target word holds: a user value, the (thread, sequence) marker of
  // an operation, or a bit pattern that is neither.
  datatype Value =
    | Clean(bits: nat)
    | Marker(slot: nat, seqno: nat)
    | Illegal(pattern: nat)

  // One word of an operation. A `None` target is the null pointer a
  // descriptor holds before its first operation.
  datatype KWord = KWord(target: Option<Addr>, expected: Value, desired: Value)

  // One thread's reusable descriptor together with its stage and sequence.
  datatype Slot = Slot(stage: Stage, seqno: nat, words: seq<KWord>)

  datatype Shared = Shared(mem: seq<Value>, slots: seq<Slot>)

  datatype Fatal =
    | StageOutOfBounds
    | IllegalStageChange
    | IllegalHelpeeStage
    | TargetAddressWasNotValidPointer
    | SequenceNumChangedByNonOriginatingThread
    | TopBitsOfValueWereIllegal

  // How a call ends. The first two and `Failed` are results of `kcas`; a
  // helper never reports `ValueWasNotExpectedValue`.
  datatype Result =
    | Ok
    | ValueWasNotExpectedValue
    | SequenceChangedWhileHelping
    | HelpeeStageIsAlreadyTerminal
    | Failed(error: Fatal)

  function Last<T>(s: seq<T>): T
    requires s != []
  {
    s[|s| - 1]
  }

  const NULL_WORD := KWord(None, Clean(0), Clean(0))

  // ---------------------------------------------------------------- inputs

  ghost predicate CleanWord(word: KWord, size: nat) {
    && word.target.Some? && word.target.value < size
    && word.expected.Clean? && word.desired.Clean?
  }

  ghost predicate DistinctTargets(words: seq<KWord>) {
    forall x, y :: 0 <= x < y < |words| ==> words[x].target != words[y].target
  }

  // The documented obligations of a caller of `kcas`.
  ghost predicate ValidWords(words: seq<KWord>, k: nat, size: nat) {
    && |words| == k
    && (forall x :: 0 <= x < k ==> CleanWord(words[x], size))
    && DistinctTargets(words)
  }

  ghost predicate Ranked(words: seq<KWord>, rank: seq<nat>) {
    forall x, y :: 0 <= x < y < |words| ==> RankOf(words[x].target, rank) < RankOf(words[y].target, rank)
  }

  function RankOf(target: Option<Addr>, rank: seq<nat>): nat {
    if target.Some? && target.value < |rank| then rank[target.value] else 0
  }

  // No word takes a value down. A word that only compares keeps its value.
  ghost predicate NonDecreasing(words: seq<KWord>) {
    forall x :: 0 <= x < |words| && words[x].expected.Clean? && words[x].desired.Clean?
      ==> words[x].expected.bits <= words[x].desired.bits
  }

  predicate ComparesOnly(word: KWord) {
    word.expected == word.desired
  }

  // ------------------------------------------------------- shared accessors

  // Word `x` of slot `i`'s current operation holds that operation's marker.
  ghost predicate Marked(sh: Shared, i: nat, x: nat) {
    && i < |sh.slots| && x < |sh.slots[i].words|
    && sh.slots[i].words[x].target.Some?
    && sh.slots[i].words[x].target.value < |sh.mem|
    && sh.mem[sh.slots[i].words[x].target.value] == Marker(i, sh.slots[i].seqno)
  }

  // ------------------------------------------------------ logical memory

  // The first word of `words` whose target is `a`, or |words| if there is none.
  function WordAt(words: seq<KWord>, a: Addr): (x: nat)
    ensures x <= |words|
    ensures x < |words| ==> words[x].target == Some(a)
    ensures forall y :: 0 <= y < x ==> words[y].target != Some(a)
  {
    if words == [] then 0
    else if words[0].target == Some(a) then 0
    else
      var r := WordAt(words[1..], a);
      assert forall y :: 0 < y < r + 1 ==> words[y] == words[1..][y - 1];
      r + 1
  }

  lemma HomeIs(words: seq<KWord>, x: nat, a: Addr)
    requires DistinctTargets(words) && x < |words| && words[x].target == Some(a)
    ensures WordAt(words, a) == x
  {
  }

  function BitsOf(v: Value): nat {
    if v.Clean? then v.bits else 0
  }

  predicate Committed(stage: Stage) {
    stage == Setting || stage == Successful
  }

  // What a user reads at `a`: a marker stands for the expected value until its
  // operation commits and for the desired value from then on.
  function LogicalAt(sh: Shared, a: Addr): nat
    requires a < |sh.mem|
  {
    match sh.mem[a]
    case Clean(v) => v
    case Illegal(_) => 0
    case Marker(i, s) =>
      if i >= |sh.slots| then 0
      else
        var words := sh.slots[i].words;
        var x := WordAt(words, a);
        if x == |words| then 0
        else if sh.slots[i].seqno == s && Committed(sh.slots[i].stage) then BitsOf(words[x].desired)
        else BitsOf(words[x].expected)
  }

  function Logical(sh: Shared): (m: seq<nat>)
    ensures |m| == |sh.mem|
  {
    seq(|sh.mem|, a requires 0 <= a < |sh.mem| => LogicalAt(sh, a))
  }

  // --------------------------------------------- the atomic specification

  // All words of the operation hold their expected values in `m`.
  ghost predicate Matches(m: seq<nat>, words: seq<KWord>) {
    forall x :: 0 <= x < |words| ==> WordMatches(m, words[x])
  }

  ghost predicate WordMatches(m: seq<nat>, word: KWord) {
    && word.target.Some? && word.target.value < |m|
    && m[word.target.value] == BitsOf(word.expected)
  }

  // `n` is `m` with every target of the operation set to its desired value.
  ghost predicate Swapped(m: seq<nat>, n: seq<nat>, words: seq<KWord>) {
    && |n| == |m|
    && (forall x :: 0 <= x < |words| ==> WordSet(n, words[x]))
    && (forall a :: 0 <= a < |m| && WordAt(words, a) == |words| ==> n[a] == m[a])
  }

  ghost predicate WordSet(n: seq<nat>, word: KWord) {
    && word.target.Some? && word.target.value < |n|
    && n[word.target.value] == BitsOf(word.desired)
  }

  // A successful multi-word compare-and-swap, as one atomic action.
  ghost predicate AtomicKcas(m: seq<nat>, n: seq<nat>, words: seq<KWord>) {
    Matches(m, words) && Swapped(m, n, words)
  }
}
