// Sequential histories: lists of operations, each swapping all of its words at
// once.
module AtomicSwaps {
  import opened KcasTypes
  import opened StepMachine

  datatype Entry = Entry(op: OpId, words: seq<KWord>)

  // Every target of the operation set to its desired value.
  function SwapAll(m: seq<nat>, words: seq<KWord>): (n: seq<nat>)
    ensures |n| == |m|
  {
    seq(|m|, a requires 0 <= a < |m| =>
      var x := WordAt(words, a); if x < |words| then BitsOf(words[x].desired) else m[a])
  }

  function Replay(m: seq<nat>, log: seq<Entry>): (n: seq<nat>)
    ensures |n| == |m|
  {
    if log == [] then m else SwapAll(Replay(m, log[..|log| - 1]), log[|log| - 1].words)
  }

  // Each operation of the list matches the memory it is applied to.
  ghost predicate Fits(m: seq<nat>, log: seq<Entry>) {
    log != [] ==>
      && Fits(m, log[..|log| - 1])
      && Matches(Replay(m, log[..|log| - 1]), log[|log| - 1].words)
  }

  lemma AtomicIsSwap(m: seq<nat>, n: seq<nat>, words: seq<KWord>)
    requires AtomicKcas(m, n, words)
    ensures n == SwapAll(m, words)
  {
    forall a | 0 <= a < |m| ensures n[a] == SwapAll(m, words)[a] {
      var x := WordAt(words, a);
      if x < |words| { assert WordSet(n, words[x]); }
    }
  }

  lemma Extend(m: seq<nat>, log: seq<Entry>, e: Entry)
    requires Fits(m, log) && Matches(Replay(m, log), e.words)
    ensures Fits(m, log + [e]) && Replay(m, log + [e]) == SwapAll(Replay(m, log), e.words)
  {
    assert (log + [e])[..|log|] == log;
  }

  // Every entry matches the memory the earlier ones leave.
  lemma {:induction false} FitsAt(m: seq<nat>, log: seq<Entry>, j: nat)
    requires Fits(m, log) && j < |log|
    ensures Fits(m, log[..j]) && Matches(Replay(m, log[..j]), log[j].words)
    decreases |log|
  {
    if j < |log| - 1 {
      FitsAt(m, log[..|log| - 1], j);
      assert log[..|log| - 1][..j] == log[..j];
    }
  }

  ghost predicate Stores(words: seq<KWord>, a: Addr, v: nat) {
    var x := WordAt(words, a);
    x < |words| && BitsOf(words[x].desired) == v
  }

  // A value that is not there at first and that no entry writes is never there.
  lemma {:induction false} NeverWritten(m: seq<nat>, log: seq<Entry>, a: Addr, v: nat)
    requires a < |m| && m[a] != v
    requires forall i :: 0 <= i < |log| ==> !Stores(log[i].words, a, v)
    ensures Replay(m, log)[a] != v
    decreases |log|
  {
    if log != [] {
      NeverWritten(m, log[..|log| - 1], a, v);
      assert !Stores(log[|log| - 1].words, a, v);
    }
  }

  // So no entry of a fitting list expects it.
  lemma NeverExpected(m: seq<nat>, log: seq<Entry>, a: Addr, v: nat, j: nat)
    requires a < |m| && m[a] != v && Fits(m, log) && j < |log|
    requires forall i :: 0 <= i < |log| ==> !Stores(log[i].words, a, v)
    ensures log[j].words != [] && log[j].words[0].target == Some(a) ==> BitsOf(log[j].words[0].expected) != v
  {
    FitsAt(m, log, j);
    NeverWritten(m, log[..j], a, v);
    assert log[j].words != [] ==> WordMatches(Replay(m, log[..j]), log[j].words[0]);
  }
}
