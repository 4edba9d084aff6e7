// Machine words below 2^bits, where `bits` is the width of usize, and for which
// sequence numbers their packings are exact.
module Packing {
  import opened KcasTypes

  const STAGE_BIT_LENGTH: nat := 3

  // --------------------------------------------------------- bits of a word

  function Pow2(n: nat): (p: nat)
    ensures p > 0
  {
    if n == 0 then 1 else 2 * Pow2(n - 1)
  }

  ghost predicate IsWord(bits: nat, x: nat) {
    x < Pow2(bits)
  }

  // `x` followed by `s` zero bits.
  function Double(x: nat, s: nat): nat {
    if s == 0 then x else 2 * Double(x, s - 1)
  }

  // The `n` low bits of `x`.
  function Low(x: nat, n: nat): nat {
    if n == 0 then 0 else x % 2 + 2 * Low(x / 2, n - 1)
  }

  // x << s, bits shifted out of the word are lost.
  function ShiftLeft(bits: nat, x: nat, s: nat): nat {
    Low(Double(x, s), bits)
  }

  function ShiftRight(x: nat, s: nat): nat {
    if s == 0 then x else ShiftRight(x / 2, s - 1)
  }

  function BitOr(x: nat, y: nat): nat {
    if x == 0 && y == 0 then 0
    else (if x % 2 == 1 || y % 2 == 1 then 1 else 0) + 2 * BitOr(x / 2, y / 2)
  }

  function BitAnd(x: nat, y: nat): nat {
    if x == 0 || y == 0 then 0
    else (if x % 2 == 1 && y % 2 == 1 then 1 else 0) + 2 * BitAnd(x / 2, y / 2)
  }

  // !x on a word.
  function BitNot(bits: nat, x: nat): nat
    requires IsWord(bits, x)
  {
    Pow2(bits) - 1 - x
  }

  lemma {:induction false} Pow2Grows(m: nat, n: nat)
    requires m <= n
    ensures Pow2(m) <= Pow2(n)
    ensures m < n ==> 2 * Pow2(m) <= Pow2(n)
    decreases n
  {
    if m < n {
      Pow2Grows(m, n - 1);
    }
  }

  // A word is its own low bits, and only a word is.
  lemma {:induction false} LowIsAll(x: nat, n: nat)
    ensures Low(x, n) < Pow2(n)
    ensures Low(x, n) == x <==> x < Pow2(n)
    decreases n
  {
    if n > 0 {
      LowIsAll(x / 2, n - 1);
    }
  }

  // And-ing with n one-bits keeps the n low bits.
  lemma {:induction false} AndMask(x: nat, n: nat)
    ensures BitAnd(x, Pow2(n) - 1) == Low(x, n)
    decreases n
  {
    if n > 0 {
      AndMask(x / 2, n - 1);
      assert (Pow2(n) - 1) / 2 == Pow2(n - 1) - 1;
      if x == 0 { LowIsAll(0, n); }
    }
  }

  lemma {:induction false} OrZero(x: nat)
    ensures BitOr(x, 0) == x
    decreases x
  {
    if x > 0 {
      OrZero(x / 2);
    }
  }

  lemma {:induction false} OrShift(x: nat, y: nat, n: nat)
    ensures BitOr(Double(x, n), Double(y, n)) == Double(BitOr(x, y), n)
    decreases n
  {
    if n > 0 {
      OrShift(x, y, n - 1);
    }
  }

  // `s` in the n low bits below `t`: both are there to be read back.
  lemma {:induction false} Fields(t: nat, s: nat, n: nat)
    requires s < Pow2(n)
    ensures BitOr(Double(t, n), s) == Double(t, n) + s
    ensures ShiftRight(Double(t, n) + s, n) == t
    ensures Low(Double(t, n) + s, n) == s
    decreases n
  {
    if n == 0 {
      OrZero(t);
    } else {
      Fields(t, s / 2, n - 1);
      assert (Double(t, n) + s) / 2 == Double(t, n - 1) + s / 2;
    }
  }

  lemma {:induction false} FieldBelow(k: nat, m: nat, t: nat, s: nat)
    requires t < Pow2(k) && s < Pow2(m)
    ensures Double(t, m) + s < Pow2(k + m)
    decreases m
  {
    if m > 0 {
      FieldBelow(k, m - 1, t, s / 2);
    }
  }

  // A field of `k` bits above a field of `m` bits fills a word of k + m bits.
  lemma FieldsFit(k: nat, m: nat, t: nat, s: nat)
    requires t < Pow2(k) && s < Pow2(m)
    ensures Double(t, m) + s < Pow2(k + m)
    ensures ShiftLeft(k + m, t, m) == Double(t, m)
    ensures BitOr(ShiftLeft(k + m, t, m), s) == Double(t, m) + s
    ensures ShiftRight(Double(t, m) + s, m) == t
    ensures Low(Double(t, m) + s, m) == s
  {
    FieldBelow(k, m, t, s);
    LowIsAll(Double(t, m), k + m);
    Fields(t, s, m);
  }

  // Masks of one-bits.
  lemma {:induction false} OnesAbove(k: nat, m: nat)
    ensures Double(Pow2(k) - 1, m) == Pow2(k + m) - Pow2(m)
    decreases m
  {
    if m > 0 {
      OnesAbove(k, m - 1);
    }
  }

  lemma {:induction false} LowOfOnes(c: nat, n: nat)
    requires n <= c
    ensures Low(Pow2(c) - 1, n) == Pow2(n) - 1
    decreases n
  {
    if n > 0 {
      LowOfOnes(c - 1, n - 1);
      var half := Pow2(c - 1) - 1;
      assert Pow2(c) - 1 == 2 * half + 1;
      assert (2 * half + 1) / 2 == half && (2 * half + 1) % 2 == 1;
    }
  }

  lemma {:induction false} OnesShifted(c: nat, n: nat, m: nat)
    requires m <= n <= c
    ensures Low(Double(Pow2(c) - 1, m), n) == Pow2(n) - Pow2(m)
    decreases m
  {
    if m == 0 {
      LowOfOnes(c, n);
    } else {
      OnesShifted(c, n - 1, m - 1);
    }
  }

  lemma {:induction false} OnesShiftedRight(c: nat, m: nat)
    requires m <= c
    ensures ShiftRight(Pow2(c) - 1, m) == Pow2(c - m) - 1
    decreases m
  {
    if m > 0 {
      assert (Pow2(c) - 1) / 2 == Pow2(c - 1) - 1;
      OnesShiftedRight(c - 1, m - 1);
    }
  }

  // ---------------------------------------------- get_bit_length_of_num_threads

  // The number of binary digits of `x`.
  function BitLength(x: nat): nat {
    if x == 0 then 0 else 1 + BitLength(x / 2)
  }

  lemma {:induction false} BitLengthBounds(x: nat)
    ensures x < Pow2(BitLength(x))
    ensures x > 0 ==> BitLength(x) > 0 && Pow2(BitLength(x) - 1) <= x
    decreases x
  {
    if x > 0 {
      BitLengthBounds(x / 2);
    }
  }

  lemma BitLengthUnique(x: nat, b: nat)
    requires x > 0 && x < Pow2(b)
    requires b > 0 ==> Pow2(b - 1) <= x
    ensures b == BitLength(x)
  {
    BitLengthBounds(x);
    if b < BitLength(x) {
      Pow2Grows(b, BitLength(x) - 1);
    } else if BitLength(x) < b {
      Pow2Grows(BitLength(x), b - 1);
    }
  }

  // The loop counts up to the first shift that leaves nothing of NUM_THREADS + 1.
  method GetBitLengthOfNumThreads(bits: nat, numThreads: nat) returns (i: nat)
    requires IsWord(bits, numThreads + 1)
    ensures 0 < i <= bits && Pow2(i - 1) <= numThreads + 1 < Pow2(i)
    ensures i == BitLength(numThreads + 1)
  {
    var numThreadsPlusOne := numThreads + 1;
    i := 0;
    while i != bits && ShiftRight(numThreadsPlusOne, i) != 0
      invariant i <= bits
      invariant i > 0 ==> Pow2(i - 1) <= numThreadsPlusOne
      decreases bits - i
    {
      ShiftedOut(numThreadsPlusOne, i);
      i := i + 1;
    }
    ShiftedOut(numThreadsPlusOne, i);
    BitLengthUnique(numThreadsPlusOne, i);
  }

  lemma {:induction false} ShiftedOut(x: nat, i: nat)
    ensures ShiftRight(x, i) == 0 <==> x < Pow2(i)
    decreases i
  {
    if i > 0 {
      ShiftedOut(x / 2, i - 1);
    }
  }

  // ------------------------------------------------------ fields as numbers

  lemma {:induction false} DoubleIs(x: nat, s: nat)
    ensures Double(x, s) == x * Pow2(s)
    decreases s
  {
    if s > 0 {
      DoubleIs(x, s - 1);
      assert x * (2 * Pow2(s - 1)) == 2 * (x * Pow2(s - 1));
    }
  }

  // A word is its top field times 2^m plus its m low bits.
  lemma {:induction false} SplitWord(x: nat, m: nat)
    ensures x == Double(ShiftRight(x, m), m) + Low(x, m) && Low(x, m) < Pow2(m)
    decreases m
  {
    if m > 0 {
      SplitWord(x / 2, m - 1);
    }
  }

  lemma Multiples(a: nat, b: nat, p: nat)
    ensures a <= b ==> a * p <= b * p
  {
    if a <= b { assert b * p == a * p + (b - a) * p; }
  }

  // The top field is `t` exactly on one range of 2^m words.
  lemma TopFieldIs(x: nat, m: nat, t: nat)
    ensures ShiftRight(x, m) == t <==> t * Pow2(m) <= x < (t + 1) * Pow2(m)
    ensures ShiftRight(x, m) <= t <==> x < (t + 1) * Pow2(m)
  {
    var top, p := ShiftRight(x, m), Pow2(m);
    SplitWord(x, m);
    DoubleIs(top, m);
    hide Pow2;
    hide ShiftRight;
    hide Low;
    hide Double;
    assert (t + 1) * p == t * p + p && (top + 1) * p == top * p + p;
    Multiples(top, t, p);
    Multiples(t + 1, top, p);
    Multiples(top + 1, t, p);
  }

  // ---------------------------------------------------- stage and sequence

  function StageCode(stage: Stage): (c: nat)
    ensures c < 8
  {
    match stage
    case Inactive => 0
    case Claiming => 1
    case Setting => 2
    case Reverting => 3
    case Successful => 4
    case Reverted => 5
  }

  // Stage::try_from; None is the StageOutOfBoundsError.
  function StageFromCode(c: nat): (s: Option<Stage>)
    ensures s.Some? <==> c <= 5
    ensures s.Some? ==> StageCode(s.value) == c
  {
    if c == 0 then Some(Inactive)
    else if c == 1 then Some(Claiming)
    else if c == 2 then Some(Setting)
    else if c == 3 then Some(Reverting)
    else if c == 4 then Some(Successful)
    else if c == 5 then Some(Reverted)
    else None
  }

  // !(0b111 << (bits - 3)) is the mask of the low bits.
  lemma StageMask(bits: nat)
    requires bits >= STAGE_BIT_LENGTH
    ensures IsWord(bits, ShiftLeft(bits, 7, bits - STAGE_BIT_LENGTH))
    ensures BitNot(bits, ShiftLeft(bits, 7, bits - STAGE_BIT_LENGTH)) == Pow2(bits - STAGE_BIT_LENGTH) - 1
  {
    var m := bits - STAGE_BIT_LENGTH;
    assert Pow2(3) == 8;
    FieldsFit(STAGE_BIT_LENGTH, m, 7, 0);
    OnesAbove(STAGE_BIT_LENGTH, m);
  }

  function SequenceMaskForStage(bits: nat): nat
    requires bits >= STAGE_BIT_LENGTH
  {
    StageMask(bits);
    BitNot(bits, ShiftLeft(bits, 7, bits - STAGE_BIT_LENGTH))
  }

  function ConstructStageAndSequence(bits: nat, stage: Stage, sequence: nat): nat
    requires bits >= STAGE_BIT_LENGTH
  {
    BitOr(ShiftLeft(bits, StageCode(stage), bits - STAGE_BIT_LENGTH), sequence)
  }

  function ExtractStage(bits: nat, word: nat): Option<Stage>
    requires bits >= STAGE_BIT_LENGTH
  {
    StageFromCode(ShiftRight(word, bits - STAGE_BIT_LENGTH))
  }

  function ExtractSequenceOfStage(bits: nat, word: nat): nat
    requires bits >= STAGE_BIT_LENGTH
  {
    BitAnd(word, SequenceMaskForStage(bits))
  }

  // A stage and a sequence survive packing exactly when the sequence fits the
  // bits left to it; packed stages always decode.
  lemma StageRoundTrip(bits: nat, stage: Stage, sequence: nat)
    requires bits >= STAGE_BIT_LENGTH
    ensures ExtractSequenceOfStage(bits, ConstructStageAndSequence(bits, stage, sequence)) == sequence
            <==> sequence < Pow2(bits - STAGE_BIT_LENGTH)
    ensures sequence < Pow2(bits - STAGE_BIT_LENGTH) ==>
              && IsWord(bits, ConstructStageAndSequence(bits, stage, sequence))
              && ExtractStage(bits, ConstructStageAndSequence(bits, stage, sequence)) == Some(stage)
  {
    var m := bits - STAGE_BIT_LENGTH;
    assert Pow2(STAGE_BIT_LENGTH) == 8;
    hide Pow2;
    hide Low;
    hide BitOr;
    hide BitAnd;
    hide ShiftLeft;
    hide ShiftRight;
    hide Double;
    StageMask(bits);
    AndMask(ConstructStageAndSequence(bits, stage, sequence), m);
    LowIsAll(ConstructStageAndSequence(bits, stage, sequence), m);
    if sequence < Pow2(m) {
      FieldsFit(STAGE_BIT_LENGTH, m, StageCode(stage), sequence);
    }
  }

  // The packed stages as numbers: with m = bits - 3, stage c and sequence s are the word
  // s + c * 2^m.
  lemma StageWordIs(bits: nat, stage: Stage, sequence: nat)
    requires bits >= STAGE_BIT_LENGTH && sequence < Pow2(bits - 3)
    ensures var word := ConstructStageAndSequence(bits, stage, sequence);
            match stage
            case Inactive => word == sequence
            case Claiming => word == sequence + Pow2(bits - 3)
            case Setting => word == sequence + 2 * Pow2(bits - 3)
            case Reverting => word == sequence + 3 * Pow2(bits - 3)
            case Successful => word == sequence + 4 * Pow2(bits - 3)
            case Reverted => word == sequence + 5 * Pow2(bits - 3)
  {
    var m := bits - STAGE_BIT_LENGTH;
    assert Pow2(STAGE_BIT_LENGTH) == 8;
    FieldsFit(STAGE_BIT_LENGTH, m, StageCode(stage), sequence);
    DoubleIs(StageCode(stage), m);
    hide Pow2;
    hide Double;
    hide BitOr;
    hide ShiftLeft;
  }

  // How every word reads as a stage and a sequence; from 6 * 2^m on the stage is out of
  // bounds. A word of zeros, as in a new state, reads as inactive with sequence 0.
  lemma StageReadings(bits: nat, word: nat)
    requires bits >= STAGE_BIT_LENGTH && IsWord(bits, word)
    ensures var p := Pow2(bits - 3);
            && (ExtractStage(bits, word) == Some(Inactive) <==> word < p)
            && (ExtractStage(bits, word) == Some(Claiming) <==> p <= word < 2 * p)
            && (ExtractStage(bits, word) == Some(Setting) <==> 2 * p <= word < 3 * p)
            && (ExtractStage(bits, word) == Some(Reverting) <==> 3 * p <= word < 4 * p)
            && (ExtractStage(bits, word) == Some(Successful) <==> 4 * p <= word < 5 * p)
            && (ExtractStage(bits, word) == Some(Reverted) <==> 5 * p <= word < 6 * p)
            && (ExtractStage(bits, word) == None <==> 6 * p <= word)
            && ExtractSequenceOfStage(bits, word) < p
    ensures word == 0 ==> ExtractStage(bits, word) == Some(Inactive) && ExtractSequenceOfStage(bits, word) == 0
  {
    var m := bits - STAGE_BIT_LENGTH;
    StageMask(bits);
    AndMask(word, m);
    LowIsAll(word, m);
    LowZero(m);
    TopFieldIs(word, m, 0);
    TopFieldIs(word, m, 1);
    TopFieldIs(word, m, 2);
    TopFieldIs(word, m, 3);
    TopFieldIs(word, m, 4);
    TopFieldIs(word, m, 5);
    hide Pow2;
    hide ShiftRight;
    hide Low;
    hide BitAnd;
  }

  lemma {:induction false} LowZero(n: nat)
    ensures Low(0, n) == 0
    decreases n
  {
    if n > 0 { LowZero(n - 1); }
  }

  // A stage word below the bound is the packing of what it reads as.
  lemma StageWordRebuilt(bits: nat, word: nat)
    requires bits >= STAGE_BIT_LENGTH && IsWord(bits, word) && ExtractStage(bits, word).Some?
    ensures word == ConstructStageAndSequence(bits, ExtractStage(bits, word).value, ExtractSequenceOfStage(bits, word))
  {
    var m := bits - STAGE_BIT_LENGTH;
    StageMask(bits);
    AndMask(word, m);
    SplitWord(word, m);
    assert Pow2(STAGE_BIT_LENGTH) == 8;
    FieldsFit(STAGE_BIT_LENGTH, m, ShiftRight(word, m), Low(word, m));
  }

  // Comparing packed words compares the pairs.
  lemma StageWordsInjective(bits: nat, s: Stage, n: nat, s': Stage, n': nat)
    requires bits >= STAGE_BIT_LENGTH
    requires n < Pow2(bits - STAGE_BIT_LENGTH) && n' < Pow2(bits - STAGE_BIT_LENGTH)
    ensures ConstructStageAndSequence(bits, s, n) == ConstructStageAndSequence(bits, s', n')
            <==> s == s' && n == n'
  {
    StageRoundTrip(bits, s, n);
    StageRoundTrip(bits, s', n');
  }

  // -------------------------------------------------- thread and sequence

  // NUM_THREADS leaves at least two sequence bits and has words to spare.
  ghost predicate Supported(bits: nat, numThreads: nat) {
    && numThreads > 0
    && bits >= STAGE_BIT_LENGTH
    && BitLength(numThreads + 1) + 2 <= bits
  }

  // The sequence bits of a marker.
  function SequenceBits(bits: nat, numThreads: nat): nat
    requires Supported(bits, numThreads)
  {
    bits - BitLength(numThreads + 1)
  }

  lemma ThreadMask(bits: nat, m: nat)
    requires m <= bits
    ensures IsWord(bits, ShiftLeft(bits, Pow2(bits) - 1, m))
    ensures BitNot(bits, ShiftLeft(bits, Pow2(bits) - 1, m)) == Pow2(m) - 1
  {
    Pow2Grows(m, bits);
    OnesShifted(bits, bits, m);
  }

  // !(usize::MAX << num_sequence_bits)
  function SequenceMaskForThread(bits: nat, numThreads: nat): nat
    requires Supported(bits, numThreads)
  {
    var m := SequenceBits(bits, numThreads);
    ThreadMask(bits, m);
    BitNot(bits, ShiftLeft(bits, Pow2(bits) - 1, m))
  }

  function ConstructThreadAndSequence(bits: nat, numThreads: nat, threadId: nat, sequence: nat): nat
    requires Supported(bits, numThreads)
  {
    BitOr(ShiftLeft(bits, threadId, SequenceBits(bits, numThreads)), sequence)
  }

  function ExtractThread(bits: nat, numThreads: nat, word: nat): nat
    requires Supported(bits, numThreads)
  {
    ShiftRight(word, SequenceBits(bits, numThreads))
  }

  function ExtractSequenceOfThread(bits: nat, numThreads: nat, word: nat): nat
    requires Supported(bits, numThreads)
  {
    BitAnd(word, SequenceMaskForThread(bits, numThreads))
  }

  // A marker gives back its thread id and sequence exactly when the sequence
  // fits the bits the thread id leaves.
  lemma MarkerRoundTrip(bits: nat, numThreads: nat, threadId: nat, sequence: nat)
    requires Supported(bits, numThreads) && threadId <= numThreads
    ensures ExtractSequenceOfThread(bits, numThreads, ConstructThreadAndSequence(bits, numThreads, threadId, sequence))
            == sequence
            <==> sequence < Pow2(SequenceBits(bits, numThreads))
    ensures sequence < Pow2(SequenceBits(bits, numThreads)) ==>
              && IsWord(bits, ConstructThreadAndSequence(bits, numThreads, threadId, sequence))
              && ExtractThread(bits, numThreads, ConstructThreadAndSequence(bits, numThreads, threadId, sequence))
                 == threadId
  {
    var b, m := BitLength(numThreads + 1), SequenceBits(bits, numThreads);
    BitLengthBounds(numThreads + 1);
    ThreadMask(bits, m);
    AndMask(ConstructThreadAndSequence(bits, numThreads, threadId, sequence), m);
    LowIsAll(ConstructThreadAndSequence(bits, numThreads, threadId, sequence), m);
    if sequence < Pow2(m) {
      FieldsFit(b, m, threadId, sequence);
    }
  }

  // Both packings of an operation are exact precisely when its sequence is below
  // both bounds.
  lemma SequenceBound(bits: nat, numThreads: nat, stage: Stage, threadId: nat, sequence: nat)
    requires Supported(bits, numThreads) && threadId <= numThreads
    ensures
      var s := ConstructStageAndSequence(bits, stage, sequence);
      var t := ConstructThreadAndSequence(bits, numThreads, threadId, sequence);
      (ExtractStage(bits, s) == Some(stage) && ExtractSequenceOfStage(bits, s) == sequence
       && ExtractThread(bits, numThreads, t) == threadId && ExtractSequenceOfThread(bits, numThreads, t) == sequence)
      <==> sequence < Pow2(bits - STAGE_BIT_LENGTH) && sequence < Pow2(bits - BitLength(numThreads + 1))
  {
    StageRoundTrip(bits, stage, sequence);
    MarkerRoundTrip(bits, numThreads, threadId, sequence);
  }

  // -------------------------------------------- clean, marker or illegal

  // top_bits_if_value_is_kernel_pointer: usize::MAX >> num_sequence_bits
  function KernelTop(bits: nat, numThreads: nat): nat
    requires Supported(bits, numThreads)
  {
    ShiftRight(Pow2(bits) - 1, SequenceBits(bits, numThreads))
  }

  // The classification `claim` applies to a word it did not expect.
  function Decode(bits: nat, numThreads: nat, word: nat): Value
    requires Supported(bits, numThreads)
  {
    var top := ExtractThread(bits, numThreads, word);
    if top == 0 || top == KernelTop(bits, numThreads) then Clean(word)
    else if top <= numThreads then Marker(top - 1, ExtractSequenceOfThread(bits, numThreads, word))
    else Illegal(word)
  }

  predicate IsKcasMarker(bits: nat, numThreads: nat, word: nat)
    requires Supported(bits, numThreads)
  {
    var top := ExtractThread(bits, numThreads, word);
    top > 0 && top <= numThreads
  }

  // All thread bits set is more than any thread id.
  lemma KernelTopAboveThreads(bits: nat, numThreads: nat)
    requires Supported(bits, numThreads)
    ensures KernelTop(bits, numThreads) == Pow2(BitLength(numThreads + 1)) - 1
    ensures KernelTop(bits, numThreads) > numThreads
  {
    BitLengthBounds(numThreads + 1);
    OnesShiftedRight(bits, SequenceBits(bits, numThreads));
  }

  // Every word is clean, a marker or illegal, and only the markers pass
  // is_value_a_kcas_marker.
  lemma ClassificationAgrees(bits: nat, numThreads: nat, word: nat)
    requires Supported(bits, numThreads) && IsWord(bits, word)
    ensures IsKcasMarker(bits, numThreads, word) <==> Decode(bits, numThreads, word).Marker?
    ensures Decode(bits, numThreads, word).Clean? <==>
              || word < Pow2(SequenceBits(bits, numThreads))
              || word >= Pow2(bits) - Pow2(SequenceBits(bits, numThreads))
    ensures Decode(bits, numThreads, word).Marker? ==>
              && Decode(bits, numThreads, word).slot < numThreads
              && Decode(bits, numThreads, word).seqno < Pow2(SequenceBits(bits, numThreads))
  {
    hide Pow2;
    hide ShiftRight;
    hide Low;
    var m := SequenceBits(bits, numThreads);
    KernelTopAboveThreads(bits, numThreads);
    TopBits(bits, m, word);
    ThreadMask(bits, m);
    AndMask(word, m);
    LowIsAll(word, m);
  }

  // The markers as numbers: with m sequence bits, thread id t and sequence s are the word
  // t * 2^m + s, and it reads as the marker of that thread and sequence.
  lemma MarkerWordIs(bits: nat, numThreads: nat, t: nat, s: nat)
    requires Supported(bits, numThreads) && 1 <= t <= numThreads && s < Pow2(SequenceBits(bits, numThreads))
    ensures var word := ConstructThreadAndSequence(bits, numThreads, t, s);
            && IsWord(bits, word) && word == t * Pow2(SequenceBits(bits, numThreads)) + s
            && IsKcasMarker(bits, numThreads, word) && Decode(bits, numThreads, word) == Marker(t - 1, s)
  {
    var b, m := BitLength(numThreads + 1), SequenceBits(bits, numThreads);
    BitLengthBounds(numThreads + 1);
    FieldsFit(b, m, t, s);
    DoubleIs(t, m);
    MarkerRoundTrip(bits, numThreads, t, s);
    KernelTopAboveThreads(bits, numThreads);
  }

  // Which words are markers, and which are illegal. The words below 2^m and the 2^m
  // topmost ones are user values.
  lemma MarkerRange(bits: nat, numThreads: nat, word: nat)
    requires Supported(bits, numThreads) && IsWord(bits, word)
    ensures var p := Pow2(SequenceBits(bits, numThreads));
            && (IsKcasMarker(bits, numThreads, word) <==> p <= word < (numThreads + 1) * p)
            && (Decode(bits, numThreads, word).Clean? <==> word < p || word >= Pow2(bits) - p)
            && (Decode(bits, numThreads, word).Illegal? <==> (numThreads + 1) * p <= word < Pow2(bits) - p)
    ensures IsKcasMarker(bits, numThreads, word) ==>
              && 1 <= ExtractThread(bits, numThreads, word) <= numThreads
              && ExtractSequenceOfThread(bits, numThreads, word) < Pow2(SequenceBits(bits, numThreads))
              && word == ConstructThreadAndSequence(bits, numThreads, ExtractThread(bits, numThreads, word),
                                                    ExtractSequenceOfThread(bits, numThreads, word))
  {
    var m := SequenceBits(bits, numThreads);
    ClassificationAgrees(bits, numThreads, word);
    TopFieldIs(word, m, 0);
    TopFieldIs(word, m, numThreads);
    if IsKcasMarker(bits, numThreads, word) { MarkerParts(bits, numThreads, word); }
    hide Pow2;
    hide ShiftRight;
  }

  lemma MarkerParts(bits: nat, numThreads: nat, word: nat)
    requires Supported(bits, numThreads) && IsKcasMarker(bits, numThreads, word)
    ensures var m := SequenceBits(bits, numThreads);
            var t, s := ExtractThread(bits, numThreads, word), ExtractSequenceOfThread(bits, numThreads, word);
            && 1 <= t <= numThreads && s < Pow2(m) && word == t * Pow2(m) + s
            && word == ConstructThreadAndSequence(bits, numThreads, t, s)
  {
    var m := SequenceBits(bits, numThreads);
    ThreadMask(bits, m);
    AndMask(word, m);
    SplitWord(word, m);
    DoubleIs(ShiftRight(word, m), m);
    hide Pow2;
    hide ShiftRight;
    hide Low;
    hide BitAnd;
    MarkerWordIs(bits, numThreads, ExtractThread(bits, numThreads, word),
                 ExtractSequenceOfThread(bits, numThreads, word));
  }

  // The top bits are all zeros or all ones for the lowest and highest words.
  lemma {:induction false} TopBits(bits: nat, m: nat, word: nat)
    requires m <= bits && word < Pow2(bits)
    ensures ShiftRight(word, m) == 0 <==> word < Pow2(m)
    ensures ShiftRight(word, m) == Pow2(bits - m) - 1 <==> word >= Pow2(bits) - Pow2(m)
    decreases m
  {
    if m > 0 {
      TopBits(bits - 1, m - 1, word / 2);
    }
  }

  // A value the protocol stores, as a word.
  function Encode(bits: nat, numThreads: nat, v: Value): nat
    requires Supported(bits, numThreads)
  {
    match v
    case Clean(x) => x
    case Illegal(x) => x
    case Marker(i, s) => ConstructThreadAndSequence(bits, numThreads, i + 1, s)
  }

  // Values the protocol stores: a clean value whose top bits are all equal, or
  // a marker of one of the threads with a sequence that fits.
  ghost predicate Storable(bits: nat, numThreads: nat, v: Value)
    requires Supported(bits, numThreads)
  {
    match v
    case Clean(x) => IsWord(bits, x) && Decode(bits, numThreads, x) == v
    case Illegal(_) => false
    case Marker(i, s) => i < numThreads && s < Pow2(SequenceBits(bits, numThreads))
  }

  // Decoding undoes encoding.
  lemma DecodeEncode(bits: nat, numThreads: nat, v: Value)
    requires Supported(bits, numThreads) && Storable(bits, numThreads, v)
    ensures IsWord(bits, Encode(bits, numThreads, v))
    ensures Decode(bits, numThreads, Encode(bits, numThreads, v)) == v
  {
    if v.Marker? {
      MarkerRoundTrip(bits, numThreads, v.slot + 1, v.seqno);
      KernelTopAboveThreads(bits, numThreads);
    }
  }

  // ------------------------------------------- compare-and-swap on words

  // The words in memory stand for the values of the protocol.
  ghost predicate Represents(bits: nat, numThreads: nat, words: seq<nat>, mem: seq<Value>)
    requires Supported(bits, numThreads)
  {
    && |words| == |mem|
    && forall a :: 0 <= a < |mem| ==> Cell(bits, numThreads, words[a], mem[a])
  }

  ghost predicate Cell(bits: nat, numThreads: nat, word: nat, v: Value)
    requires Supported(bits, numThreads)
  {
    Storable(bits, numThreads, v) && word == Encode(bits, numThreads, v)
  }

  function CompareExchange<T(==)>(mem: seq<T>, a: Addr, expected: T, desired: T): seq<T>
    requires a < |mem|
  {
    if mem[a] == expected then mem[a := desired] else mem
  }

  // Encoded values are equal exactly when the values are.
  lemma EncodeInjective(bits: nat, numThreads: nat, u: Value, v: Value)
    requires Supported(bits, numThreads) && Storable(bits, numThreads, u) && Storable(bits, numThreads, v)
    ensures Encode(bits, numThreads, u) == Encode(bits, numThreads, v) <==> u == v
  {
    DecodeEncode(bits, numThreads, u);
    DecodeEncode(bits, numThreads, v);
  }

  // A compare-and-swap on packed words is one on the values: it succeeds on
  // the same occasions and leaves corresponding memories.
  lemma PackedCasRefines(bits: nat, numThreads: nat, words: seq<nat>, mem: seq<Value>, a: Addr, e: Value, d: Value)
    requires Supported(bits, numThreads) && Represents(bits, numThreads, words, mem) && a < |mem|
    requires Storable(bits, numThreads, e) && Storable(bits, numThreads, d)
    ensures words[a] == Encode(bits, numThreads, e) <==> mem[a] == e
    ensures Represents(bits, numThreads,
                       CompareExchange(words, a, Encode(bits, numThreads, e), Encode(bits, numThreads, d)),
                       CompareExchange(mem, a, e, d))
  {
    assert Cell(bits, numThreads, words[a], mem[a]);
    EncodeInjective(bits, numThreads, mem[a], e);
    var words', mem' := CompareExchange(words, a, Encode(bits, numThreads, e), Encode(bits, numThreads, d)),
                        CompareExchange(mem, a, e, d);
    forall b | 0 <= b < |mem| ensures Cell(bits, numThreads, words'[b], mem'[b]) {
      assert Cell(bits, numThreads, words[b], mem[b]);
    }
  }

  // ------------------------------------------------- the next sequence number

  // prepare_for_next_operation: `%` binds tighter than `+`.
  function NextSequence(bits: nat, numThreads: nat, sequence: nat): nat
    requires Supported(bits, numThreads)
  {
    ThreadMask(bits, SequenceBits(bits, numThreads));
    MaskAtLeastThree(bits, numThreads);
    sequence + Remainder(1, SequenceMaskForThread(bits, numThreads))
  }

  // x % p
  function Remainder(x: nat, p: nat): (r: nat)
    requires p > 0
    ensures r < p
  {
    if x < p then x else Remainder(x - p, p)
  }

  lemma MaskAtLeastThree(bits: nat, numThreads: nat)
    requires Supported(bits, numThreads)
    ensures SequenceMaskForThread(bits, numThreads) == Pow2(SequenceBits(bits, numThreads)) - 1
    ensures SequenceMaskForThread(bits, numThreads) >= 3
  {
    ThreadMask(bits, SequenceBits(bits, numThreads));
    Pow2Grows(2, SequenceBits(bits, numThreads));
    assert Pow2(2) == 4;
  }

  // The documented successor: back to 0 after the largest sequence.
  function WrappingSuccessor(bits: nat, numThreads: nat, sequence: nat): nat
    requires Supported(bits, numThreads)
  {
    if sequence == SequenceMaskForThread(bits, numThreads) then 0 else sequence + 1
  }

  // The successor never wraps, so it is the documented one exactly below the
  // largest sequence, and there the next marker still fits.
  lemma NextSequenceNeverWraps(bits: nat, numThreads: nat, sequence: nat)
    requires Supported(bits, numThreads)
    ensures NextSequence(bits, numThreads, sequence) == sequence + 1
    ensures NextSequence(bits, numThreads, sequence) == WrappingSuccessor(bits, numThreads, sequence)
            <==> sequence != SequenceMaskForThread(bits, numThreads)
    ensures NextSequence(bits, numThreads, sequence) < Pow2(SequenceBits(bits, numThreads))
            <==> sequence < SequenceMaskForThread(bits, numThreads)
  {
    MaskAtLeastThree(bits, numThreads);
  }

  // One past the bound the marker of an odd thread id decodes as the thread's own
  // first marker and that of an even one as the next thread's first marker; if
  // there is no next thread, as no marker at all.
  lemma OverflowNamesAnotherThread(bits: nat, numThreads: nat, threadId: nat)
    requires Supported(bits, numThreads) && 0 < threadId <= numThreads
    ensures var beyond := NextSequence(bits, numThreads, SequenceMaskForThread(bits, numThreads));
            var word := ConstructThreadAndSequence(bits, numThreads, threadId, beyond);
            Decode(bits, numThreads, word) ==
              if threadId % 2 == 1 then Marker(threadId - 1, 0)
              else if threadId < numThreads then Marker(threadId, 0)
              else if threadId + 1 == KernelTop(bits, numThreads) then Clean(word)
              else Illegal(word)
  {
    var top := if threadId % 2 == 1 then threadId else threadId + 1;
    OverflowWord(bits, numThreads, threadId);
    FirstOf(bits, numThreads, top);
    KernelTopAboveThreads(bits, numThreads);
  }

  // The word is the first marker its top bits would have.
  lemma OverflowWord(bits: nat, numThreads: nat, threadId: nat)
    requires Supported(bits, numThreads) && 0 < threadId <= numThreads
    ensures var m := SequenceBits(bits, numThreads);
            ConstructThreadAndSequence(bits, numThreads, threadId,
                                       NextSequence(bits, numThreads, SequenceMaskForThread(bits, numThreads)))
            == Double(if threadId % 2 == 1 then threadId else threadId + 1, m)
  {
    var b, m := BitLength(numThreads + 1), SequenceBits(bits, numThreads);
    MaskAtLeastThree(bits, numThreads);
    NextSequenceNeverWraps(bits, numThreads, SequenceMaskForThread(bits, numThreads));
    BitLengthBounds(numThreads + 1);
    FieldsFit(b, m, threadId, 0);
    DoubleOne(m);
    OrShift(threadId, 1, m);
    OrOne(threadId);
  }

  lemma FirstOf(bits: nat, numThreads: nat, top: nat)
    requires Supported(bits, numThreads) && top <= numThreads + 1
    ensures var word := Double(top, SequenceBits(bits, numThreads));
            ExtractThread(bits, numThreads, word) == top && ExtractSequenceOfThread(bits, numThreads, word) == 0
  {
    var m := SequenceBits(bits, numThreads);
    BitLengthBounds(numThreads + 1);
    FieldsFit(BitLength(numThreads + 1), m, top, 0);
    ThreadMask(bits, m);
    AndMask(Double(top, m), m);
  }

  lemma {:induction false} DoubleOne(m: nat)
    ensures Double(1, m) == Pow2(m)
    decreases m
  {
    if m > 0 {
      DoubleOne(m - 1);
    }
  }

  lemma OrOne(t: nat)
    ensures BitOr(t, 1) == if t % 2 == 1 then t else t + 1
  {
    OrZero(t / 2);
  }
}
