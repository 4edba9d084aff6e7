// What one thread running alone may rely on, and what each of its atomic
// actions does to logical memory. The thread starts from a frozen state in
// which other operations are stopped anywhere between claiming and clean-up.
module SoloSpec {
  import opened KcasTypes
  import opened StepMachine
  import opened ProtocolInvariant

  // Operation of slot `i` is under way and not yet cleaned up.
  predicate Unfinished(sh: Shared, i: nat) {
    i < |sh.slots|
    && (sh.slots[i].stage == Claiming || sh.slots[i].stage == Setting || sh.slots[i].stage == Reverting)
  }

  ghost predicate SoloSlot(sh: Shared, k: nat, rank: seq<nat>, i: nat) {
    && i < |sh.slots|
    && |sh.slots[i].words| == k
    && (Unfinished(sh, i) ==> ValidWords(sh.slots[i].words, k, |sh.mem|) && Ranked(sh.slots[i].words, rank))
    && (sh.slots[i].stage == Claiming ==> PrefixMarked(sh, i))
  }

  // Every marker belongs to a live, unfinished operation and lies in one of
  // its targets.
  ghost predicate SoloValue(sh: Shared, a: Addr)
    requires a < |sh.mem|
  {
    match sh.mem[a]
    case Clean(_) => true
    case Illegal(_) => false
    case Marker(i, s) =>
      Unfinished(sh, i) && sh.slots[i].seqno == s && WordAt(sh.slots[i].words, a) < |sh.slots[i].words|
  }

  ghost predicate SoloInv(sh: Shared, k: nat, rank: seq<nat>) {
    && k > 0 && |rank| == |sh.mem|
    && (forall i :: 0 <= i < |sh.slots| ==> SoloSlot(sh, k, rank, i))
    && (forall a :: 0 <= a < |sh.mem| ==> SoloValue(sh, a))
  }

  // ------------------------------------------------ how others are affected

  // Descriptors stay, stages only move on.
  ghost predicate Progress(sh: Shared, sh': Shared) {
    && |sh'.mem| == |sh.mem| && |sh'.slots| == |sh.slots|
    && forall i :: 0 <= i < |sh.slots| ==> SlotProgress(sh, sh', i)
  }

  ghost predicate SlotProgress(sh: Shared, sh': Shared, i: nat) {
    && i < |sh.slots| && i < |sh'.slots|
    && sh'.slots[i].words == sh.slots[i].words && sh'.slots[i].seqno == sh.slots[i].seqno
    && StageAdvances(sh.slots[i].stage, sh'.slots[i].stage)
  }

  // Operation `i` is claiming and holds markers only below rank `floor`.
  ghost predicate Below(sh: Shared, rank: seq<nat>, i: nat, floor: nat) {
    && i < |sh.slots| && sh.slots[i].stage == Claiming
    && forall a :: 0 <= a < |sh.mem| && sh.mem[a] == Marker(i, sh.slots[i].seqno) ==> RankOf(Some(a), rank) < floor
  }

  // Operation `i` and its markers are as they were.
  ghost predicate Undisturbed(sh: Shared, sh': Shared, i: nat) {
    && i < |sh.slots| && i < |sh'.slots| && |sh'.mem| == |sh.mem|
    && sh'.slots[i] == sh.slots[i]
    && forall a :: 0 <= a < |sh.mem| ==>
         (sh'.mem[a] == Marker(i, sh.slots[i].seqno) <==> sh.mem[a] == Marker(i, sh.slots[i].seqno))
  }

  // Operations other than `i` that claim below `floor` are left alone.
  ghost predicate SparesBelow(sh: Shared, sh': Shared, rank: seq<nat>, i: nat, floor: nat) {
    forall p :: p != i && Below(sh, rank, p, floor) ==> Undisturbed(sh, sh', p)
  }

  // Everything but operation `i` is left alone.
  ghost predicate SparesOthers(sh: Shared, sh': Shared, i: nat) {
    forall p :: 0 <= p < |sh.slots| && p != i ==> Undisturbed(sh, sh', p)
  }

  lemma SparesTransitive(sh: Shared, sh1: Shared, sh2: Shared, rank: seq<nat>, i: nat, floor: nat)
    requires SparesBelow(sh, sh1, rank, i, floor) && SparesBelow(sh1, sh2, rank, i, floor)
    ensures SparesBelow(sh, sh2, rank, i, floor)
  {
    forall p | p != i && Below(sh, rank, p, floor) ensures Undisturbed(sh, sh2, p) {
      assert Undisturbed(sh, sh1, p);
      assert Below(sh1, rank, p, floor);
    }
  }

  lemma SparesOthersTransitive(sh: Shared, sh1: Shared, sh2: Shared, i: nat)
    requires SparesOthers(sh, sh1, i) && SparesOthers(sh1, sh2, i) && |sh1.slots| == |sh.slots|
    ensures SparesOthers(sh, sh2, i)
  {
    forall p | 0 <= p < |sh.slots| && p != i ensures Undisturbed(sh, sh2, p) {
      assert Undisturbed(sh, sh1, p) && Undisturbed(sh1, sh2, p);
    }
  }

  lemma ProgressTransitive(sh: Shared, sh1: Shared, sh2: Shared)
    requires Progress(sh, sh1) && Progress(sh1, sh2)
    ensures Progress(sh, sh2)
  {
    forall i | 0 <= i < |sh.slots| ensures SlotProgress(sh, sh2, i) {
      assert SlotProgress(sh, sh1, i) && SlotProgress(sh1, sh2, i);
    }
  }

  // ------------------------------------------------- unfinished operations

  function UnfinishedSet(sh: Shared): set<nat> {
    set i | 0 <= i < |sh.slots| && Unfinished(sh, i)
  }

  lemma FewerUnfinished(sh: Shared, sh': Shared)
    requires Progress(sh, sh')
    ensures |UnfinishedSet(sh')| <= |UnfinishedSet(sh)|
    ensures forall i :: Unfinished(sh, i) && !Unfinished(sh', i) ==> |UnfinishedSet(sh')| < |UnfinishedSet(sh)|
  {
    forall j | j in UnfinishedSet(sh') ensures j in UnfinishedSet(sh) {
      assert SlotProgress(sh, sh', j);
    }
    SubsetSize(UnfinishedSet(sh'), UnfinishedSet(sh));
    forall i | Unfinished(sh, i) && !Unfinished(sh', i)
      ensures |UnfinishedSet(sh')| < |UnfinishedSet(sh)|
    {
      SubsetSize(UnfinishedSet(sh'), UnfinishedSet(sh) - {i});
    }
  }

  lemma {:induction false} SubsetSize(s: set<nat>, t: set<nat>)
    requires s <= t
    ensures |s| <= |t|
    decreases |s|
  {
    if s != {} {
      var x :| x in s;
      SubsetSize(s - {x}, t - {x});
    }
  }

  // ------------------------------------------------------ logical effects

  // Writes to words that hold `i`'s marker, or are about to, spare everyone else.
  lemma WriteSpares(sh: Shared, i: nat, a: Addr, v: Value)
    requires a < |sh.mem| && i < |sh.slots|
    requires sh.mem[a] == Marker(i, sh.slots[i].seqno) || sh.mem[a].Clean?
    requires v == Marker(i, sh.slots[i].seqno) || v.Clean?
    ensures SparesOthers(sh, StoreMem(sh, a, v), i)
    ensures Progress(sh, StoreMem(sh, a, v))
  {
  }

  lemma SameLogical(sh: Shared, sh': Shared)
    requires |sh'.mem| == |sh.mem|
    requires forall a :: 0 <= a < |sh.mem| ==> LogicalAt(sh', a) == LogicalAt(sh, a)
    ensures Logical(sh') == Logical(sh)
  {
  }

  // Claiming word `x`: its expected value gives way to the marker.
  lemma MarkWord(sh: Shared, k: nat, rank: seq<nat>, i: nat, x: nat)
    requires SoloInv(sh, k, rank) && i < |sh.slots| && sh.slots[i].stage == Claiming
    requires x < k == |sh.slots[i].words| && MarkedUpTo(sh, i, x)
    requires sh.slots[i].words[x].target.Some? && sh.slots[i].words[x].target.value < |sh.mem|
    requires sh.mem[sh.slots[i].words[x].target.value] == sh.slots[i].words[x].expected
    ensures var sh' := StoreMem(sh, sh.slots[i].words[x].target.value, Marker(i, sh.slots[i].seqno));
            && SoloInv(sh', k, rank) && Logical(sh') == Logical(sh) && MarkedUpTo(sh', i, x + 1)
  {
    var a := sh.slots[i].words[x].target.value;
    var sh' := StoreMem(sh, a, Marker(i, sh.slots[i].seqno));
    assert SoloSlot(sh, k, rank, i);
    assert CleanWord(sh.slots[i].words[x], |sh.mem|);
    HomeIs(sh.slots[i].words, x, a);
    forall j, y: nat | Marked(sh, j, y) ensures Marked(sh', j, y) {}
    assert Marked(sh', i, x);
    forall j | 0 <= j < |sh.slots| ensures SoloSlot(sh', k, rank, j) {
      assert SoloSlot(sh, k, rank, j);
      if sh.slots[j].stage == Claiming {
        forall y: nat | Marked(sh', j, y) ensures MarkedUpTo(sh', j, y) {
          if Marked(sh, j, y) {
            assert MarkedUpTo(sh, j, y);
          } else {
            assert j == i && y == x;
          }
        }
      }
    }
    forall b | 0 <= b < |sh.mem| ensures SoloValue(sh', b) && LogicalAt(sh', b) == LogicalAt(sh, b) {
      assert SoloValue(sh, b);
    }
    SameLogical(sh, sh');
  }

  // Cleaning word `x`: the marker gives way to the value it reads as.
  lemma CleanMarked(sh: Shared, k: nat, rank: seq<nat>, i: nat, x: nat, v: Value)
    requires SoloInv(sh, k, rank) && Unfinished(sh, i) && sh.slots[i].stage != Claiming && x < k
    requires Marked(sh, i, x)
    requires v == if sh.slots[i].stage == Setting then sh.slots[i].words[x].desired else sh.slots[i].words[x].expected
    ensures var sh' := StoreMem(sh, sh.slots[i].words[x].target.value, v);
            && SoloInv(sh', k, rank) && Logical(sh') == Logical(sh) && !Marked(sh', i, x)
            && forall y :: Marked(sh', i, y) ==> Marked(sh, i, y)
  {
    var a := sh.slots[i].words[x].target.value;
    var sh' := StoreMem(sh, a, v);
    assert SoloSlot(sh, k, rank, i);
    assert CleanWord(sh.slots[i].words[x], |sh.mem|);
    HomeIs(sh.slots[i].words, x, a);
    forall j | 0 <= j < |sh.slots| ensures SoloSlot(sh', k, rank, j) {
      assert SoloSlot(sh, k, rank, j);
      if sh.slots[j].stage == Claiming {
        forall y: nat ensures Marked(sh', j, y) <==> Marked(sh, j, y) {}
        forall y: nat | Marked(sh', j, y) ensures MarkedUpTo(sh', j, y) {
          assert Marked(sh, j, y) && MarkedUpTo(sh, j, y);
        }
      }
    }
    forall b | 0 <= b < |sh.mem| ensures SoloValue(sh', b) && LogicalAt(sh', b) == LogicalAt(sh, b) {
      assert SoloValue(sh, b);
    }
    SameLogical(sh, sh');
  }

  // No word of operation `i` holds its marker any more.
  ghost predicate Unmarked(sh: Shared, i: nat) {
    forall x :: !Marked(sh, i, x)
  }

  lemma NoMarkerLeft(sh: Shared, k: nat, rank: seq<nat>, i: nat, a: Addr)
    requires SoloInv(sh, k, rank) && i < |sh.slots| && Unmarked(sh, i) && a < |sh.mem|
    ensures sh.mem[a] != Marker(i, sh.slots[i].seqno)
  {
    assert SoloValue(sh, a);
    assert !Marked(sh, i, WordAt(sh.slots[i].words, a));
  }

  // A stage change of slot `i` leaves all other operations alone.
  lemma StageSpares(sh: Shared, i: nat, stage: Stage)
    requires i < |sh.slots| && StageAdvances(sh.slots[i].stage, stage)
    ensures var sh' := StoreStage(sh, i, stage, sh.slots[i].seqno);
            SparesOthers(sh, sh', i) && Progress(sh, sh')
  {
  }

  // The commit: with every word marked, logical memory takes all desired values.
  lemma CommitSolo(sh: Shared, k: nat, rank: seq<nat>, i: nat)
    requires SoloInv(sh, k, rank) && i < |sh.slots| && sh.slots[i].stage == Claiming && MarkedUpTo(sh, i, k)
    ensures var sh' := StoreStage(sh, i, Setting, sh.slots[i].seqno);
            SoloInv(sh', k, rank) && AtomicKcas(Logical(sh), Logical(sh'), sh.slots[i].words)
  {
    var sh' := StoreStage(sh, i, Setting, sh.slots[i].seqno);
    var words := sh.slots[i].words;
    StageKeepsInv(sh, k, rank, i, Setting);
    assert SoloSlot(sh, k, rank, i);
    forall x | 0 <= x < |words| ensures WordMatches(Logical(sh), words[x]) && WordSet(Logical(sh'), words[x]) {
      assert Marked(sh, i, x);
      HomeIs(words, x, words[x].target.value);
    }
    forall a | 0 <= a < |sh.mem| && WordAt(words, a) == |words| ensures Logical(sh')[a] == Logical(sh)[a] {
      assert SoloValue(sh, a);
    }
  }

  lemma StageKeepsInv(sh: Shared, k: nat, rank: seq<nat>, i: nat, stage: Stage)
    requires SoloInv(sh, k, rank) && Unfinished(sh, i)
    requires stage == Setting || stage == Reverting || (stage != Claiming && Unmarked(sh, i))
    ensures SoloInv(StoreStage(sh, i, stage, sh.slots[i].seqno), k, rank)
  {
    var sh' := StoreStage(sh, i, stage, sh.slots[i].seqno);
    forall j | 0 <= j < |sh.slots| ensures SoloSlot(sh', k, rank, j) {
      assert SoloSlot(sh, k, rank, j);
      if sh'.slots[j].stage == Claiming {
        forall y: nat ensures Marked(sh', j, y) <==> Marked(sh, j, y) {}
        forall y: nat | Marked(sh', j, y) ensures MarkedUpTo(sh', j, y) {
          assert Marked(sh, j, y) && MarkedUpTo(sh, j, y);
        }
      }
    }
    forall b | 0 <= b < |sh.mem| ensures SoloValue(sh', b) {
      assert SoloValue(sh, b);
      if stage != Setting && stage != Reverting { NoMarkerLeft(sh, k, rank, i, b); }
    }
  }

  // Giving up changes nothing a user reads.
  lemma AbortSolo(sh: Shared, k: nat, rank: seq<nat>, i: nat)
    requires SoloInv(sh, k, rank) && i < |sh.slots| && sh.slots[i].stage == Claiming
    ensures var sh' := StoreStage(sh, i, Reverting, sh.slots[i].seqno);
            SoloInv(sh', k, rank) && Logical(sh') == Logical(sh)
  {
    var sh' := StoreStage(sh, i, Reverting, sh.slots[i].seqno);
    StageKeepsInv(sh, k, rank, i, Reverting);
    SameLogical(sh, sh');
  }

  // Nor does ending a cleaned-up operation, as a helper or as the owner.
  lemma FinishSolo(sh: Shared, k: nat, rank: seq<nat>, i: nat, stage: Stage)
    requires SoloInv(sh, k, rank) && Unfinished(sh, i) && Unmarked(sh, i)
    requires stage == Successful || stage == Reverted
    ensures var sh' := StoreStage(sh, i, stage, sh.slots[i].seqno);
            SoloInv(sh', k, rank) && Logical(sh') == Logical(sh) && !Unfinished(sh', i)
  {
    var sh' := StoreStage(sh, i, stage, sh.slots[i].seqno);
    StageKeepsInv(sh, k, rank, i, stage);
    forall a | 0 <= a < |sh.mem| ensures LogicalAt(sh', a) == LogicalAt(sh, a) {
      NoMarkerLeft(sh, k, rank, i, a);
    }
    SameLogical(sh, sh');
  }

  lemma ResetSolo(sh: Shared, k: nat, rank: seq<nat>, i: nat)
    requires SoloInv(sh, k, rank) && Unfinished(sh, i) && Unmarked(sh, i)
    ensures var sh' := StoreStage(sh, i, Inactive, sh.slots[i].seqno + 1);
            SoloInv(sh', k, rank) && Logical(sh') == Logical(sh)
  {
    var sh' := StoreStage(sh, i, Inactive, sh.slots[i].seqno + 1);
    forall j | 0 <= j < |sh.slots| ensures SoloSlot(sh', k, rank, j) {
      assert SoloSlot(sh, k, rank, j);
      if sh'.slots[j].stage == Claiming {
        forall y: nat ensures Marked(sh', j, y) <==> Marked(sh, j, y) {}
        forall y: nat | Marked(sh', j, y) ensures MarkedUpTo(sh', j, y) {
          assert Marked(sh, j, y) && MarkedUpTo(sh, j, y);
        }
      }
    }
    forall a | 0 <= a < |sh.mem| ensures SoloValue(sh', a) && LogicalAt(sh', a) == LogicalAt(sh, a) {
      assert SoloValue(sh, a);
      NoMarkerLeft(sh, k, rank, i, a);
    }
    SameLogical(sh, sh');
  }

  // Storing into the descriptor of an inactive slot, or starting its operation.
  lemma SlotSolo(sh: Shared, k: nat, rank: seq<nat>, i: nat, slot: Slot)
    requires SoloInv(sh, k, rank) && i < |sh.slots| && sh.slots[i].stage == Inactive
    requires |slot.words| == k && slot.seqno == sh.slots[i].seqno
    requires slot.stage == Inactive
             || (slot.stage == Claiming && ValidWords(slot.words, k, |sh.mem|) && Ranked(slot.words, rank))
    ensures var sh' := sh.(slots := sh.slots[i := slot]);
            SoloInv(sh', k, rank) && Logical(sh') == Logical(sh) && Unmarked(sh', i)
  {
    var sh' := sh.(slots := sh.slots[i := slot]);
    forall a | 0 <= a < |sh.mem|
      ensures (sh.mem[a].Marker? ==> sh.mem[a].slot != i) && SoloValue(sh', a) && LogicalAt(sh', a) == LogicalAt(sh, a)
    {
      assert SoloValue(sh, a);
    }
    forall x ensures !Marked(sh', i, x) {}
    forall j | 0 <= j < |sh.slots| ensures SoloSlot(sh', k, rank, j) {
      assert SoloSlot(sh, k, rank, j);
      if j != i && sh.slots[j].stage == Claiming {
        forall y: nat ensures Marked(sh', j, y) <==> Marked(sh, j, y) {}
        forall y: nat | Marked(sh', j, y) ensures MarkedUpTo(sh', j, y) {
          assert Marked(sh, j, y) && MarkedUpTo(sh, j, y);
        }
      }
    }
    SameLogical(sh, sh');
  }

  // Storing one word into the descriptor of an inactive slot.
  lemma StoreSolo(sh: Shared, k: nat, rank: seq<nat>, i: nat, w: nat, word: KWord)
    requires SoloInv(sh, k, rank) && i < |sh.slots| && sh.slots[i].stage == Inactive && w < |sh.slots[i].words|
    ensures var sh' := StoreWord(sh, i, w, word);
            SoloInv(sh', k, rank) && Logical(sh') == Logical(sh)
  {
    assert SoloSlot(sh, k, rank, i);
    SlotSolo(sh, k, rank, i, sh.slots[i].(words := sh.slots[i].words[w := word]));
  }

  // ------------------------------------------------------------------ ranks

  // A bound above every rank.
  function RankBound(rank: seq<nat>): nat {
    if rank == [] then 0
    else if rank[0] >= RankBound(rank[1..]) then rank[0] + 1 else RankBound(rank[1..])
  }

  lemma {:induction false} RankBelowBound(rank: seq<nat>, a: nat)
    requires a < |rank|
    ensures rank[a] < RankBound(rank)
    decreases a
  {
    if a > 0 {
      RankBelowBound(rank[1..], a - 1);
    }
  }

  // Every word of operation `i` below rank `floor` already holds its marker.
  ghost predicate ClaimedBelow(sh: Shared, rank: seq<nat>, i: nat, floor: nat) {
    && i < |sh.slots|
    && forall x :: 0 <= x < |sh.slots[i].words| && RankOf(sh.slots[i].words[x].target, rank) < floor
         ==> Marked(sh, i, x)
  }

  // The word at which a claim of `i` ran into `j`'s marker.
  ghost predicate StuckAt(sh: Shared, k: nat, i: nat, x: nat, a: Addr, j: nat) {
    && i < |sh.slots| && sh.slots[i].stage == Claiming && x < k == |sh.slots[i].words|
    && sh.slots[i].words[x].target == Some(a) && a < |sh.mem|
    && j != i && j < |sh.slots| && sh.mem[a] == Marker(j, sh.slots[j].seqno)
  }

  // Helping `j` from there climbs.
  lemma HelpClimbs(sh: Shared, k: nat, rank: seq<nat>, i: nat, x: nat, a: Addr, j: nat, floor: nat)
    requires StuckAt(sh, k, i, x, a, j) && ClaimedBelow(sh, rank, i, floor)
    ensures RankOf(Some(a), rank) >= floor
  {
    assert !Marked(sh, i, x);
  }

  // It leaves `i` and what `i` must spare alone.
  lemma HelpSpares(sh: Shared, sh': Shared, k: nat, rank: seq<nat>, i: nat, x: nat, a: Addr, j: nat, floor: nat)
    requires SoloInv(sh, k, rank) && StuckAt(sh, k, i, x, a, j) && ClaimedBelow(sh, rank, i, floor)
    requires Progress(sh, sh') && SparesBelow(sh, sh', rank, j, RankOf(Some(a), rank) + 1)
    ensures SparesBelow(sh, sh', rank, i, floor) && Undisturbed(sh, sh', i)
  {
    var words := sh.slots[i].words;
    assert SoloSlot(sh, k, rank, i);
    HelpClimbs(sh, k, rank, i, x, a, j, floor);
    assert !Marked(sh, i, x);
    assert Below(sh, rank, i, RankOf(Some(a), rank) + 1) by {
      forall b | 0 <= b < |sh.mem| && sh.mem[b] == Marker(i, sh.slots[i].seqno)
        ensures RankOf(Some(b), rank) < RankOf(Some(a), rank) + 1
      {
        assert SoloValue(sh, b);
        var y := WordAt(words, b);
        assert Marked(sh, i, y) && MarkedUpTo(sh, i, y);
        assert y < x;
      }
    }
    forall p | p != i && Below(sh, rank, p, floor) ensures Undisturbed(sh, sh', p) {
      assert p != j;
      assert Below(sh, rank, p, RankOf(Some(a), rank) + 1);
    }
  }

  // An undisturbed operation keeps its claims.
  lemma ClaimsKept(sh: Shared, sh': Shared, rank: seq<nat>, i: nat, x: nat, floor: nat)
    requires Undisturbed(sh, sh', i) && MarkedUpTo(sh, i, x) && ClaimedBelow(sh, rank, i, floor)
    ensures MarkedUpTo(sh', i, x) && ClaimedBelow(sh', rank, i, floor)
  {
    forall y: nat | Marked(sh, i, y) ensures Marked(sh', i, y) {}
  }

  // The helped operation holds every word up to the one where it was met.
  lemma MetMarker(sh: Shared, k: nat, rank: seq<nat>, a: Addr, j: nat)
    requires SoloInv(sh, k, rank) && a < |sh.mem| && j < |sh.slots| && sh.mem[a] == Marker(j, sh.slots[j].seqno)
    ensures Unfinished(sh, j)
    ensures sh.slots[j].stage == Claiming ==> ClaimedBelow(sh, rank, j, RankOf(Some(a), rank) + 1)
  {
    assert SoloValue(sh, a);
    assert SoloSlot(sh, k, rank, j);
    var words := sh.slots[j].words;
    var y := WordAt(words, a);
    assert Marked(sh, j, y);
    if sh.slots[j].stage == Claiming {
      assert MarkedUpTo(sh, j, y);
      forall x | 0 <= x < |words| && RankOf(words[x].target, rank) < RankOf(Some(a), rank) + 1
        ensures Marked(sh, j, x)
      {
        assert words[x].target.Some?;
      }
    }
  }

  // ------------------------------------------------------------- claiming

  // What a claim of `i` at word `w` has and must keep.
  ghost predicate Claims(sh: Shared, rank: seq<nat>, i: nat, w: nat, floor: nat) {
    && i < |sh.slots| && sh.slots[i].stage == Claiming
    && MarkedUpTo(sh, i, w) && ClaimedBelow(sh, rank, i, floor)
  }

  // Work on `i` that leaves alone whoever claims below `floor`.
  ghost predicate Climbed(sh: Shared, sh': Shared, rank: seq<nat>, i: nat, floor: nat) {
    Progress(sh, sh') && SparesBelow(sh, sh', rank, i, floor)
  }

  lemma ClimbedTransitive(sh: Shared, sh1: Shared, sh2: Shared, rank: seq<nat>, i: nat, floor: nat)
    requires Climbed(sh, sh1, rank, i, floor) && Climbed(sh1, sh2, rank, i, floor)
    ensures Climbed(sh, sh2, rank, i, floor)
  {
    ProgressTransitive(sh, sh1, sh2);
    SparesTransitive(sh, sh1, sh2, rank, i, floor);
  }

  lemma ClimbedAlone(sh: Shared, sh': Shared, rank: seq<nat>, i: nat, floor: nat)
    requires Progress(sh, sh') && SparesOthers(sh, sh', i)
    ensures Climbed(sh, sh', rank, i, floor)
  {
  }

  lemma ClaimWordEffect(sh: Shared, k: nat, rank: seq<nat>, i: nat, w: nat, a: Addr, floor: nat)
    requires SoloInv(sh, k, rank) && Claims(sh, rank, i, w, floor) && w < k == |sh.slots[i].words|
    requires sh.slots[i].words[w].target == Some(a) && a < |sh.mem|
    requires sh.mem[a] == sh.slots[i].words[w].expected
    ensures var sh' := StoreMem(sh, a, Marker(i, sh.slots[i].seqno));
            && SoloInv(sh', k, rank) && Logical(sh') == Logical(sh)
            && Claims(sh', rank, i, w + 1, floor) && Climbed(sh, sh', rank, i, floor)
  {
    var sh' := StoreMem(sh, a, Marker(i, sh.slots[i].seqno));
    assert SoloSlot(sh, k, rank, i);
    assert CleanWord(sh.slots[i].words[w], |sh.mem|);
    MarkWord(sh, k, rank, i, w);
    WriteSpares(sh, i, a, Marker(i, sh.slots[i].seqno));
    ClimbedAlone(sh, sh', rank, i, floor);
    forall x: nat | Marked(sh, i, x) ensures Marked(sh', i, x) {}
  }

  // What a claim knows of the foreign marker it ran into.
  lemma MeetMarker(sh: Shared, k: nat, rank: seq<nat>, i: nat, w: nat, a: Addr, floor: nat)
    requires SoloInv(sh, k, rank) && Claims(sh, rank, i, w, floor) && w < k == |sh.slots[i].words|
    requires sh.slots[i].words[w].target == Some(a) && a < |sh.mem|
    requires sh.mem[a].Marker? && sh.mem[a] != Marker(i, sh.slots[i].seqno)
    ensures var j := sh.mem[a].slot;
            && StuckAt(sh, k, i, w, a, j) && Unfinished(sh, j) && sh.slots[j].seqno == sh.mem[a].seqno
            && (sh.slots[j].stage == Claiming ==> ClaimedBelow(sh, rank, j, RankOf(Some(a), rank) + 1))
    ensures floor < RankOf(Some(a), rank) + 1 <= RankBound(rank)
  {
    assert SoloValue(sh, a);
    HelpClimbs(sh, k, rank, i, w, a, sh.mem[a].slot, floor);
    RankBelowBound(rank, a);
    MetMarker(sh, k, rank, a, sh.mem[a].slot);
  }

  // Helping keeps the claims of the operation it is done for, and it leaves
  // fewer operations unfinished.
  lemma HelpEffect(sh: Shared, sh': Shared, k: nat, rank: seq<nat>, i: nat, w: nat, a: Addr, j: nat, floor: nat)
    requires SoloInv(sh, k, rank) && StuckAt(sh, k, i, w, a, j) && Claims(sh, rank, i, w, floor)
    requires Climbed(sh, sh', rank, j, RankOf(Some(a), rank) + 1) && Unfinished(sh, j) && !Unfinished(sh', j)
    ensures Climbed(sh, sh', rank, i, floor) && Claims(sh', rank, i, w, floor) && sh'.slots[i] == sh.slots[i]
    ensures |UnfinishedSet(sh')| < |UnfinishedSet(sh)|
  {
    HelpSpares(sh, sh', k, rank, i, w, a, j, floor);
    ClaimsKept(sh, sh', rank, i, w, floor);
    FewerUnfinished(sh, sh');
  }

  // A claim that meets an unexpected value fails as a whole.
  lemma MismatchEffect(sh: Shared, k: nat, rank: seq<nat>, i: nat, w: nat, a: Addr)
    requires SoloInv(sh, k, rank) && i < |sh.slots| && sh.slots[i].stage == Claiming && w < k == |sh.slots[i].words|
    requires sh.slots[i].words[w].target == Some(a) && a < |sh.mem|
    requires sh.mem[a].Clean? && sh.mem[a] != sh.slots[i].words[w].expected
    ensures !Matches(Logical(sh), sh.slots[i].words)
    ensures UnmarkedFrom(sh, i, w)
  {
    assert SoloSlot(sh, k, rank, i);
    assert CleanWord(sh.slots[i].words[w], |sh.mem|);
    assert !WordMatches(Logical(sh), sh.slots[i].words[w]);
    assert !Marked(sh, i, w);
  }

  // No word of operation `i` from `x` on holds its marker.
  ghost predicate UnmarkedFrom(sh: Shared, i: nat, x: nat) {
    forall y: nat :: x <= y ==> !Marked(sh, i, y)
  }
}
