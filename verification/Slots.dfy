// The thread-id slots of src/wrapper.rs. Constructing a wrapper takes the
// first free slot, dropping it gives the slot back.
module ThreadSlots {
  import opened KcasTypes

  // The first index that is still false.
  function FirstFree(taken: seq<bool>): (r: Option<nat>)
    ensures r.Some? ==> r.value < |taken| && !taken[r.value] && forall j :: 0 <= j < r.value ==> taken[j]
    ensures r.None? ==> forall j :: 0 <= j < |taken| ==> taken[j]
  {
    if taken == [] then None
    else if !taken[0] then Some(0)
    else
      var rest := FirstFree(taken[1..]);
      assert forall j :: 1 <= j < |taken| ==> taken[j] == taken[1..][j - 1];
      match rest
      case None => None
      case Some(i) => Some(i + 1)
  }

  lemma FirstFreeIs(taken: seq<bool>, i: nat)
    requires i < |taken| && !taken[i] && forall j :: 0 <= j < i ==> taken[j]
    ensures FirstFree(taken) == Some(i)
  {
    var r := FirstFree(taken);
    assert r.Some?;
    assert r.value <= i && i <= r.value;
  }

  class SlotTable {
    const threadIndexSlots: array<bool>

    constructor (numThreads: nat)
      ensures fresh(threadIndexSlots) && threadIndexSlots.Length == numThreads
      ensures forall i :: 0 <= i < numThreads ==> !threadIndexSlots[i]
    {
      threadIndexSlots := new bool[numThreads](_ => false);
    }

    // find_next_available_thread_index: a compare-and-swap on each slot in
    // turn. None is the NoThreadIdAvailableError.
    method FindNextAvailable() returns (r: Option<nat>)
      modifies threadIndexSlots
      ensures r == FirstFree(old(threadIndexSlots[..]))
      ensures r.None? ==> threadIndexSlots[..] == old(threadIndexSlots[..])
      ensures r.Some? ==> r.value < threadIndexSlots.Length
                          && threadIndexSlots[..] == old(threadIndexSlots[..])[r.value := true]
    {
      for i := 0 to threadIndexSlots.Length
        invariant threadIndexSlots[..] == old(threadIndexSlots[..])
        invariant forall j :: 0 <= j < i ==> threadIndexSlots[j]
      {
        var wasTaken := CompareExchange(i, false, true);
        if !wasTaken {
          FirstFreeIs(old(threadIndexSlots[..]), i);
          return Some(i);
        }
      }
      return None;
    }

    // compare_exchange on one slot; returns the value found.
    method CompareExchange(i: nat, current: bool, next: bool) returns (found: bool)
      requires i < threadIndexSlots.Length
      modifies threadIndexSlots
      ensures found == old(threadIndexSlots[i])
      ensures threadIndexSlots[..] ==
                if found == current then old(threadIndexSlots[..])[i := next] else old(threadIndexSlots[..])
    {
      found := threadIndexSlots[i];
      if found == current {
        threadIndexSlots[i] := next;
      }
    }

    // Dropping the wrapper of slot `i`.
    method Release(i: nat)
      requires i < threadIndexSlots.Length
      modifies threadIndexSlots
      ensures threadIndexSlots[..] == old(threadIndexSlots[..])[i := false]
    {
      threadIndexSlots[i] := false;
    }
  }

  // ------------------------------------------------- whole lives of a table

  datatype SlotOp = Construct | Drop(i: nat)

  // The table after a history of constructions and drops.
  function Replay(n: nat, ops: seq<SlotOp>): (taken: seq<bool>)
    ensures |taken| == n
  {
    if ops == [] then seq(n, _ => false)
    else
      var before := Replay(n, ops[..|ops| - 1]);
      match ops[|ops| - 1]
      case Construct =>
        (match FirstFree(before)
         case None => before
         case Some(i) => before[i := true])
      case Drop(i) => if i < n then before[i := false] else before
  }

  // What the construction at position `p` of the history was given.
  function Given(n: nat, ops: seq<SlotOp>, p: nat): Option<nat>
    requires p < |ops|
  {
    FirstFree(Replay(n, ops[..p]))
  }

  // Slot `i` was given out at position `p` and not dropped up to position `q`.
  ghost predicate HeldFrom(n: nat, ops: seq<SlotOp>, p: nat, q: nat, i: nat) {
    && p < q <= |ops|
    && ops[p] == Construct && Given(n, ops, p) == Some(i)
    && forall j :: p < j < q ==> ops[j] != Drop(i)
  }

  lemma {:induction false} HeldIsTaken(n: nat, ops: seq<SlotOp>, p: nat, q: nat, i: nat)
    requires HeldFrom(n, ops, p, q, i)
    ensures i < n && Replay(n, ops[..q])[i]
    decreases q
  {
    assert ops[..q][..q - 1] == ops[..q - 1];
    if q > p + 1 {
      HeldIsTaken(n, ops, p, q - 1, i);
    }
  }

  // A thread id has at most one owner: it is never given out again before its
  // owner drops it.
  lemma SingleOwner(n: nat, ops: seq<SlotOp>, p: nat, q: nat, i: nat)
    requires HeldFrom(n, ops, p, q, i) && q < |ops| && ops[q] == Construct
    ensures Given(n, ops, q) != Some(i)
  {
    HeldIsTaken(n, ops, p, q, i);
  }

  // A dropped slot is the next one given out when all lower ones are taken.
  lemma DroppedIsReused(n: nat, ops: seq<SlotOp>, i: nat)
    requires i < n && forall j :: 0 <= j < i ==> Replay(n, ops)[j]
    ensures FirstFree(Replay(n, ops + [Drop(i)])) == Some(i)
  {
    var more := ops + [Drop(i)];
    assert more[..|more| - 1] == ops && more[|more| - 1] == Drop(i);
    assert Replay(n, more) == Replay(n, ops)[i := false];
    FirstFreeIs(Replay(n, more), i);
  }
}
