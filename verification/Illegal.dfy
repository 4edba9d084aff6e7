// A target word that is neither a user value nor a marker: the call that runs into it
// reports the fatal error and leaves what it has done so far.
module IllegalWords {
  import opened KcasTypes
  import opened StepMachine
  import opened ProtocolInvariant
  import opened SoloRuns
  import opened SoloSteps
  import opened CallPhases

  // The words before `w` hold their expected values, and word `w` is illegal.
  ghost predicate IllegalAt(vs: seq<Value>, words: seq<KWord>, w: nat) {
    && |vs| == |words| && w < |vs| && vs[w].Illegal?
    && forall y :: 0 <= y < w ==> vs[y] == words[y].expected
  }

  // The values before `w` are the marker from `x` on.
  function MarkBetween(vs: seq<Value>, x: nat, w: nat, marker: Value): (r: seq<Value>)
    ensures |r| == |vs|
  {
    seq(|vs|, y requires 0 <= y < |vs| => if x <= y < w then marker else vs[y])
  }

  lemma VerifyIllegal(sh: Shared, f: Frame, k: nat, w: nat, a: Addr, e: Value, actual: Value)
    requires Live(sh, f, Claiming) && |sh.slots[f.slot].words| == k && w < k && a < |sh.mem| && actual.Illegal?
    ensures StepsTo(k, At(sh, [], f, ClaimVerify(w, a, e, actual)), At(sh, [], f, Fail(TopBitsOfValueWereIllegal)))
    ensures StepsTo(k, At(sh, [], f, Fail(TopBitsOfValueWereIllegal)), Halted(sh, Failed(TopBitsOfValueWereIllegal)))
  {
  }

  // The claim marks the words in between and fails at the illegal one.
  lemma {:induction false} ClaimFails(sh: Shared, line: seq<Addr>, vs: seq<Value>, f: Frame, x: nat, w: nat)
    requires Laid(sh, line, f.slot) && Live(sh, f, Claiming) && f.owner && x <= w
    requires |vs| == |line| && w < |vs| && vs[w].Illegal?
    requires forall y :: x <= y < w ==> vs[y] == sh.slots[f.slot].words[y].expected
    ensures Leads(|line|, At(On(sh, line, vs), [], f, ClaimLoadTarget(x)),
                  Halted(On(sh, line, MarkBetween(vs, x, w, MarkerOf(f))), Failed(TopBitsOfValueWereIllegal)))
    decreases w - x
  {
    hide StepsTo;
    hide Leads;
    var k, e := |line|, sh.slots[f.slot].words[x].expected;
    var sh0 := On(sh, line, vs);
    var s0, s1 := At(sh0, [], f, ClaimLoadTarget(x)), At(sh0, [], f, ClaimCas(x, line[x], e));
    Loads(sh0, line, [], f, x);
    if x == w {
      OnStore(sh, line, vs, x, e);
      ClaimCasStep(sh0, [], f, k, x, line[x], e);
      VerifyIllegal(sh0, f, k, x, line[x], e, vs[x]);
      var s2, s3 := At(sh0, [], f, ClaimVerify(x, line[x], e, vs[x])), At(sh0, [], f, Fail(TopBitsOfValueWereIllegal));
      StepJoin(k, s0, s1, s2);
      StepJoin(k, s0, s2, s3);
      assert MarkBetween(vs, x, w, MarkerOf(f)) == vs;
      StepJoin(k, s0, s3, Halted(sh0, Failed(TopBitsOfValueWereIllegal)));
    } else {
      var vs1 := vs[x := MarkerOf(f)];
      ClaimsWord(sh, line, vs, [], f, x, e);
      var s2 := At(On(sh, line, vs1), [], f, ClaimLoadTarget(x + 1));
      StepJoin(k, s0, s1, s2);
      ClaimFails(sh, line, vs1, f, x + 1, w);
      assert MarkBetween(vs1, x + 1, w, MarkerOf(f)) == MarkBetween(vs, x, w, MarkerOf(f));
      Join(k, s0, s2, Halted(On(sh, line, MarkBetween(vs, x, w, MarkerOf(f))), Failed(TopBitsOfValueWereIllegal)));
    }
  }

  // A call made alone whose word `w` is the first not to hold its expected value, and
  // holds an illegal word, returns the fatal error. Its operation is left claiming, with
  // its marker on the words before `w`.
  lemma CallMeetsIllegal(sh: Shared, line: seq<Addr>, vs: seq<Value>, i: nat, words: seq<KWord>, w: nat)
    requires i < |sh.slots| && line != [] && Line(line, |sh.mem|) && OnLine(words, line)
    requires |sh.slots[i].words| == |line| == |vs| && IllegalAt(vs, words, w)
    ensures var q := sh.slots[i].seqno;
            var sh' := sh.(slots := sh.slots[i := Slot(Claiming, q, words)]);
            Leads(|line|, Running(On(sh, line, vs), [], Frame(i, 0, true, InitTarget(words, 0))),
                  Halted(On(sh', line, MarkBetween(vs, 0, w, Marker(i, q))), Failed(TopBitsOfValueWereIllegal)))
  {
    hide Leads;
    var q := sh.slots[i].seqno;
    var sh', f := sh.(slots := sh.slots[i := Slot(Claiming, q, words)]), Frame(i, q, true, ClaimLoadTarget(0));
    Starts(On(sh, line, vs), i, words);
    ClaimFails(sh', line, vs, f, 0, w);
    Join(|line|, Running(On(sh, line, vs), [], Frame(i, 0, true, InitTarget(words, 0))),
         Running(On(sh', line, vs), [], f),
         Halted(On(sh', line, MarkBetween(vs, 0, w, Marker(i, q))), Failed(TopBitsOfValueWereIllegal)));
  }
}
