// The phases of a call with any number of words, each proved once: filling the
// descriptor, claiming, deciding, setting, reverting and resetting. Their words
// lie on a line of addresses, and memory is described by the values along it: a phase
// takes one list of values to another, whatever lies elsewhere. Phases that visit all
// words are proved by induction on the words that are left, word by word.
module CallPhases {
  import opened KcasTypes
  import opened StepMachine
  import opened ProtocolInvariant
  import opened SoloRuns
  import opened SoloSteps

  // ------------------------------------------------ pieces of solo traces

  ghost predicate Links(k: nat, trace: seq<SoloState>, s: SoloState, t: SoloState) {
    SoloTrace(k, trace) && trace[0] == s && trace[|trace| - 1] == t
  }

  ghost predicate Leads(k: nat, s: SoloState, t: SoloState) {
    exists trace :: Links(k, trace, s, t)
  }

  lemma Step(k: nat, s: SoloState, t: SoloState)
    requires StepsTo(k, s, t)
    ensures Leads(k, s, t)
  {
    assert SoloStepAt(k, [s, t], 0);
    assert Links(k, [s, t], s, t);
  }

  lemma Join(k: nat, s: SoloState, t: SoloState, u: SoloState)
    requires Leads(k, s, t) && Leads(k, t, u)
    ensures Leads(k, s, u)
  {
    var first :| Links(k, first, s, t);
    var second :| Links(k, second, t, u);
    var both := first + second[1..];
    forall n | 0 <= n < |both| - 1 ensures SoloStepAt(k, both, n) {
      if n < |first| - 1 {
        assert SoloStepAt(k, first, n);
      } else {
        assert SoloStepAt(k, second, n - |first| + 1);
      }
    }
    assert Links(k, both, s, u);
  }

  lemma StepJoin(k: nat, s: SoloState, t: SoloState, u: SoloState)
    requires Leads(k, s, t) && StepsTo(k, t, u)
    ensures Leads(k, s, u)
  {
    Step(k, t, u);
    Join(k, s, t, u);
  }

  lemma ThreeSteps(k: nat, s: SoloState, t: SoloState, u: SoloState, v: SoloState)
    requires StepsTo(k, s, t) && StepsTo(k, t, u) && StepsTo(k, u, v)
    ensures Leads(k, s, v)
  {
    Step(k, s, t);
    StepJoin(k, s, t, u);
    StepJoin(k, s, u, v);
  }

  // --------------------------------------------- memory along a line

  ghost predicate Line(line: seq<Addr>, size: nat) {
    && (forall x :: 0 <= x < |line| ==> line[x] < size)
    && (forall x, y :: 0 <= x < y < |line| ==> line[x] != line[y])
  }

  // The first place of `a` on the line, or |line| if there is none.
  function PlaceOf(line: seq<Addr>, a: Addr): (x: nat)
    ensures x <= |line|
    ensures x < |line| ==> line[x] == a
    ensures forall y :: 0 <= y < x ==> line[y] != a
  {
    if line == [] || line[0] == a then 0
    else
      var r := PlaceOf(line[1..], a);
      assert forall y :: 0 < y < r + 1 ==> line[y] == line[1..][y - 1];
      r + 1
  }

  // `mem` with the values `vs` along the line.
  function Lay(mem: seq<Value>, line: seq<Addr>, vs: seq<Value>): (m: seq<Value>)
    requires |vs| == |line|
    ensures |m| == |mem|
  {
    seq(|mem|, a requires 0 <= a < |mem| =>
      var x := PlaceOf(line, a); if x < |line| then vs[x] else mem[a])
  }

  lemma LayAt(mem: seq<Value>, line: seq<Addr>, vs: seq<Value>, x: nat)
    requires Line(line, |mem|) && |vs| == |line| && x < |line|
    ensures Lay(mem, line, vs)[line[x]] == vs[x]
  {
    assert PlaceOf(line, line[x]) == x;
  }

  lemma LayStore(mem: seq<Value>, line: seq<Addr>, vs: seq<Value>, x: nat, v: Value)
    requires Line(line, |mem|) && |vs| == |line| && x < |line|
    ensures Lay(mem, line, vs)[line[x] := v] == Lay(mem, line, vs[x := v])
  {
    assert PlaceOf(line, line[x]) == x;
    forall a | 0 <= a < |mem| && a != line[x] ensures PlaceOf(line, a) != x {}
    assert Lay(mem, line, vs)[line[x] := v] == Lay(mem, line, vs[x := v]);
  }

  function On(sh: Shared, line: seq<Addr>, vs: seq<Value>): Shared
    requires |vs| == |line|
  {
    sh.(mem := Lay(sh.mem, line, vs))
  }

  lemma OnStore(sh: Shared, line: seq<Addr>, vs: seq<Value>, x: nat, v: Value)
    requires Line(line, |sh.mem|) && |vs| == |line| && x < |line|
    ensures On(sh, line, vs).mem[line[x]] == vs[x]
    ensures StoreMem(On(sh, line, vs), line[x], v) == On(sh, line, vs[x := v])
  {
    LayAt(sh.mem, line, vs, x);
    LayStore(sh.mem, line, vs, x, v);
  }

  // The values of the line from `w` on are `v`.
  function MarkFrom(vs: seq<Value>, w: nat, v: Value): (r: seq<Value>)
    ensures |r| == |vs|
  {
    seq(|vs|, y => if 0 <= y < w && y < |vs| then vs[y] else v)
  }

  // From `w` on the words hold their desired values.
  function SetFrom(vs: seq<Value>, words: seq<KWord>, w: nat): (r: seq<Value>)
    requires |words| == |vs|
    ensures |r| == |vs|
  {
    seq(|vs|, y requires 0 <= y < |vs| => if y < w then vs[y] else words[y].desired)
  }

  // Down from `w` marked words hold their expected values.
  function RevertFrom(vs: seq<Value>, words: seq<KWord>, w: nat, marker: Value): (r: seq<Value>)
    requires |words| == |vs|
    ensures |r| == |vs|
  {
    seq(|vs|, y requires 0 <= y < |vs| => if y <= w && vs[y] == marker then words[y].expected else vs[y])
  }

  // The words of an operation along the line.
  ghost predicate OnLine(words: seq<KWord>, line: seq<Addr>) {
    && |words| == |line|
    && forall x :: 0 <= x < |line| ==>
         words[x].target == Some(line[x]) && words[x].expected.Clean? && words[x].desired.Clean?
  }

  function Expecteds(words: seq<KWord>): (r: seq<Value>)
    ensures |r| == |words|
  {
    seq(|words|, y requires 0 <= y < |words| => words[y].expected)
  }

  function Desireds(words: seq<KWord>): (r: seq<Value>)
    ensures |r| == |words|
  {
    seq(|words|, y requires 0 <= y < |words| => words[y].desired)
  }

  // What the phases ask of the operation of slot `i`.
  ghost predicate Laid(sh: Shared, line: seq<Addr>, i: nat) {
    i < |sh.slots| && line != [] && Line(line, |sh.mem|) && OnLine(sh.slots[i].words, line)
  }

  // ------------------------------------------------- filling a descriptor

  lemma {:induction false} Fills(sh: Shared, f: Frame, words: seq<KWord>, w: nat)
    requires f.slot < |sh.slots| && w < |words| == |sh.slots[f.slot].words|
    ensures Leads(|words|, At(Filled(sh, f.slot, words, w), [], f, InitTarget(words, w)),
                  At(Filled(sh, f.slot, words, |words|), [], f, InitLoad(words)))
    decreases |words| - w
  {
    hide StepsTo;
    var k, i, old_, new_ := |words|, f.slot, sh.slots[f.slot].words[w], words[w];
    var sh0 := Filled(sh, i, words, w);
    var sh1 := StoreWord(sh0, i, w, old_.(target := new_.target));
    var sh2 := StoreWord(sh1, i, w, old_.(target := new_.target, expected := new_.expected));
    var sh3 := Filled(sh, i, words, w + 1);
    InitSteps(sh0, f, k, words, w);
    StoreTwice(sh0, i, w, old_.(target := new_.target), old_.(target := new_.target, expected := new_.expected));
    StoreTwice(sh0, i, w, old_.(target := new_.target, expected := new_.expected), new_);
    FillStep(sh, i, words, w);
    var s0, s3 := At(sh0, [], f, InitTarget(words, w)), At(sh3, [], f, AfterInit(words, w, k));
    ThreeSteps(k, s0, At(sh1, [], f, InitExpected(words, w)), At(sh2, [], f, InitDesired(words, w)), s3);
    if w + 1 < k {
      Fills(sh, f, words, w + 1);
      Join(k, s0, s3, At(Filled(sh, i, words, k), [], f, InitLoad(words)));
    }
  }

  // The descriptor is filled and the operation published.
  lemma Starts(sh: Shared, i: nat, words: seq<KWord>)
    requires i < |sh.slots| && 0 < |words| == |sh.slots[i].words|
    ensures var s := sh.slots[i].seqno;
            Leads(|words|, Running(sh, [], Frame(i, 0, true, InitTarget(words, 0))),
                  Running(sh.(slots := sh.slots[i := Slot(Claiming, s, words)]), [],
                          Frame(i, s, true, ClaimLoadTarget(0))))
  {
    hide StepsTo;
    var k, f, s := |words|, Frame(i, 0, true, InitTarget(words, 0)), sh.slots[i].seqno;
    var sh1 := Filled(sh, i, words, k);
    FillEnds(sh, i, words);
    Fills(sh, f, words, 0);
    StartSteps(sh1, f, k, words, s);
    var s0, s1 := At(sh, [], f, InitTarget(words, 0)), At(sh1, [], f, InitLoad(words));
    var s2, s3 := At(sh1, [], f.(seqno := s), InitStage(words)),
                  At(StoreStage(sh1, i, Claiming, s), [], f.(seqno := s), ClaimLoadTarget(0));
    StepJoin(k, s0, s1, s2);
    StepJoin(k, s0, s2, s3);
    assert StoreStage(sh1, i, Claiming, s) == sh.(slots := sh.slots[i := Slot(Claiming, s, words)]);
  }

  // ------------------------------------------------------------ claiming

  // A claim gets ready for its compare-and-swap.
  lemma Loads(sh: Shared, line: seq<Addr>, below: seq<Frame>, f: Frame, w: nat)
    requires Laid(sh, line, f.slot) && w < |line|
    ensures Leads(|line|, At(sh, below, f, ClaimLoadTarget(w)),
                  At(sh, below, f, ClaimCas(w, line[w], sh.slots[f.slot].words[w].expected)))
  {
    hide StepsTo;
    ClaimLoadSteps(sh, below, f, |line|, w);
    var s0, s1 := At(sh, below, f, ClaimLoadTarget(w)), At(sh, below, f, ClaimLoadExpected(w, line[w]));
    Step(|line|, s0, s1);
    StepJoin(|line|, s0, s1, At(sh, below, f, ClaimCas(w, line[w], sh.slots[f.slot].words[w].expected)));
  }

  // One word: its value is the expected one or already the marker.
  lemma ClaimsWord(sh: Shared, line: seq<Addr>, vs: seq<Value>, below: seq<Frame>, f: Frame, w: nat, e: Value)
    requires Laid(sh, line, f.slot) && |vs| == |line| && w < |line| && (vs[w] == e || vs[w] == MarkerOf(f))
    ensures StepsTo(|line|, At(On(sh, line, vs), below, f, ClaimCas(w, line[w], e)),
                    At(On(sh, line, vs[w := MarkerOf(f)]), below, f, AfterClaim(w, |line|)))
  {
    OnStore(sh, line, vs, w, MarkerOf(f));
    ClaimCasStep(On(sh, line, vs), below, f, |line|, w, line[w], e);
    assert vs[w] == MarkerOf(f) ==> vs[w := MarkerOf(f)] == vs;
  }

  // All words from `w` on hold their expected values or the marker.
  ghost predicate Claimable(vs: seq<Value>, words: seq<KWord>, w: nat, marker: Value) {
    |vs| == |words| && forall y :: w <= y < |vs| ==> vs[y] == words[y].expected || vs[y] == marker
  }

  lemma {:induction false} ClaimsFrom(sh: Shared, line: seq<Addr>, vs: seq<Value>, below: seq<Frame>, f: Frame, w: nat)
    requires Laid(sh, line, f.slot) && w < |line|
    requires Claimable(vs, sh.slots[f.slot].words, w, MarkerOf(f))
    ensures Leads(|line|, At(On(sh, line, vs), below, f, ClaimLoadTarget(w)),
                  At(On(sh, line, MarkFrom(vs, w, MarkerOf(f))), below, f, DecideSetting))
    decreases |line| - w, 1
  {
    hide StepsTo;
    hide Leads;
    var k, e, marker := |line|, sh.slots[f.slot].words[w].expected, MarkerOf(f);
    var s0, s1 := At(On(sh, line, vs), below, f, ClaimLoadTarget(w)),
                  At(On(sh, line, vs), below, f, ClaimCas(w, line[w], e));
    Loads(On(sh, line, vs), line, below, f, w);
    ClaimsWord(sh, line, vs, below, f, w, e);
    StepJoin(k, s0, s1, At(On(sh, line, vs[w := marker]), below, f, AfterClaim(w, k)));
    ClaimsOn(sh, line, vs, below, f, w);
    Join(k, s0, At(On(sh, line, vs[w := marker]), below, f, AfterClaim(w, k)),
         At(On(sh, line, MarkFrom(vs, w, marker)), below, f, DecideSetting));
  }

  // After word `w` the claim goes on with the others.
  lemma {:induction false} ClaimsOn(sh: Shared, line: seq<Addr>, vs: seq<Value>, below: seq<Frame>, f: Frame, w: nat)
    requires Laid(sh, line, f.slot) && w < |line|
    requires Claimable(vs, sh.slots[f.slot].words, w + 1, MarkerOf(f))
    ensures Leads(|line|, At(On(sh, line, vs[w := MarkerOf(f)]), below, f, AfterClaim(w, |line|)),
                  At(On(sh, line, MarkFrom(vs, w, MarkerOf(f))), below, f, DecideSetting))
    decreases |line| - w, 0
  {
    var vs1 := vs[w := MarkerOf(f)];
    if w + 1 < |line| {
      ClaimsFrom(sh, line, vs1, below, f, w + 1);
      assert MarkFrom(vs1, w + 1, MarkerOf(f)) == MarkFrom(vs, w, MarkerOf(f));
    } else {
      assert vs1 == MarkFrom(vs, w, MarkerOf(f));
      Stays(|line|, At(On(sh, line, vs1), below, f, DecideSetting));
    }
  }

  lemma Stays(k: nat, s: SoloState)
    ensures Leads(k, s, s)
  {
    assert Links(k, [s], s, s);
  }

  // A claim that has loaded `e` long ago takes word `w` and the words after it.
  lemma LateClaims(sh: Shared, line: seq<Addr>, vs: seq<Value>, below: seq<Frame>, f: Frame, w: nat, e: Value)
    requires Laid(sh, line, f.slot) && w < |line| && |vs| == |line| && vs[w] == e
    requires Claimable(vs, sh.slots[f.slot].words, w + 1, MarkerOf(f))
    ensures Leads(|line|, At(On(sh, line, vs), below, f, ClaimCas(w, line[w], e)),
                  At(On(sh, line, MarkFrom(vs, w, MarkerOf(f))), below, f, DecideSetting))
  {
    hide StepsTo;
    hide Leads;
    var s0, s1 := At(On(sh, line, vs), below, f, ClaimCas(w, line[w], e)),
                  At(On(sh, line, vs[w := MarkerOf(f)]), below, f, AfterClaim(w, |line|));
    ClaimsWord(sh, line, vs, below, f, w, e);
    Step(|line|, s0, s1);
    ClaimsOn(sh, line, vs, below, f, w);
    Join(|line|, s0, s1, At(On(sh, line, MarkFrom(vs, w, MarkerOf(f))), below, f, DecideSetting));
  }

  // The owner of slot `f.slot` runs into the marker of slot `i`'s live operation
  // and starts to help it, wherever that operation stands.
  lemma AsksForHelp(sh: Shared, line: seq<Addr>, f: Frame, w: nat, e: Value, i: nat)
    requires Laid(sh, line, f.slot) && Live(sh, f, Claiming) && w < |line| && e.Clean?
    requires i < |sh.slots| && i != f.slot && |sh.slots[i].words| == |line|
    requires sh.slots[i].stage == Claiming || sh.slots[i].stage == Setting
    requires sh.mem[line[w]] == Marker(i, sh.slots[i].seqno)
    ensures Leads(|line|, At(sh, [], f, ClaimCas(w, line[w], e)),
                  Running(sh, [f.(pc := ClaimHelping(w, line[w], e))],
                          Frame(i, sh.slots[i].seqno, false,
                                if sh.slots[i].stage == Claiming then ClaimLoadTarget(0) else SetLoadTarget(0))))
  {
    hide StepsTo;
    var k, a := |line|, line[w];
    var h := Frame(i, sh.slots[i].seqno, false, HelpLoad);
    var below := [f.(pc := ClaimHelping(w, a, e))];
    ClaimCasStep(sh, [], f, k, w, a, e);
    ClaimCheckStep(sh, [], f, k, w, a, e, sh.mem[a]);
    HelpEntryStep(sh, below, h, k);
    assert [] + below == below;
    ThreeSteps(k, At(sh, [], f, ClaimCas(w, a, e)), At(sh, [], f, ClaimVerify(w, a, e, sh.mem[a])),
               Running(sh, below, h),
               At(sh, below, h, if sh.slots[i].stage == Claiming then ClaimLoadTarget(0) else SetLoadTarget(0)));
  }

  // ------------------------------------------------------------- setting

  // All words from `w` on hold the marker.
  ghost predicate MarkedOn(vs: seq<Value>, w: nat, marker: Value) {
    forall y :: w <= y < |vs| ==> vs[y] == marker
  }

  function AfterSets(f: Frame): Pc {
    if f.owner then Prepare(Ok) else FinishSuccessful
  }

  lemma {:induction false} Sets(sh: Shared, line: seq<Addr>, vs: seq<Value>, below: seq<Frame>, f: Frame, w: nat)
    requires Laid(sh, line, f.slot) && Live(sh, f, Setting) && w < |line| == |vs| && MarkedOn(vs, w, MarkerOf(f))
    ensures Leads(|line|, At(On(sh, line, vs), below, f, SetLoadTarget(w)),
                  At(On(sh, line, SetFrom(vs, sh.slots[f.slot].words, w)), below, f, AfterSets(f)))
    decreases |line| - w
  {
    hide StepsTo;
    hide Leads;
    var k, words, d := |line|, sh.slots[f.slot].words, sh.slots[f.slot].words[w].desired;
    var sh0, vs1 := On(sh, line, vs), vs[w := d];
    var s0, s1 := At(sh0, below, f, SetLoadTarget(w)), At(On(sh, line, vs1), below, f, AfterSet(f, w, k));
    OnStore(sh, line, vs, w, d);
    SetSteps(sh0, below, f, k, w);
    ThreeSteps(k, s0, At(sh0, below, f, SetLoadDesired(w, line[w])), At(sh0, below, f, SetCas(w, line[w], d)), s1);
    if w + 1 < k {
      Sets(sh, line, vs1, below, f, w + 1);
      assert SetFrom(vs1, words, w + 1) == SetFrom(vs, words, w);
      Join(k, s0, s1, At(On(sh, line, SetFrom(vs, words, w)), below, f, AfterSets(f)));
    } else {
      assert vs1 == SetFrom(vs, words, w);
    }
  }

  // An operation with all words marked commits and switches them.
  lemma Commits(sh: Shared, line: seq<Addr>, vs: seq<Value>, below: seq<Frame>, f: Frame)
    requires Laid(sh, line, f.slot) && Live(sh, f, Claiming) && |vs| == |line| && MarkedOn(vs, 0, MarkerOf(f))
    ensures var sh' := StoreStage(sh, f.slot, Setting, f.seqno);
            Leads(|line|, At(On(sh, line, vs), below, f, DecideSetting),
                  At(On(sh', line, Desireds(sh.slots[f.slot].words)), below, f, AfterSets(f)))
  {
    hide StepsTo;
    hide Leads;
    var k, words, sh' := |line|, sh.slots[f.slot].words, StoreStage(sh, f.slot, Setting, f.seqno);
    var s0, s1 := At(On(sh, line, vs), below, f, DecideSetting), At(On(sh', line, vs), below, f, SetLoadTarget(0));
    CommitStep(On(sh, line, vs), below, f, k);
    assert StoreStage(On(sh, line, vs), f.slot, Setting, f.seqno) == On(sh', line, vs);
    Step(k, s0, s1);
    Sets(sh', line, vs, below, f, 0);
    assert SetFrom(vs, words, 0) == Desireds(words);
    Join(k, s0, s1, At(On(sh', line, Desireds(words)), below, f, AfterSets(f)));
  }

  // A helper that has claimed all words of an operation already committed finds
  // the stage changed and switches them.
  lemma LateSets(sh: Shared, line: seq<Addr>, vs: seq<Value>, below: seq<Frame>, f: Frame)
    requires Laid(sh, line, f.slot) && Live(sh, f, Setting) && |vs| == |line| && MarkedOn(vs, 0, MarkerOf(f))
    ensures Leads(|line|, At(On(sh, line, vs), below, f, DecideSetting),
                  At(On(sh, line, Desireds(sh.slots[f.slot].words)), below, f, AfterSets(f)))
  {
    hide StepsTo;
    hide Leads;
    var k, words := |line|, sh.slots[f.slot].words;
    var s0, s1 := At(On(sh, line, vs), below, f, DecideSetting), At(On(sh, line, vs), below, f, SetLoadTarget(0));
    LateDecision(On(sh, line, vs), below, f, k);
    Step(k, s0, s1);
    Sets(sh, line, vs, below, f, 0);
    assert SetFrom(vs, words, 0) == Desireds(words);
    Join(k, s0, s1, At(On(sh, line, Desireds(words)), below, f, AfterSets(f)));
  }

  lemma LateDecision(sh: Shared, below: seq<Frame>, f: Frame, k: nat)
    requires k > 0 && Live(sh, f, Setting) && |sh.slots[f.slot].words| == k
    ensures StepsTo(k, At(sh, below, f, DecideSetting), At(sh, below, f, SetLoadTarget(0)))
  {
  }

  lemma OutdatedVerify(sh: Shared, k: nat, below: seq<Frame>, f: Frame, w: nat)
    requires f.slot < |sh.slots| && |sh.slots[f.slot].words| == k && w < k
    requires !f.owner && sh.slots[f.slot].seqno != f.seqno
    ensures StepsTo(k, At(sh, below, f, SetVerify(w)), At(sh, below, f, RevertLoadTarget(k - 1, HelpOutdated)))
  {
  }

  // A helper whose operation is outdated switches the first word and finds no marker
  // on the second one.
  lemma OutdatedSets(sh: Shared, line: seq<Addr>, vs: seq<Value>, below: seq<Frame>, f: Frame, d: Value)
    requires Laid(sh, line, f.slot) && |vs| == |line| > 1 && !f.owner && sh.slots[f.slot].seqno != f.seqno
    requires vs[0] == MarkerOf(f) && vs[1] != MarkerOf(f)
    ensures Leads(|line|, At(On(sh, line, vs), below, f, SetCas(0, line[0], d)),
                  At(On(sh, line, vs[0 := d]), below, f, RevertLoadTarget(|line| - 1, HelpOutdated)))
  {
    hide StepsTo;
    hide Leads;
    var k, sh0, sh1, e := |line|, On(sh, line, vs), On(sh, line, vs[0 := d]), sh.slots[f.slot].words[1].desired;
    OnStore(sh, line, vs, 0, d);
    OnStore(sh, line, vs[0 := d], 1, d);
    SetCasStep(sh0, below, f, k, 0, line[0], d);
    SetLoadSteps(sh1, below, f, k, 1);
    SetCasStep(sh1, below, f, k, 1, line[1], e);
    OutdatedVerify(sh1, k, below, f, 1);
    var s0, s3 := At(sh0, below, f, SetCas(0, line[0], d)), At(sh1, below, f, SetCas(1, line[1], e));
    ThreeSteps(k, s0, At(sh1, below, f, SetLoadTarget(1)), At(sh1, below, f, SetLoadDesired(1, line[1])), s3);
    var s4, s5 := At(sh1, below, f, SetVerify(1)), At(sh1, below, f, RevertLoadTarget(k - 1, HelpOutdated));
    StepJoin(k, s0, s3, s4);
    StepJoin(k, s0, s4, s5);
  }

  // A helper done with a live operation marks it Successful and returns.
  lemma HelperFinishes(sh: Shared, line: seq<Addr>, vs: seq<Value>, parent: Frame, f: Frame)
    requires Laid(sh, line, f.slot) && Live(sh, f, Setting) && |vs| == |line| && !f.owner
    ensures var sh' := StoreStage(sh, f.slot, Successful, f.seqno);
            StepsTo(|line|, At(On(sh, line, vs), [parent], f, FinishSuccessful),
                    Running(On(sh', line, vs), [], Resume(parent, Ok)))
  {
    HelpEndStep(On(sh, line, vs), [], parent, f, |line|);
    assert [] + [parent] == [parent];
    assert StoreStage(On(sh, line, vs), f.slot, Successful, f.seqno)
        == On(StoreStage(sh, f.slot, Successful, f.seqno), line, vs);
  }

  // ----------------------------------------------------------- reverting

  // Where a revert pass goes in the end.
  function RevertEnds(sh: Shared, below: seq<Frame>, f: Frame, after: AfterRevert): SoloState {
    match RevertNext(f, 0, after)
    case Goto(g) => Running(sh, below, g)
    case Call(_, _) => Running(sh, below, f)
    case Return(r) => if below == [] then Halted(sh, r) else Running(sh, below[..|below| - 1], Resume(Last(below), r))
  }

  function AfterRevertPass(sh: Shared, below: seq<Frame>, f: Frame, w: nat, after: AfterRevert): SoloState {
    if w > 0 then At(sh, below, f, RevertLoadTarget(w - 1, after)) else RevertEnds(sh, below, f, after)
  }

  lemma RevertLoads(sh: Shared, line: seq<Addr>, below: seq<Frame>, f: Frame, w: nat, after: AfterRevert)
    requires Laid(sh, line, f.slot) && w < |line|
    ensures var k, a, e := |line|, line[w], sh.slots[f.slot].words[w].expected;
            && StepsTo(k, At(sh, below, f, RevertLoadTarget(w, after)),
                       At(sh, below, f, RevertLoadExpected(w, a, after)))
            && StepsTo(k, At(sh, below, f, RevertLoadExpected(w, a, after)),
                       At(sh, below, f, RevertCas(w, a, e, after)))
  {
  }

  lemma RevertCasStep(sh: Shared, k: nat, below: seq<Frame>, f: Frame, w: nat, a: Addr, e: Value, after: AfterRevert)
    requires f.slot < |sh.slots| && |sh.slots[f.slot].words| == k && w < k && a < |sh.mem|
    ensures StepsTo(k, At(sh, below, f, RevertCas(w, a, e, after)),
                    AfterRevertPass(if sh.mem[a] == MarkerOf(f) then StoreMem(sh, a, e) else sh, below, f, w, after))
  {
  }

  lemma {:induction false} Reverts(sh: Shared, line: seq<Addr>, vs: seq<Value>, below: seq<Frame>, f: Frame,
                                   w: nat, after: AfterRevert)
    requires Laid(sh, line, f.slot) && w < |line| == |vs|
    ensures Leads(|line|, At(On(sh, line, vs), below, f, RevertLoadTarget(w, after)),
                  RevertEnds(On(sh, line, RevertFrom(vs, sh.slots[f.slot].words, w, MarkerOf(f))), below, f, after))
    decreases w
  {
    hide StepsTo;
    hide Leads;
    var k, a, words, marker := |line|, line[w], sh.slots[f.slot].words, MarkerOf(f);
    var sh0, e := On(sh, line, vs), words[w].expected;
    var vs1 := if vs[w] == marker then vs[w := e] else vs;
    OnStore(sh, line, vs, w, e);
    RevertLoads(sh0, line, below, f, w, after);
    RevertCasStep(sh0, k, below, f, w, a, e, after);
    var s0, s1 := At(sh0, below, f, RevertLoadTarget(w, after)),
                  AfterRevertPass(On(sh, line, vs1), below, f, w, after);
    ThreeSteps(k, s0, At(sh0, below, f, RevertLoadExpected(w, a, after)), At(sh0, below, f, RevertCas(w, a, e, after)),
               s1);
    if w > 0 {
      Reverts(sh, line, vs1, below, f, w - 1, after);
      assert RevertFrom(vs1, words, w - 1, marker) == RevertFrom(vs, words, w, marker);
      Join(k, s0, s1, RevertEnds(On(sh, line, RevertFrom(vs, words, w, marker)), below, f, after));
    } else {
      assert vs1 == RevertFrom(vs, words, w, marker);
    }
  }

  // The rest of a call whose first compare-and-swap finds another user value.
  lemma Fails(sh: Shared, line: seq<Addr>, vs: seq<Value>, f: Frame)
    requires Laid(sh, line, f.slot) && Live(sh, f, Claiming) && f.owner && |vs| == |line|
    requires vs[0].Clean? && vs[0] != sh.slots[f.slot].words[0].expected
    ensures var words := sh.slots[f.slot].words;
            Leads(|line|, At(On(sh, line, vs), [], f, ClaimCas(0, line[0], words[0].expected)),
                  Halted(On(StoreStage(sh, f.slot, Inactive, f.seqno + 1), line, vs), ValueWasNotExpectedValue))
  {
    hide StepsTo;
    hide Leads;
    var k, words, sh0, sh1 := |line|, sh.slots[f.slot].words, On(sh, line, vs),
                              StoreStage(sh, f.slot, Reverting, f.seqno);
    var e := words[0].expected;
    OnStore(sh, line, vs, 0, e);
    ClaimCasStep(sh0, [], f, k, 0, line[0], e);
    ClaimCheckStep(sh0, [], f, k, 0, line[0], e, vs[0]);
    AbortStep(sh0, [], f, k, 0);
    assert StoreStage(sh0, f.slot, Reverting, f.seqno) == On(sh1, line, vs);
    var s0, s3 := At(sh0, [], f, ClaimCas(0, line[0], e)),
                  At(On(sh1, line, vs), [], f, RevertLoadTarget(0, OwnerFails));
    ThreeSteps(k, s0, At(sh0, [], f, ClaimVerify(0, line[0], e, vs[0])), At(sh0, [], f, DecideReverting(0)), s3);
    Reverts(sh1, line, vs, [], f, 0, OwnerFails);
    assert RevertFrom(vs, words, 0, MarkerOf(f)) == vs;
    var s4 := At(On(sh1, line, vs), [], f, Prepare(ValueWasNotExpectedValue));
    Join(k, s0, s3, s4);
    Resets(sh1, line, vs, f, ValueWasNotExpectedValue);
    assert StoreStage(sh1, f.slot, Inactive, f.seqno + 1) == StoreStage(sh, f.slot, Inactive, f.seqno + 1);
    StepJoin(k, s0, s4,
             Halted(On(StoreStage(sh, f.slot, Inactive, f.seqno + 1), line, vs), ValueWasNotExpectedValue));
  }

  lemma Resets(sh: Shared, line: seq<Addr>, vs: seq<Value>, f: Frame, r: Result)
    requires Laid(sh, line, f.slot) && |vs| == |line|
    ensures StepsTo(|line|, At(On(sh, line, vs), [], f, Prepare(r)),
                    Halted(On(StoreStage(sh, f.slot, Inactive, f.seqno + 1), line, vs), r))
  {
    ResetStep(On(sh, line, vs), f, |line|, r);
  }

  lemma OutdatedDecision(sh: Shared, below: seq<Frame>, f: Frame, k: nat)
    requires k > 0 && f.slot < |sh.slots| && |sh.slots[f.slot].words| == k && !f.owner
    requires sh.slots[f.slot].seqno != f.seqno
    ensures StepsTo(k, At(sh, below, f, DecideSetting), At(sh, below, f, RevertLoadTarget(k - 1, HelpOutdated)))
  {
  }

  // A helper whose operation's descriptor serves a later operation cleans up, and
  // is then done.
  lemma OutdatedHelp(sh: Shared, line: seq<Addr>, vs: seq<Value>, parent: Frame, f: Frame)
    requires Laid(sh, line, f.slot) && |vs| == |line| && !f.owner && sh.slots[f.slot].seqno != f.seqno
    ensures Leads(|line|, At(On(sh, line, vs), [parent], f, RevertLoadTarget(|line| - 1, HelpOutdated)),
                  Running(On(sh, line, RevertFrom(vs, sh.slots[f.slot].words, |line| - 1, MarkerOf(f))), [],
                          Resume(parent, SequenceChangedWhileHelping)))
  {
    Reverts(sh, line, vs, [parent], f, |line| - 1, HelpOutdated);
    assert [parent][..0] == [];
  }
}
