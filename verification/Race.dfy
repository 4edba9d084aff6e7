// When all calls try to move the same targets away from the same expected values,
// the first commit decides, and nothing need be promised about descriptor reuse:
// after it no claim can succeed any more. All descriptors are alike, so even a helper
// that comes too late loads the right words.
module FirstCommitWins {
  import opened KcasTypes
  import opened StepMachine
  import opened ProtocolInvariant
  import opened CallerPromises
  import opened SafetyTheorems
  import opened NoOrphanMarkers
  import opened Linearizability
  import opened ExactlyOneWinner

  // The operation has the targets and expected values of `entry` and changes every
  // word.
  ghost predicate Moves(words: seq<KWord>, entry: seq<KWord>) {
    SameEntry(words, entry) && forall x :: 0 <= x < |words| ==> !ComparesOnly(words[x])
  }

  ghost function MovesFrom(entry: seq<KWord>): seq<KWord> -> bool {
    words => Moves(words, entry)
  }

  // Every call of the run does so, and memory holds the expected values at first.
  ghost predicate Race(cfg: Config, run: seq<World>, entry: seq<KWord>) {
    && Run(cfg, run)
    && ValidWords(entry, cfg.k, |run[0].sh.mem|) && Matches(Logical(run[0].sh), entry)
    && forall n :: 0 <= n < |run| - 1 ==> GoodCallsAt(cfg, MovesFrom(entry), run, n)
  }

  // ------------------------------------------- every descriptor is alike

  ghost predicate OnWord(entry: seq<KWord>, w: nat, a: Addr) {
    w < |entry| && entry[w].target == Some(a)
  }

  // What a frame has loaded is what all descriptors say.
  ghost predicate FrameEntry(f: Frame, entry: seq<KWord>) {
    match f.pc
    case ClaimLoadExpected(w, a) => OnWord(entry, w, a)
    case ClaimCas(w, a, e) => OnWord(entry, w, a) && entry[w].expected == e
    case ClaimVerify(w, a, e, _) => OnWord(entry, w, a) && entry[w].expected == e
    case ClaimHelping(w, a, e) => OnWord(entry, w, a) && entry[w].expected == e
    case SetLoadDesired(w, a) => OnWord(entry, w, a)
    case SetCas(w, a, _) => OnWord(entry, w, a)
    case RevertLoadExpected(w, a, _) => OnWord(entry, w, a)
    case RevertCas(w, a, e, _) => OnWord(entry, w, a) && entry[w].expected == e
    case _ => true
  }

  ghost predicate SlotEntry(slot: Slot, entry: seq<KWord>) {
    slot.seqno > 0 || slot.stage != Inactive ==> SameEntry(slot.words, entry)
  }

  ghost predicate StackEntry(stack: seq<Frame>, entry: seq<KWord>) {
    forall d :: 0 <= d < |stack| ==> FrameEntry(stack[d], entry)
  }

  ghost predicate EntryInv(w: World, entry: seq<KWord>) {
    && (forall i :: 0 <= i < |w.sh.slots| ==> SlotEntry(w.sh.slots[i], entry))
    && (forall t :: 0 <= t < |w.stacks| ==> StackEntry(w.stacks[t], entry))
  }

  lemma NextEntry(sh: Shared, h: History, k: nat, f: Frame, entry: seq<KWord>)
    requires FrameInv(sh, h, k, f) && InRange(sh, f, k) && !f.pc.ClaimHelping?
    requires FrameEntry(f, entry) && SlotEntry(sh.slots[f.slot], entry) && |entry| == k
    ensures var m := Exec(sh, f, k).move;
            && (m.Goto? || m.Call? ==> FrameEntry(m.frame, entry))
            && (m.Call? ==> FrameEntry(m.child, entry))
  {
    if InitPc(f.pc) {
      InitEntry(sh, k, f, entry);
    } else {
      WorkEntry(sh, k, f, entry);
    }
  }

  lemma InitEntry(sh: Shared, k: nat, f: Frame, entry: seq<KWord>)
    requires InRange(sh, f, k) && InitPc(f.pc)
    ensures var m := Exec(sh, f, k).move; m.Goto? && FrameEntry(m.frame, entry)
  {
  }

  lemma WorkEntry(sh: Shared, k: nat, f: Frame, entry: seq<KWord>)
    requires InRange(sh, f, k) && !InitPc(f.pc) && !f.pc.ClaimHelping?
    requires FrameEntry(f, entry) && SameEntry(sh.slots[f.slot].words, entry)
    ensures var m := Exec(sh, f, k).move;
            && (m.Goto? || m.Call? ==> FrameEntry(m.frame, entry))
            && (m.Call? ==> FrameEntry(m.child, entry))
  {
    if ClaimPc(f.pc) {
      ClaimEntry(sh, k, f, entry);
    } else if RevertPc(f.pc) {
      RevertEntry(sh, k, f, entry);
    } else if !AtWork(f) {
      HelpEntry(sh, k, f, entry);
    }
  }

  lemma RevertEntry(sh: Shared, k: nat, f: Frame, entry: seq<KWord>)
    requires InRange(sh, f, k) && RevertPc(f.pc)
    requires FrameEntry(f, entry) && SameEntry(sh.slots[f.slot].words, entry)
    ensures var m := Exec(sh, f, k).move; m.Goto? || m.Call? ==> FrameEntry(m.frame, entry) && !m.Call?
  {
  }

  lemma HelpEntry(sh: Shared, k: nat, f: Frame, entry: seq<KWord>)
    requires InRange(sh, f, k) && f.pc == HelpLoad
    ensures var m := Exec(sh, f, k).move;
            && (m.Goto? || m.Call? ==> FrameEntry(m.frame, entry))
            && (m.Call? ==> FrameEntry(m.child, entry))
  {
  }

  lemma ClaimEntry(sh: Shared, k: nat, f: Frame, entry: seq<KWord>)
    requires InRange(sh, f, k) && ClaimPc(f.pc) && !f.pc.ClaimHelping?
    requires FrameEntry(f, entry) && SameEntry(sh.slots[f.slot].words, entry)
    ensures var m := Exec(sh, f, k).move;
            && (m.Goto? || m.Call? ==> FrameEntry(m.frame, entry))
            && (m.Call? ==> FrameEntry(m.child, entry))
  {
  }

  lemma NextSlotEntry(sh: Shared, h: History, k: nat, f: Frame, entry: seq<KWord>, i: nat)
    requires FrameInv(sh, h, k, f) && InRange(sh, f, k) && !f.pc.ClaimHelping?
    requires FrameArgs(MovesFrom(entry), f) && i < |sh.slots| && SlotEntry(sh.slots[i], entry) && |entry| == k
    ensures |Exec(sh, f, k).sh.slots| == |sh.slots| && SlotEntry(Exec(sh, f, k).sh.slots[i], entry)
  {
  }

  lemma RestackEntry(stack: seq<Frame>, m: Move, entry: seq<KWord>)
    requires stack != [] && StackEntry(stack, entry)
    requires m.Goto? || m.Call? ==> FrameEntry(m.frame, entry)
    requires m.Call? ==> FrameEntry(m.child, entry)
    ensures StackEntry(Restack(stack, m), entry)
  {
  }

  lemma ExecuteEntry(cfg: Config, w: World, w': World, t: nat, entry: seq<KWord>)
    requires Inv(cfg, w) && EntryInv(w, entry) && GoodArgs(MovesFrom(entry), w) && |entry| == cfg.k
    requires Execute(cfg, w, w', t)
    ensures EntryInv(w', entry)
  {
    hide FrameEntry;
    hide SlotEntry;
    hide Exec;
    hide Inv;
    hide Restack;
    hide FrameArgs;
    var f := Last(w.stacks[t]);
    FrameOfStep(cfg, w, w', t);
    assert StackEntry(w.stacks[t], entry) && StackArgs(MovesFrom(entry), w.stacks[t]);
    NextEntry(w.sh, w.hist, cfg.k, f, entry);
    RestackEntry(w.stacks[t], Exec(w.sh, f, cfg.k).move, entry);
    forall i | 0 <= i < |w'.sh.slots| ensures SlotEntry(w'.sh.slots[i], entry) {
      NextSlotEntry(w.sh, w.hist, cfg.k, f, entry, 0);
      NextSlotEntry(w.sh, w.hist, cfg.k, f, entry, i);
    }
  }

  // ------------------------------------------------- before the first commit

  ghost predicate Undecided(h: History) {
    && h.committed == {} && h.aborted == {} && h.mismatched == {}
    && forall op, x :: !IsSwitched(h, op, x)
  }

  // A target holds the expected value or a marker.
  ghost predicate Waits(sh: Shared, word: KWord) {
    && word.target.Some? && word.target.value < |sh.mem|
    && (sh.mem[word.target.value] == word.expected || sh.mem[word.target.value].Marker?)
  }

  ghost predicate Early(w: World, entry: seq<KWord>) {
    Undecided(w.hist) && forall x :: 0 <= x < |entry| ==> Waits(w.sh, entry[x])
  }

  lemma UndecidedClaims(cfg: Config, w: World, op: OpId)
    requires Inv(cfg, w) && Undecided(w.hist) && Started(w.sh, op.slot, op.seqno)
    ensures InStage(w, op, Claiming)
  {
    assert OpHistory(w.sh, w.hist, op) && SlotHistory(w.sh, w.hist, op.slot);
  }

  // No step but a commit decides anything.
  lemma UndecidedStep(cfg: Config, w: World, w': World, t: nat, entry: seq<KWord>)
    requires Inv(cfg, w) && Execute(cfg, w, w', t) && EntryInv(w, entry) && Early(w, entry) && |entry| == cfg.k
    requires Exec(w.sh, Last(w.stacks[t]), cfg.k).event != Commit
    ensures Undecided(w'.hist)
  {
    var f := Last(w.stacks[t]);
    var e := Exec(w.sh, f, cfg.k).event;
    FrameOfStep(cfg, w, w', t);
    assert StackEntry(w.stacks[t], entry) && FrameEntry(f, entry);
    if f.pc.ClaimCas? { assert Waits(w.sh, entry[f.pc.w]); }
    NothingDecided(w.sh, w.hist, cfg.k, f);
    forall op, x ensures !IsSwitched(w'.hist, op, x) { RecordNew(w.hist, OpOf(f), e, op, x); }
  }

  lemma NothingDecided(sh: Shared, h: History, k: nat, f: Frame)
    requires FrameInv(sh, h, k, f) && InRange(sh, f, k) && !f.pc.ClaimHelping? && Undecided(h)
    requires f.pc.ClaimCas? ==> sh.mem[f.pc.a] == f.pc.e || sh.mem[f.pc.a].Marker?
    requires Exec(sh, f, k).event != Commit
    ensures var e := Exec(sh, f, k).event; !e.Mismatch? && !e.Abort? && !e.Switched?
  {
  }

  lemma EarlyStep(cfg: Config, w: World, w': World, t: nat, entry: seq<KWord>)
    requires Inv(cfg, w) && Inv(cfg, w') && Execute(cfg, w, w', t) && EntryInv(w, entry) && Early(w, entry)
    requires |entry| == cfg.k && Exec(w.sh, Last(w.stacks[t]), cfg.k).event != Commit
    ensures Early(w', entry)
  {
    UndecidedStep(cfg, w, w', t, entry);
    forall x | 0 <= x < |entry| ensures Waits(w'.sh, entry[x]) {
      assert Waits(w.sh, entry[x]);
      WaitsStep(cfg, w, w', t, entry[x].target.value);
    }
  }

  // Any write of the step is a claim.
  lemma WaitsStep(cfg: Config, w: World, w': World, t: nat, a: Addr)
    requires Inv(cfg, w) && Execute(cfg, w, w', t) && Undecided(w.hist) && a < |w.sh.mem|
    ensures |w'.sh.mem| == |w.sh.mem| && (w'.sh.mem[a] == w.sh.mem[a] || w'.sh.mem[a].Marker?)
  {
    var f := Last(w.stacks[t]);
    StepFacts(cfg, w, w', t);
    if w'.sh.mem[a] != w.sh.mem[a] {
      ExecWrites(w.sh, f, cfg.k, a);
      if !f.pc.ClaimCas? { UndecidedClaims(cfg, w, OpOf(f)); }
    }
  }

  // --------------------------------------------------- after the first commit

  // Word `x` of the winner holds its marker, still to be switched, or its desired
  // value.
  ghost predicate Taken(w: World, win: OpId, x: nat) {
    && win in w.hist.began && x < |w.hist.began[win]|
    && var word := w.hist.began[win][x];
    && word.target.Some? && word.target.value < |w.sh.mem|
    && (w.sh.mem[word.target.value] == word.desired
        || (w.sh.mem[word.target.value] == Marker(win.slot, win.seqno) && Pending(w, win, x)))
  }

  ghost predicate Decided(w: World, k: nat, win: OpId) {
    && w.hist.committed == {win}
    && forall x :: 0 <= x < k ==> Taken(w, win, x)
  }

  lemma FirstCommit(cfg: Config, w: World, w': World, t: nat, entry: seq<KWord>, win: OpId)
    requires Inv(cfg, w) && Inv(cfg, w') && Early(w, entry) && Took(cfg, w, w', t, win, Commit)
    ensures Decided(w', cfg.k, win)
  {
    CommitMeans(cfg, w, w', t, win);
    CommitStores(cfg, w, w', t, win);
    assert SlotHistory(w'.sh, w'.hist, win.slot) && SlotShape(w'.sh, cfg.k, win.slot);
    forall x | 0 <= x < cfg.k ensures Taken(w', win, x) {
      assert Marked(w.sh, win.slot, x);
      RecordNew(w.hist, win, Commit, win, x);
    }
  }

  lemma CommitStores(cfg: Config, w: World, w': World, t: nat, op: OpId)
    requires Took(cfg, w, w', t, op, Commit)
    ensures op.slot < |w.sh.slots| && w'.sh == StoreStage(w.sh, op.slot, Setting, op.seqno)
  {
    assert Last(w.stacks[t]).pc == DecideSetting;
  }

  // The winner's words as the other descriptors see them.
  ghost predicate WinnerMoves(w: World, k: nat, win: OpId, entry: seq<KWord>) {
    && win in w.hist.began && Moves(w.hist.began[win], entry) && |entry| == k
    && DistinctTargets(entry) && forall x :: 0 <= x < k ==> w.hist.began[win][x].desired.Clean?
  }

  // A target once taken is never claimed, and only the winner's set phase writes it.
  lemma TakenStays(cfg: Config, w: World, w': World, t: nat, entry: seq<KWord>, win: OpId, x: nat)
    requires Inv(cfg, w) && Inv(cfg, w') && Execute(cfg, w, w', t) && EntryInv(w, entry)
    requires Decided(w, cfg.k, win) && WinnerMoves(w, cfg.k, win, entry) && x < cfg.k
    requires win in w'.hist.began && w'.hist.began[win] == w.hist.began[win]
    ensures Taken(w', win, x)
  {
    hide Inv;
    hide EntryInv;
    hide WinnerMoves;
    hide Exec;
    assert Taken(w, win, x);
    var a, word := w.hist.began[win][x].target.value, w.hist.began[win][x];
    SameSize(cfg, w, w', t);
    if w'.sh.mem[a] == w.sh.mem[a] {
      if w.sh.mem[a] != word.desired {
        LiveBegan(cfg, w, win);
        StillPending(cfg, w, w', t, win, x, a);
      }
    } else {
      TakenWrite(cfg, w, w', t, entry, win, x, a);
    }
  }

  lemma SameSize(cfg: Config, w: World, w': World, t: nat)
    requires Inv(cfg, w) && Execute(cfg, w, w', t)
    ensures |w'.sh.mem| == |w.sh.mem|
  {
    StepFacts(cfg, w, w', t);
  }

  lemma LiveBegan(cfg: Config, w: World, op: OpId)
    requires Inv(cfg, w) && InStage(w, op, Setting)
    ensures op in w.hist.began && w.sh.slots[op.slot].words == w.hist.began[op]
    ensures |w.sh.slots[op.slot].words| == cfg.k
  {
    assert SlotHistory(w.sh, w.hist, op.slot) && SlotShape(w.sh, cfg.k, op.slot);
  }

  lemma TakenWrite(cfg: Config, w: World, w': World, t: nat, entry: seq<KWord>, win: OpId, x: nat, a: Addr)
    requires Inv(cfg, w) && Execute(cfg, w, w', t) && EntryInv(w, entry)
    requires Taken(w, win, x) && WinnerMoves(w, cfg.k, win, entry) && x < cfg.k
    requires w.hist.began[win][x].target == Some(a) && |w'.sh.mem| == |w.sh.mem| && w'.sh.mem[a] != w.sh.mem[a]
    ensures w'.sh.mem[a] == w.hist.began[win][x].desired
  {
    var f := Last(w.stacks[t]);
    FrameOfStep(cfg, w, w', t);
    ExecWrites(w.sh, f, cfg.k, a);
    assert StackEntry(w.stacks[t], entry) && FrameEntry(f, entry);
    assert f.pc.w == x && entry[x].expected != w.hist.began[win][x].desired;
    assert SlotHistory(w.sh, w.hist, win.slot);
  }

  lemma DecidedStep(cfg: Config, w: World, w': World, t: nat, entry: seq<KWord>, win: OpId)
    requires Inv(cfg, w) && Inv(cfg, w') && Execute(cfg, w, w', t) && EntryInv(w, entry)
    requires Decided(w, cfg.k, win) && WinnerMoves(w, cfg.k, win, entry)
    requires win in w'.hist.began && w'.hist.began[win] == w.hist.began[win]
    ensures Decided(w', cfg.k, win)
  {
    OnlyOneCommits(cfg, w, w', t, entry, win);
    forall x | 0 <= x < cfg.k ensures Taken(w', win, x) {
      TakenStays(cfg, w, w', t, entry, win, x);
    }
  }

  // To commit, another operation would need its marker on a target already taken.
  lemma MarkedIsWinner(w: World, k: nat, entry: seq<KWord>, win: OpId, i: nat)
    requires Decided(w, k, win) && WinnerMoves(w, k, win, entry) && k > 0
    requires Marked(w.sh, i, 0) && SlotEntry(w.sh.slots[i], entry) && w.sh.slots[i].stage != Inactive
    ensures OpId(i, w.sh.slots[i].seqno) == win
  {
    assert Taken(w, win, 0);
  }

  lemma OnlyOneCommits(cfg: Config, w: World, w': World, t: nat, entry: seq<KWord>, win: OpId)
    requires Inv(cfg, w) && Execute(cfg, w, w', t) && EntryInv(w, entry)
    requires Decided(w, cfg.k, win) && WinnerMoves(w, cfg.k, win, entry)
    ensures w'.hist.committed == {win}
  {
    hide SharedInv;
    hide StacksInv;
    hide WinnerMoves;
    hide Exec;
    var op := OpOf(Last(w.stacks[t]));
    if Took(cfg, w, w', t, op, Commit) {
      CommitMeans(cfg, w, w', t, op);
      assert cfg.k > 0 by { PositiveWords(cfg, w); }
      MarkedIsWinner(w, cfg.k, entry, win, op.slot);
    }
  }

  lemma PositiveWords(cfg: Config, w: World)
    requires Inv(cfg, w)
    ensures cfg.k > 0
  {
  }

  // ------------------------------------------------------------- the run

  ghost predicate SomeoneDecided(w: World, k: nat) {
    exists win :: Decided(w, k, win)
  }

  ghost predicate RaceInv(w: World, k: nat, entry: seq<KWord>) {
    EntryInv(w, entry) && (Early(w, entry) || SomeoneDecided(w, k))
  }

  lemma FirstRace(cfg: Config, run: seq<World>, entry: seq<KWord>)
    requires Race(cfg, run, entry)
    ensures RaceInv(run[0], cfg.k, entry)
  {
    forall x | 0 <= x < |entry| ensures Waits(run[0].sh, entry[x]) {
      assert CleanWord(entry[x], |run[0].sh.mem|) && WordMatches(Logical(run[0].sh), entry[x]);
      assert Logical(run[0].sh)[entry[x].target.value] == LogicalAt(run[0].sh, entry[x].target.value);
    }
  }

  lemma NextRace(cfg: Config, run: seq<World>, n: nat, entry: seq<KWord>)
    requires Race(cfg, run, entry) && n + 1 < |run| && RaceInv(run[n], cfg.k, entry)
    ensures RaceInv(run[n + 1], cfg.k, entry)
  {
    var w, w' := run[n], run[n + 1];
    RunStep(cfg, run, n);
    if t: nat :| Execute(cfg, w, w', t) {
      RunArgs(cfg, MovesFrom(entry), run, n);
      ExecuteEntry(cfg, w, w', t, entry);
      ExecuteRace(cfg, run, n, t, entry);
    } else {
      SameRace(cfg, w, w', entry);
    }
  }

  lemma SameRace(cfg: Config, w: World, w': World, entry: seq<KWord>)
    requires Next(cfg, w, w') && RaceInv(w, cfg.k, entry) && w'.sh == w.sh && w'.hist == w.hist
    requires forall t: nat :: !Execute(cfg, w, w', t)
    ensures RaceInv(w', cfg.k, entry)
  {
    forall t | 0 <= t < |w'.stacks| ensures StackEntry(w'.stacks[t], entry) {
      assert StackEntry(w.stacks[t], entry);
    }
    if win :| Decided(w, cfg.k, win) {
      forall x | 0 <= x < cfg.k ensures Taken(w', win, x) { assert Taken(w, win, x); }
      assert Decided(w', cfg.k, win);
    }
  }

  lemma ExecuteRace(cfg: Config, run: seq<World>, n: nat, t: nat, entry: seq<KWord>)
    requires Race(cfg, run, entry) && n + 1 < |run| && RaceInv(run[n], cfg.k, entry)
    requires Execute(cfg, run[n], run[n + 1], t)
    ensures Early(run[n + 1], entry) || SomeoneDecided(run[n + 1], cfg.k)
  {
    hide Inv;
    hide EntryInv;
    hide Early;
    hide Decided;
    hide Exec;
    hide WinnerMoves;
    var w, w' := run[n], run[n + 1];
    RunStep(cfg, run, n);
    if Early(w, entry) {
      var op := OpOf(Last(w.stacks[t]));
      if Took(cfg, w, w', t, op, Commit) {
        FirstCommit(cfg, w, w', t, entry, op);
      } else {
        EarlyStep(cfg, w, w', t, entry);
      }
    } else {
      var win :| Decided(w, cfg.k, win);
      WinnerBegan(cfg, run, n, win);
      TheWinnerMoves(cfg, run, n, entry, win);
      WordsStay(cfg, run, n, n + 1, win);
      DecidedStep(cfg, w, w', t, entry, win);
    }
  }

  lemma WinnerBegan(cfg: Config, run: seq<World>, n: nat, win: OpId)
    requires Run(cfg, run) && n < |run| && Decided(run[n], cfg.k, win)
    ensures win in run[n].hist.began
  {
    RunInvariant(cfg, run, n);
    assert OpHistory(run[n].sh, run[n].hist, win);
  }

  lemma TheWinnerMoves(cfg: Config, run: seq<World>, n: nat, entry: seq<KWord>, win: OpId)
    requires Race(cfg, run, entry) && n < |run| && win in run[n].hist.began
    ensures WinnerMoves(run[n], cfg.k, win, entry)
  {
    RunArgs(cfg, MovesFrom(entry), run, n);
    WordsClean(cfg, run, n, win);
    var words := run[n].hist.began[win];
    forall x | 0 <= x < cfg.k ensures words[x].desired.Clean? { assert CleanWord(words[x], |run[0].sh.mem|); }
  }

  lemma {:induction false} RunRace(cfg: Config, run: seq<World>, n: nat, entry: seq<KWord>)
    requires Race(cfg, run, entry) && n < |run|
    ensures RaceInv(run[n], cfg.k, entry)
    decreases n
  {
    if n == 0 {
      FirstRace(cfg, run, entry);
    } else {
      RunRace(cfg, run, n - 1, entry);
      NextRace(cfg, run, n - 1, entry);
    }
  }

  // Exactly one winner, with descriptors reused at any time and values of any kind:
  // once all calls have returned, and at least one was made, one returned Ok, all
  // others ValueWasNotExpectedValue, and all targets hold the winner's values.
  lemma RaceHasOneWinner(cfg: Config, run: seq<World>, entry: seq<KWord>, someone: OpId) returns (winner: OpId)
    requires Race(cfg, run, entry) && AllReturned(Last(run)) && someone in Last(run).hist.results
    ensures Wins(Last(run), winner)
    ensures forall op :: Wins(Last(run), op) ==> op == winner
  {
    var w, last := Last(run), |run| - 1;
    RunRace(cfg, run, last, entry);
    RunInvariant(cfg, run, last);
    assert OpHistory(w.sh, w.hist, someone);
    winner :| Decided(w, cfg.k, winner);
    WinnerBegan(cfg, run, last, winner);
    TheWinnerMoves(cfg, run, last, entry, winner);
    assert Taken(w, winner, 0) || cfg.k == 0;
    WinnerReturned(cfg, w, winner);
    forall p | p in w.hist.results && p != winner ensures w.hist.results[p] == ValueWasNotExpectedValue {
      assert OpHistory(w.sh, w.hist, p);
    }
    forall x | 0 <= x < |w.hist.began[winner]| ensures HoldsDesired(w.sh.mem, w.hist.began[winner][x]) {
      assert Taken(w, winner, x);
      assert w.stacks[winner.slot] == [];
    }
  }

  lemma WinnerReturned(cfg: Config, w: World, winner: OpId)
    requires Inv(cfg, w) && AllReturned(w) && winner in w.hist.committed
    ensures winner in w.hist.results && w.hist.results[winner] == Ok && winner.slot < |w.stacks|
  {
    assert OpHistory(w.sh, w.hist, winner);
    assert winner.slot < |w.stacks| && w.stacks[winner.slot] == [];
  }
}
