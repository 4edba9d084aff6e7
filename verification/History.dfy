// One history of all completed calls: the successful ones swap their words, the
// failed ones find a memory that does not match them, and calls that do not overlap
// keep their order.
module WholeHistory {
  import opened KcasTypes
  import opened StepMachine
  import opened ProtocolInvariant
  import opened SafetyTheorems
  import opened AtomicSwaps
  import opened Linearizability
  import opened SequentialHistory

  // What a call did, and the state of the run in which it did it.
  datatype Effect = Effect(op: OpId, words: seq<KWord>, ok: bool, at: nat)

  // The memory after the effects.
  function Outcome(m: seq<nat>, history: seq<Effect>): (n: seq<nat>)
    ensures |n| == |m|
  {
    if history == [] then m
    else
      var before := Outcome(m, history[..|history| - 1]);
      var e := history[|history| - 1];
      if e.ok then SwapAll(before, e.words) else before
  }

  // Each call matches the memory it finds exactly if it succeeds.
  ghost predicate Legal(m: seq<nat>, history: seq<Effect>) {
    history != [] ==>
      && Legal(m, history[..|history| - 1])
      && (Matches(Outcome(m, history[..|history| - 1]), history[|history| - 1].words) <==> history[|history| - 1].ok)
  }

  ghost predicate Sorted(history: seq<Effect>) {
    forall i, j :: 0 <= i < j < |history| ==> history[i].at <= history[j].at && history[i].op != history[j].op
  }

  lemma LegalMore(m: seq<nat>, history: seq<Effect>, e: Effect)
    requires Legal(m, history) && (Matches(Outcome(m, history), e.words) <==> e.ok)
    ensures Legal(m, history + [e])
    ensures Outcome(m, history + [e]) == if e.ok then SwapAll(Outcome(m, history), e.words) else Outcome(m, history)
  {
    assert (history + [e])[..|history|] == history;
  }

  // --------------------------------------------------- where calls take effect

  ghost predicate Failed(w: World, op: OpId) {
    op in w.hist.results && w.hist.results[op] != Ok
  }

  // In state `n` the call is under way and logical memory does not match it.
  ghost predicate FailsAt(run: seq<World>, n: nat, op: OpId) {
    n < |run| && InStage(run[n], op, Claiming) && !Matches(Logical(run[n].sh), WordsOf(Last(run), op))
  }

  ghost function PointOf(run: seq<World>, op: OpId): nat {
    if n: nat :| FailsAt(run, n, op) then n else |run|
  }

  // The effect is one of the run's.
  ghost predicate Proper(run: seq<World>, e: Effect) {
    if e.ok then CommitsAt(run, e.at, e.op) && e.words == WordsOf(run[e.at], e.op)
    else run != [] && Failed(Last(run), e.op) && PointOf(run, e.op) == e.at && e.words == WordsOf(Last(run), e.op)
  }

  ghost function Listing(s: set<OpId>): (ops: seq<OpId>)
    ensures forall op :: op in ops <==> op in s
    ensures forall i, j :: 0 <= i < j < |ops| ==> ops[i] != ops[j]
  {
    if s == {} then []
    else
      var op :| op in s;
      [op] + Listing(s - {op})
  }

  // The calls that fail in state `n`.
  ghost function FailingAt(run: seq<World>, n: nat): set<OpId>
    requires run != []
  {
    set op | op in Last(run).hist.results && Failed(Last(run), op) && PointOf(run, op) == n
  }

  // They take effect in any order.
  ghost function FailuresAt(run: seq<World>, n: nat): (es: seq<Effect>)
    requires run != []
  {
    var ops := Listing(FailingAt(run, n));
    seq(|ops|, i requires 0 <= i < |ops| => Effect(ops[i], WordsOf(Last(run), ops[i]), false, n))
  }

  // The call that commits in the step from state `n`, if any.
  ghost function CommitAt(run: seq<World>, n: nat): (es: seq<Effect>)
    ensures |es| <= 1
  {
    if op :| CommitsAt(run, n, op) then [Effect(op, WordsOf(run[n], op), true, n)] else []
  }

  ghost function EffectsAt(run: seq<World>, n: nat): seq<Effect>
    requires run != []
  {
    FailuresAt(run, n) + CommitAt(run, n)
  }

  // What took effect before state `n`.
  ghost function Effects(run: seq<World>, n: nat): seq<Effect>
    requires run != []
  {
    if n == 0 then [] else Effects(run, n - 1) + EffectsAt(run, n - 1)
  }

  // ------------------------------------------------------- it is a history

  ghost predicate AllProper(run: seq<World>, es: seq<Effect>, lo: nat, hi: nat) {
    forall i :: 0 <= i < |es| ==> Proper(run, es[i]) && lo <= es[i].at < hi
  }

  lemma FailuresProper(run: seq<World>, n: nat)
    requires run != []
    ensures AllProper(run, FailuresAt(run, n), n, n + 1) && Sorted(FailuresAt(run, n))
  {
    var ops := Listing(FailingAt(run, n));
    forall i | 0 <= i < |ops| ensures Failed(Last(run), ops[i]) && PointOf(run, ops[i]) == n {
      assert ops[i] in FailingAt(run, n);
    }
  }

  lemma CommitProper(run: seq<World>, n: nat)
    ensures AllProper(run, CommitAt(run, n), n, n + 1)
    ensures CommitAt(run, n) == [] ==> forall op :: !CommitsAt(run, n, op)
    ensures CommitAt(run, n) != [] ==> CommitAt(run, n)[0].ok
  {
  }

  // An operation takes effect once.
  lemma OneEffect(cfg: Config, run: seq<World>, e: Effect, f: Effect)
    requires Run(cfg, run) && Proper(run, e) && Proper(run, f) && e.op == f.op
    ensures e == f
  {
    if e.ok && f.ok {
      DecidedOnce(cfg, run, e.at, f.at, e.op, Setting, Setting);
    } else if e.ok {
      CommittedDoesNotFail(cfg, run, e.at, e.op);
    } else if f.ok {
      CommittedDoesNotFail(cfg, run, f.at, f.op);
    }
  }

  lemma CommittedDoesNotFail(cfg: Config, run: seq<World>, n: nat, op: OpId)
    requires Run(cfg, run) && CommitsAt(run, n, op)
    ensures !Failed(Last(run), op)
  {
    CommitIsNew(cfg, run, n, op);
    CommittedStays(cfg, run, n + 1, |run| - 1);
    CommittedNotAborted(cfg, run, |run| - 1, op);
    if Failed(Last(run), op) { ResultRecorded(cfg, run, |run| - 1, op); }
  }

  lemma CommittedNotAborted(cfg: Config, run: seq<World>, n: nat, op: OpId)
    requires Run(cfg, run) && n < |run| && op in run[n].hist.committed
    ensures op !in run[n].hist.aborted
  {
    RunInvariant(cfg, run, n);
    assert OpHistory(run[n].sh, run[n].hist, op);
  }

  // Effects put one after the other in the order of their states.
  lemma SortedJoin(cfg: Config, run: seq<World>, es: seq<Effect>, fs: seq<Effect>, lo: nat, n: nat, hi: nat)
    requires Run(cfg, run) && lo <= n <= hi
    requires Sorted(es) && Sorted(fs) && AllProper(run, es, lo, n) && AllProper(run, fs, n, hi)
    ensures Sorted(es + fs) && AllProper(run, es + fs, lo, hi)
  {
    var all := es + fs;
    forall i, j | 0 <= i < j < |all| ensures all[i].at <= all[j].at && all[i].op != all[j].op {
      if i < |es| <= j && all[i].op == all[j].op {
        OneEffect(cfg, run, es[i], fs[j - |es|]);
      }
    }
  }

  lemma EffectsAtSorted(cfg: Config, run: seq<World>, n: nat)
    requires Run(cfg, run)
    ensures Sorted(EffectsAt(run, n)) && AllProper(run, EffectsAt(run, n), n, n + 1)
  {
    var fails, commits := FailuresAt(run, n), CommitAt(run, n);
    FailuresProper(run, n);
    CommitProper(run, n);
    var all := EffectsAt(run, n);
    forall i, j | 0 <= i < j < |all| ensures all[i].at <= all[j].at && all[i].op != all[j].op {
      if j == |fails| && fails[i].op == commits[0].op { OneEffect(cfg, run, fails[i], commits[0]); }
    }
  }

  lemma {:induction false} EffectsSorted(cfg: Config, run: seq<World>, n: nat)
    requires Run(cfg, run)
    ensures Sorted(Effects(run, n)) && AllProper(run, Effects(run, n), 0, n)
    decreases n
  {
    hide Sorted;
    hide AllProper;
    hide EffectsAt;
    if n == 0 {
      Empty(run);
    } else {
      EffectsSorted(cfg, run, n - 1);
      EffectsAtSorted(cfg, run, n - 1);
      SortedJoin(cfg, run, Effects(run, n - 1), EffectsAt(run, n - 1), 0, n - 1, n);
    }
  }

  lemma Empty(run: seq<World>)
    ensures Sorted([]) && AllProper(run, [], 0, 0)
  {
  }

  ghost predicate Has(es: seq<Effect>, e: Effect) {
    exists i :: 0 <= i < |es| && es[i] == e
  }

  lemma HasJoin(es: seq<Effect>, fs: seq<Effect>, e: Effect)
    requires Has(es, e) || Has(fs, e)
    ensures Has(es + fs, e)
  {
    if i :| 0 <= i < |es| && es[i] == e {
      assert (es + fs)[i] == e;
    } else {
      var i :| 0 <= i < |fs| && fs[i] == e;
      assert (es + fs)[|es| + i] == e;
    }
  }

  lemma ProperHappens(cfg: Config, run: seq<World>, e: Effect)
    requires Run(cfg, run) && Proper(run, e)
    ensures Has(EffectsAt(run, e.at), e)
  {
    var fails, commits := FailuresAt(run, e.at), CommitAt(run, e.at);
    if e.ok {
      CommitProper(run, e.at);
      OneCommitPerStep(cfg, run, e.at, commits[0].op, e.op);
      assert commits[0] == e;
    } else {
      var ops := Listing(FailingAt(run, e.at));
      assert e.op in ops;
      var i :| 0 <= i < |ops| && ops[i] == e.op;
      assert fails[i] == e;
    }
    HasJoin(fails, commits, e);
  }

  lemma {:induction false} EffectsComplete(cfg: Config, run: seq<World>, n: nat, e: Effect)
    requires Run(cfg, run) && Proper(run, e) && e.at < n
    ensures Has(Effects(run, n), e)
    decreases n
  {
    hide Has;
    hide EffectsAt;
    hide Proper;
    if e.at < n - 1 {
      EffectsComplete(cfg, run, n - 1, e);
    } else {
      ProperHappens(cfg, run, e);
    }
    HasJoin(Effects(run, n - 1), EffectsAt(run, n - 1), e);
  }

  ghost predicate Misses(m: seq<nat>, e: Effect) {
    !e.ok && !Matches(m, e.words)
  }

  // Failures leave memory alone and do not match it.
  lemma {:induction false} FailuresLegal(m: seq<nat>, history: seq<Effect>, fails: seq<Effect>)
    requires Legal(m, history)
    requires forall i :: 0 <= i < |fails| ==> Misses(Outcome(m, history), fails[i])
    ensures Legal(m, history + fails) && Outcome(m, history + fails) == Outcome(m, history)
    decreases |fails|
  {
    hide Legal;
    hide Outcome;
    hide Matches;
    if fails == [] {
      assert history + fails == history;
    } else {
      var front, e := fails[..|fails| - 1], fails[|fails| - 1];
      FailuresLegal(m, history, front);
      LegalMore(m, history + front, e);
      assert history + front + [e] == history + fails;
    }
  }

  ghost predicate LegalAt(run: seq<World>, n: nat)
    requires n < |run|
  {
    && Legal(Logical(run[0].sh), Effects(run, n))
    && Outcome(Logical(run[0].sh), Effects(run, n)) == Logical(run[n].sh)
  }

  lemma FailuresMiss(run: seq<World>, n: nat)
    requires n < |run|
    ensures forall i :: 0 <= i < |FailuresAt(run, n)| ==> Misses(Logical(run[n].sh), FailuresAt(run, n)[i])
  {
    FailuresProper(run, n);
    forall i | 0 <= i < |FailuresAt(run, n)| ensures Misses(Logical(run[n].sh), FailuresAt(run, n)[i]) {
      var e := FailuresAt(run, n)[i];
      assert Proper(run, e) && PointOf(run, e.op) == n;
    }
  }

  // A commit matches the memory it finds and swaps its words.
  lemma CommitLegal(cfg: Config, run: seq<World>, n: nat, m: seq<nat>, now: seq<Effect>)
    requires n + 1 < |run| && StepRefines(run, LogicalView(run), n)
    requires Legal(m, now) && Outcome(m, now) == Logical(run[n].sh)
    ensures Legal(m, now + CommitAt(run, n)) && Outcome(m, now + CommitAt(run, n)) == Logical(run[n + 1].sh)
  {
    hide Legal;
    hide Outcome;
    hide Logical;
    hide Matches;
    hide Swapped;
    var commits := CommitAt(run, n);
    CommitProper(run, n);
    if commits == [] {
      assert now + commits == now;
    } else {
      var e := commits[0];
      assert commits == [e] && Proper(run, e);
      AtomicIsSwap(Logical(run[n].sh), Logical(run[n + 1].sh), e.words);
      LegalMore(m, now, e);
    }
  }

  lemma LegalStep(cfg: Config, run: seq<World>, n: nat)
    requires n + 1 < |run| && StepRefines(run, LogicalView(run), n) && LegalAt(run, n)
    ensures LegalAt(run, n + 1)
  {
    hide FailuresAt;
    hide CommitAt;
    hide StepRefines;
    hide Legal;
    hide Outcome;
    hide Logical;
    var m, now := Logical(run[0].sh), Effects(run, n) + FailuresAt(run, n);
    FailuresMiss(run, n);
    FailuresLegal(m, Effects(run, n), FailuresAt(run, n));
    CommitLegal(cfg, run, n, m, now);
    assert Effects(run, n + 1) == now + CommitAt(run, n);
  }

  lemma {:induction false} EffectsLegal(cfg: Config, run: seq<World>, n: nat)
    requires Run(cfg, run) && Refines(run) && n < |run|
    ensures LegalAt(run, n)
    decreases n
  {
    hide LegalAt;
    hide StepRefines;
    if n == 0 {
      NothingYet(run);
    } else {
      EffectsLegal(cfg, run, n - 1);
      assert StepRefines(run, LogicalView(run), n - 1);
      LegalStep(cfg, run, n - 1);
    }
  }

  lemma NothingYet(run: seq<World>)
    requires run != []
    ensures LegalAt(run, 0)
  {
  }

  // ---------------------------------------------------------- its entries

  lemma FailedFails(cfg: Config, run: seq<World>, op: OpId)
    requires Run(cfg, run) && Failed(Last(run), op)
    ensures FailsAt(run, PointOf(run, op), op) && PointOf(run, op) < |run| - 1
    ensures Last(run).hist.results[op] == ValueWasNotExpectedValue
  {
    var last := |run| - 1;
    ResultRecorded(cfg, run, last, op);
    var c := AbortOf(cfg, run, last, op);
    var m, x := AbortsAreJustified(cfg, run, c, op);
    UnexpectedReads(cfg, run, m, op, x);
    LiveWords(cfg, run, m, op);
    WordsStay(cfg, run, m, last, op);
    assert FailsAt(run, m, op);
    FinishedAfter(cfg, run, last, op);
  }

  ghost predicate Entered(history: seq<Effect>, op: OpId, words: seq<KWord>, ok: bool) {
    exists i :: 0 <= i < |history| && history[i].op == op && history[i].words == words && history[i].ok == ok
  }

  lemma CommittedEntered(cfg: Config, run: seq<World>, op: OpId)
    requires Run(cfg, run) && op in Last(run).hist.committed
    ensures Entered(Effects(run, |run| - 1), op, WordsOf(Last(run), op), true)
  {
    var last := |run| - 1;
    var c := CommitOf(cfg, run, last, op);
    LiveWords(cfg, run, c, op);
    WordsStay(cfg, run, c, last, op);
    var e := Effect(op, WordsOf(run[c], op), true, c);
    assert Proper(run, e);
    EffectsComplete(cfg, run, last, e);
  }

  // Every completed call is an entry, as a success or a failure.
  lemma CompletedEntered(cfg: Config, run: seq<World>, op: OpId)
    requires Run(cfg, run) && op in Last(run).hist.results
    ensures Entered(Effects(run, |run| - 1), op, WordsOf(Last(run), op), Last(run).hist.results[op] == Ok)
  {
    var last := |run| - 1;
    ResultRecorded(cfg, run, last, op);
    if Last(run).hist.results[op] == Ok {
      CommittedEntered(cfg, run, op);
    } else {
      FailedFails(cfg, run, op);
      var e := Effect(op, WordsOf(Last(run), op), false, PointOf(run, op));
      assert Proper(run, e);
      EffectsComplete(cfg, run, last, e);
    }
  }

  // An entry's operation is claiming in the state where it takes effect.
  lemma EffectIsLive(cfg: Config, run: seq<World>, e: Effect)
    requires Run(cfg, run) && Proper(run, e)
    ensures e.at < |run| && InStage(run[e.at], e.op, Claiming)
  {
    if !e.ok { FailedFails(cfg, run, e.op); }
  }

  // A call that had returned in a state in which another one had not begun took effect
  // earlier.
  lemma EffectsInOrder(cfg: Config, run: seq<World>, e: Effect, f: Effect, r: nat)
    requires Run(cfg, run) && Proper(run, e) && Proper(run, f) && r < |run|
    requires e.op in run[r].hist.results && f.op !in run[r].hist.began
    ensures e.at < f.at
  {
    EffectIsLive(cfg, run, e);
    EffectIsLive(cfg, run, f);
    FinishedAfter(cfg, run, r, e.op);
    if r <= e.at { SlotsAdvance(cfg, run, r, e.at, e.op.slot); }
    if f.at <= r {
      StartedForever(cfg, run, f.at, r, f.op);
      StartedBegan(cfg, run, r, f.op);
    }
  }

  // ------------------------------------------------------------- the theorem

  // The calls of the run in one order.
  ghost predicate HistoryOf(run: seq<World>, history: seq<Effect>)
    requires run != []
  {
    && Legal(Logical(run[0].sh), history) && Outcome(Logical(run[0].sh), history) == Logical(Last(run).sh)
    && (forall i, j :: 0 <= i < j < |history| ==> history[i].op != history[j].op)
    && (forall i :: 0 <= i < |history| ==> EntryOf(Last(run), history[i]))
    && (forall op :: op in Last(run).hist.committed ==> Entered(history, op, WordsOf(Last(run), op), true))
    && (forall op :: op in Last(run).hist.results
          ==> Entered(history, op, WordsOf(Last(run), op), Last(run).hist.results[op] == Ok))
  }

  // A success has committed; a failure has returned ValueWasNotExpectedValue.
  ghost predicate EntryOf(w: World, e: Effect) {
    && e.words == WordsOf(w, e.op)
    && if e.ok then e.op in w.hist.committed
       else e.op in w.hist.results && w.hist.results[e.op] == ValueWasNotExpectedValue
  }

  // Calls that do not overlap keep their order.
  ghost predicate InRealTime(run: seq<World>, history: seq<Effect>) {
    forall i, j, r ::
      (0 <= i < |history| && 0 <= j < |history| && 0 <= r < |run|
       && history[i].op in run[r].hist.results && history[j].op !in run[r].hist.began)
      ==> i < j
  }

  lemma EntryIsOf(cfg: Config, run: seq<World>, e: Effect)
    requires Run(cfg, run) && Proper(run, e)
    ensures EntryOf(Last(run), e)
  {
    var last := |run| - 1;
    if e.ok {
      CommitIsNew(cfg, run, e.at, e.op);
      CommittedStays(cfg, run, e.at + 1, last);
      LiveWords(cfg, run, e.at, e.op);
      WordsStay(cfg, run, e.at, last, e.op);
    } else {
      FailedFails(cfg, run, e.op);
    }
  }

  // All completed calls of a run that refines the atomic object, successful and failed,
  // form one sequential history that keeps the order of calls in real time.
  lemma OneHistory(cfg: Config, run: seq<World>) returns (history: seq<Effect>)
    requires Run(cfg, run) && Refines(run)
    ensures HistoryOf(run, history) && InRealTime(run, history)
  {
    hide Legal;
    hide Proper;
    hide Refines;
    hide Effects;
    hide Entered;
    hide EntryOf;
    var last := |run| - 1;
    history := Effects(run, last);
    assert Legal(Logical(run[0].sh), history) && Outcome(Logical(run[0].sh), history) == Logical(Last(run).sh) by {
      EffectsLegal(cfg, run, last);
    }
    EffectsSorted(cfg, run, last);
    forall i | 0 <= i < |history| ensures EntryOf(Last(run), history[i]) {
      EntryIsOf(cfg, run, history[i]);
    }
    forall op | op in Last(run).hist.committed ensures Entered(history, op, WordsOf(Last(run), op), true) {
      CommittedEntered(cfg, run, op);
    }
    forall op | op in Last(run).hist.results
      ensures Entered(history, op, WordsOf(Last(run), op), Last(run).hist.results[op] == Ok)
    {
      CompletedEntered(cfg, run, op);
    }
    EffectsInRealTime(cfg, run, history, last);
  }

  lemma EffectsInRealTime(cfg: Config, run: seq<World>, history: seq<Effect>, n: nat)
    requires Run(cfg, run) && Sorted(history) && AllProper(run, history, 0, n)
    ensures InRealTime(run, history)
  {
    hide Proper;
    forall i, j, r | 0 <= i < |history| && 0 <= j < |history| && 0 <= r < |run|
                     && history[i].op in run[r].hist.results && history[j].op !in run[r].hist.began
      ensures i < j
    {
      EffectsInOrder(cfg, run, history[i], history[j], r);
    }
  }

  // So do the calls of every run that keeps the promises.
  lemma PromisesGiveHistory(cfg: Config, run: seq<World>) returns (history: seq<Effect>)
    requires cfg.stable && cfg.mono && Run(cfg, run)
    ensures HistoryOf(run, history) && InRealTime(run, history)
  {
    PromisesRefine(cfg, run);
    history := OneHistory(cfg, run);
  }
}
