/**
 * What the sealed evaluation records of its executions: every stored, journalled and scored outcome is the outcome of
 * the very step that executed the case; and an undisturbed run and score end with all of them.
 */
module SealedOutcomes {
  import opened Prelude
  import opened SealedRun

  // ---------------------------------------------------------------------------------------------
  // Outcomes
  // ---------------------------------------------------------------------------------------------

  /** The execution this step performs: the owner's next case, with the outcome the step met. */
  function Did(w: World, s: Step): seq<CaseResult> {
    if s.Own? && s.p in w.live && w.live[s.p].Owner? && w.live[s.p].phase.Executing?
       && |w.live[s.p].results| < |w.live[s.p].document.cases|
    then [CaseResult(w.live[s.p].document.cases[|w.live[s.p].results|], s.outcome)]
    else []
  }

  /** Everything executed in a history, read off its steps. */
  function Executions(steps: seq<Step>): seq<CaseResult> {
    if steps == [] then []
    else Executions(steps[..|steps| - 1]) + Did(Exec(steps[..|steps| - 1]), steps[|steps| - 1])
  }

  /** The results in the journal's CASE_COMPLETED lines, in order. */
  function Reported(events: seq<Event>): seq<CaseResult> {
    if events == [] then []
    else
      var last := events[|events| - 1];
      Reported(events[..|events| - 1]) + (if last.CaseCompleted? then [last.result] else [])
  }

  function ReportedIn(w: World): seq<CaseResult> { if w.journal.Some? then Reported(w.journal.value) else [] }

  ghost predicate OwnerTrue(w: World, results: seq<CaseResult>, phase: Phase, done: seq<CaseResult>) {
    var n := |results|;
    && (if phase.Storing? then done == results + [phase.result] else done == results)
    && (if phase.Logging? then n > 0 && results[n - 1] == phase.result && ReportedIn(w) == results[..n - 1]
        else ReportedIn(w) == results)
  }

  ghost predicate ProcessTrue(w: World, x: Process, done: seq<CaseResult>) {
    match x
    case Owner(_, results, phase) => OwnerTrue(w, results, phase, done)
    case Scoring(results) => results <= done
    case _ => true
  }

  /** Everything on record is a prefix of what was executed. */
  ghost predicate RecordsTrue(w: World, done: seq<CaseResult>) {
    && Ids(done) == w.executed
    && (w.raw.Some? ==> w.raw.value.results <= done)
    && ReportedIn(w) <= done
    && (w.scored.Some? ==> w.scored.value <= done)
  }

  ghost predicate AllTrue(w: World, done: seq<CaseResult>) {
    RecordsTrue(w, done) && forall p | p in w.live :: ProcessTrue(w, w.live[p], done)
  }

  lemma ReportedAppend(events: seq<Event>, e: Event)
    ensures Reported(events + [e]) == Reported(events) + (if e.CaseCompleted? then [e.result] else [])
  {
    assert (events + [e])[..|events|] == events;
  }

  /** A step of the journal's owner: of the other processes only scorers look at results, and those only grow. */
  lemma OwnerTruth(w: World, w': World, p: Pid, done: seq<CaseResult>, done': seq<CaseResult>)
    requires Inv(w) && AllTrue(w, done) && p in w.live && w.live[p].Owner?
    requires done <= done' && RecordsTrue(w', done')
    requires forall q | q in w'.live && q != p :: q in w.live && w'.live[q] == w.live[q]
    requires p in w'.live ==> ProcessTrue(w', w'.live[p], done')
    ensures AllTrue(w', done')
  {
    forall q | q in w'.live ensures ProcessTrue(w', w'.live[q], done') {
      if q != p {
        assert !w.live[q].Owner? && ProcessTrue(w, w.live[q], done);
      }
    }
  }

  /** The owner appends one line to the journal. */
  lemma LineTruth(w: World, p: Pid, d: Document, results: seq<CaseResult>, phase: Phase, e: Event, next: Phase,
                  done: seq<CaseResult>)
    requires Inv(w) && AllTrue(w, done) && p in w.live && w.live[p] == Owner(d, results, phase) && w.journal.Some?
    requires OwnerTrue(Append(w, e), results, next, done)
    ensures AllTrue(Put(Append(w, e), p, Owner(d, results, next)), done)
  {
    assert ReportedIn(Put(Append(w, e), p, Owner(d, results, next))) == ReportedIn(Append(w, e));
    OwnerTruth(w, Put(Append(w, e), p, Owner(d, results, next)), p, done, done);
  }

  lemma WritingTruth(w: World, p: Pid, d: Document, results: seq<CaseResult>, phase: Phase, done: seq<CaseResult>)
    requires Inv(w) && AllTrue(w, done) && p in w.live && w.live[p] == Owner(d, results, phase)
    requires phase.Opening? || phase.Pacing? || phase.Paced? || phase.Starting?
    ensures AllTrue(OwnerStep(w, p, d, results, phase, 0), done)
  {
    assert LiveOk(w, p) && ProcessTrue(w, w.live[p], done);
    var n := |results|;
    if phase.Opening? {
      ReportedAppend(w.journal.value, RunStarted(d));
      LineTruth(w, p, d, results, phase, RunStarted(d), Initializing, done);
    } else if n < |d.cases| {
      var e :=
        if phase.Pacing? then PacingStarted(d.cases[n])
        else if phase.Paced? then PacingCompleted(d.cases[n])
        else CaseStarted(d.cases[n]);
      ReportedAppend(w.journal.value, e);
      LineTruth(w, p, d, results, phase, e,
                if phase.Pacing? then Paced else if phase.Paced? then Starting else Executing, done);
    }
  }

  lemma LoggingTruth(w: World, p: Pid, d: Document, results: seq<CaseResult>, r: CaseResult, done: seq<CaseResult>)
    requires Inv(w) && AllTrue(w, done) && p in w.live && w.live[p] == Owner(d, results, Logging(r))
    ensures AllTrue(OwnerStep(w, p, d, results, Logging(r), 0), done)
  {
    assert LiveOk(w, p) && ProcessTrue(w, w.live[p], done);
    ReportedAppend(w.journal.value, CaseCompleted(r));
    assert results[..|results| - 1] + [r] == results;
    LineTruth(w, p, d, results, Logging(r), CaseCompleted(r),
              if |results| < |d.cases| then Pacing else Completing, done);
  }

  lemma ClosingTruth(w: World, p: Pid, d: Document, results: seq<CaseResult>, done: seq<CaseResult>)
    requires Inv(w) && AllTrue(w, done) && p in w.live && w.live[p] == Owner(d, results, Closing)
    ensures AllTrue(OwnerStep(w, p, d, results, Closing, 0), done)
  {
    assert LiveOk(w, p) && ProcessTrue(w, w.live[p], done);
    ReportedAppend(w.journal.value, RunCompleted(|results|));
    OwnerTruth(w, OwnerStep(w, p, d, results, Closing, 0), p, done, done);
  }

  lemma ExecutingTruth(w: World, p: Pid, d: Document, results: seq<CaseResult>, outcome: int, done: seq<CaseResult>)
    requires Inv(w) && AllTrue(w, done) && p in w.live && w.live[p] == Owner(d, results, Executing)
    ensures AllTrue(OwnerStep(w, p, d, results, Executing, outcome), done + Did(w, Own(p, outcome)))
  {
    assert LiveOk(w, p) && ProcessTrue(w, w.live[p], done);
    if |results| < |d.cases| {
      IdsAppend(done, CaseResult(d.cases[|results|], outcome));
      OwnerTruth(w, OwnerStep(w, p, d, results, Executing, outcome), p, done, done + Did(w, Own(p, outcome)));
    }
  }

  lemma StoringTruth(w: World, p: Pid, d: Document, results: seq<CaseResult>, phase: Phase, done: seq<CaseResult>)
    requires Inv(w) && AllTrue(w, done) && p in w.live && w.live[p] == Owner(d, results, phase)
    requires phase.Initializing? || phase.Storing? || phase.Completing?
    ensures AllTrue(OwnerStep(w, p, d, results, phase, 0), done)
  {
    assert LiveOk(w, p) && ProcessTrue(w, w.live[p], done);
    assert phase.Storing? ==> (results + [phase.result])[..|results|] == results;
    OwnerTruth(w, OwnerStep(w, p, d, results, phase, 0), p, done, done);
  }

  lemma OwnTruth(w: World, s: Step, done: seq<CaseResult>)
    requires Inv(w) && AllTrue(w, done) && s.Own? && s.p in w.live && w.live[s.p].Owner?
    ensures AllTrue(Next(w, s), done + Did(w, s))
  {
    var d, results, phase := w.live[s.p].document, w.live[s.p].results, w.live[s.p].phase;
    if phase.Executing? {
      ExecutingTruth(w, s.p, d, results, s.outcome, done);
    } else {
      assert done + Did(w, s) == done;
      if phase.Initializing? || phase.Storing? || phase.Completing? {
        StoringTruth(w, s.p, d, results, phase, done);
      } else if phase.Logging? {
        LoggingTruth(w, s.p, d, results, phase.result, done);
      } else if phase.Closing? {
        ClosingTruth(w, s.p, d, results, done);
      } else {
        WritingTruth(w, s.p, d, results, phase, done);
      }
    }
  }

  /** A step that changes neither journal, raw file nor executions; a scorer takes its list from the raw file. */
  lemma OtherTruth(w: World, s: Step, done: seq<CaseResult>)
    requires Inv(w) && AllTrue(w, done) && !(s.Own? && s.p in w.live && w.live[s.p].Owner?) && !s.CreateJournal?
    ensures AllTrue(Next(w, s), done)
  {
    var v := Next(w, s);
    assert s.p in w.live ==> ProcessTrue(w, w.live[s.p], done);
    OthersRecord(w, s);
    OnlyOneMoves(w, s);
    MoverTruth(w, s, done);
    forall q | q in v.live ensures ProcessTrue(v, v.live[q], done) {
      if q != s.p {
        assert ProcessTrue(w, w.live[q], done);
      }
    }
  }

  lemma OthersRecord(w: World, s: Step)
    requires !(s.Own? && s.p in w.live && w.live[s.p].Owner?) && !s.CreateJournal?
    ensures var v := Next(w, s);
            && v.journal == w.journal && v.raw == w.raw && v.executed == w.executed
            && (v.scored == w.scored
                || (s.p in w.live && w.live[s.p].Scoring? && v.scored == Some(w.live[s.p].results)))
  {
  }

  lemma MoverTruth(w: World, s: Step, done: seq<CaseResult>)
    requires Inv(w) && AllTrue(w, done) && !(s.Own? && s.p in w.live && w.live[s.p].Owner?) && !s.CreateJournal?
    ensures s.p in Next(w, s).live ==> ProcessTrue(Next(w, s), Next(w, s).live[s.p], done)
  {
    assert s.p in w.live ==> ProcessTrue(w, w.live[s.p], done) && LiveOk(w, s.p);
    if s.CheckRaw? && s.p in w.live && w.live[s.p].ScorePrepared? {
      CheckedTruth(w, s.p, done);
    } else {
      PlainMover(w, s);
    }
  }

  lemma PlainMover(w: World, s: Step)
    requires !(s.Own? && s.p in w.live && w.live[s.p].Owner?) && !s.CreateJournal?
    requires !(s.CheckRaw? && s.p in w.live && w.live[s.p].ScorePrepared?)
    ensures var v := Next(w, s);
            s.p in v.live ==>
              (s.p in w.live && v.live[s.p] == w.live[s.p]) || (!v.live[s.p].Owner? && !v.live[s.p].Scoring?)
    ensures Next(w, s).journal == w.journal
  {
  }

  lemma CheckedTruth(w: World, p: Pid, done: seq<CaseResult>)
    requires Inv(w) && RecordsTrue(w, done) && p in w.live && w.live[p].ScorePrepared?
    ensures var v := Next(w, CheckRaw(p)); p in v.live ==> ProcessTrue(v, v.live[p], done)
  {
    var d := w.live[p].document;
    if w.raw.Some? && w.raw.value.completed && w.raw.value.document == d {
      CompleteRawScores(w, d);
    }
  }

  /** The seal: the journal is created empty, before anything was executed. */
  lemma SealTruth(w: World, s: Step, done: seq<CaseResult>)
    requires Inv(w) && AllTrue(w, done) && s.CreateJournal?
    ensures AllTrue(Next(w, s), done)
  {
    var v := Next(w, s);
    OnlyOneMoves(w, s);
    if w.journal.None? {
      NothingBeforeSeal(w, done);
    }
    forall q | q in v.live ensures ProcessTrue(v, v.live[q], done) {
      if q in w.live {
        assert ProcessTrue(w, w.live[q], done) && LiveOk(w, q);
      }
    }
  }

  lemma NothingBeforeSeal(w: World, done: seq<CaseResult>)
    requires Inv(w) && RecordsTrue(w, done) && w.journal.None?
    ensures done == [] && w.raw.None? && w.scored.None?
    ensures forall q | q in w.live :: !w.live[q].Owner?
  {
    assert |Ids(done)| == |done|;
    forall q | q in w.live ensures !w.live[q].Owner? {
      assert LiveOk(w, q);
    }
  }

  lemma NextTruth(w: World, s: Step, done: seq<CaseResult>)
    requires Inv(w) && AllTrue(w, done)
    ensures AllTrue(Next(w, s), done + Did(w, s))
  {
    if s.Own? && s.p in w.live && w.live[s.p].Owner? {
      OwnTruth(w, s, done);
    } else {
      assert done + Did(w, s) == done;
      if s.CreateJournal? {
        SealTruth(w, s, done);
      } else {
        OtherTruth(w, s, done);
      }
    }
  }

  lemma {:induction false} EveryRecordIsTrue(steps: seq<Step>)
    ensures AllTrue(Exec(steps), Executions(steps))
  {
    if steps != [] {
      var front := steps[..|steps| - 1];
      EveryRecordIsTrue(front);
      EveryInterleaving(front);
      NextTruth(Exec(front), steps[|steps| - 1], Executions(front));
    }
  }

  /**
   * After every interleaving and every crash: stored result `k`, and the `k`-th CASE_COMPLETED line, carry the outcome
   * of the very step that executed case `k`; and a scored list is exactly what was executed.
   */
  lemma OutcomesAreRecorded(steps: seq<Step>)
    ensures var w := Exec(steps);
            && Ids(Executions(steps)) == w.executed
            && (w.raw.Some? ==> w.raw.value.results <= Executions(steps))
            && ReportedIn(w) <= Executions(steps)
            && (w.scored.Some? ==> w.scored.value == Executions(steps))
  {
    EveryRecordIsTrue(steps);
    var w, done := Exec(steps), Executions(steps);
    if w.scored.Some? {
      ScoresAreComplete(steps);
      assert |Ids(done)| == |done| && |Ids(w.scored.value)| == |w.scored.value|;
      assert done[..|done|] == done;
    }
  }

  // ---------------------------------------------------------------------------------------------
  // An undisturbed evaluation completes
  // ---------------------------------------------------------------------------------------------

  /** The declared cases with the outcomes their executions meet. */
  function Expected(d: Document, outcomes: seq<int>): seq<CaseResult>
    requires |outcomes| == |d.cases|
  {
    seq(|d.cases|, i requires 0 <= i < |d.cases| => CaseResult(d.cases[i], outcomes[i]))
  }

  ghost predicate OwnerAt(w: World, p: Pid, d: Document, results: seq<CaseResult>, phase: Phase) {
    p in w.live && w.live[p] == Owner(d, results, phase)
  }

  /** What process `p` leaves alone while it owns the journal. */
  ghost predicate Frame(w: World, v: World, p: Pid) {
    v.public == w.public && v.metadata == w.metadata && v.scored == w.scored && v.summary == w.summary
    && v.live - {p} == w.live - {p}
  }

  lemma {:induction false} ContinueTwice(w: World, a: seq<Step>, b: seq<Step>)
    ensures Continue(w, a + b) == Continue(Continue(w, a), b)
    decreases |b|
  {
    if b == [] {
      assert a + b == a;
    } else {
      ContinueTwice(w, a, b[..|b| - 1]);
      assert (a + b)[..|a + b| - 1] == a + b[..|b| - 1];
    }
  }

  lemma OneMore(w: World, steps: seq<Step>, s: Step)
    ensures Continue(w, steps + [s]) == Next(Continue(w, steps), s)
  {
    assert (steps + [s])[..|steps|] == steps;
  }

  lemma WritesLine(w: World, p: Pid, d: Document, results: seq<CaseResult>, phase: Phase, outcome: int)
    requires OwnerAt(w, p, d, results, phase) && |results| < |d.cases|
    requires phase.Opening? || phase.Pacing? || phase.Paced? || phase.Starting?
    ensures var v := Next(w, Own(p, outcome));
            && Frame(w, v, p)
            && OwnerAt(v, p, d, results,
                       match phase
                       case Opening => Initializing
                       case Pacing => Paced
                       case Paced => Starting
                       case _ => Executing)
  {
  }

  lemma ExecutesCase(w: World, p: Pid, d: Document, results: seq<CaseResult>, outcome: int)
    requires OwnerAt(w, p, d, results, Executing) && |results| < |d.cases|
    ensures var v := Next(w, Own(p, outcome));
            Frame(w, v, p) && OwnerAt(v, p, d, results, Storing(CaseResult(d.cases[|results|], outcome)))
  {
  }

  lemma StoresCase(w: World, p: Pid, d: Document, results: seq<CaseResult>, r: CaseResult, outcome: int)
    requires OwnerAt(w, p, d, results, Storing(r))
    ensures var v := Next(w, Own(p, outcome)); Frame(w, v, p) && OwnerAt(v, p, d, results + [r], Logging(r))
  {
  }

  lemma LogsCase(w: World, p: Pid, d: Document, results: seq<CaseResult>, r: CaseResult, outcome: int)
    requires OwnerAt(w, p, d, results, Logging(r))
    ensures var v := Next(w, Own(p, outcome));
            Frame(w, v, p) && OwnerAt(v, p, d, results, if |results| < |d.cases| then Pacing else Completing)
  {
  }

  /** Four owner steps execute, store and log the next case. */
  lemma OneCase(w: World, p: Pid, d: Document, results: seq<CaseResult>, outcome: int) returns (steps: seq<Step>)
    requires OwnerAt(w, p, d, results, Starting) && |results| < |d.cases|
    ensures var v := Continue(w, steps);
            var more := results + [CaseResult(d.cases[|results|], outcome)];
            Frame(w, v, p) && OwnerAt(v, p, d, more, if |more| < |d.cases| then Pacing else Completing)
  {
    var s, r := Own(p, outcome), CaseResult(d.cases[|results|], outcome);
    assert Continue(w, []) == w;
    OneMore(w, [], s);
    OneMore(w, [] + [s], s);
    OneMore(w, [] + [s] + [s], s);
    OneMore(w, [] + [s] + [s] + [s], s);
    var w1 := Next(w, s);
    WritesLine(w, p, d, results, Starting, outcome);
    var w2 := Next(w1, s);
    ExecutesCase(w1, p, d, results, outcome);
    var w3 := Next(w2, s);
    StoresCase(w2, p, d, results, r, outcome);
    LogsCase(w3, p, d, results + [r], r, outcome);
    steps := [] + [s] + [s] + [s] + [s];
  }

  lemma {:induction false} CasesComplete(w: World, p: Pid, d: Document, results: seq<CaseResult>, outcomes: seq<int>)
      returns (steps: seq<Step>)
    requires |outcomes| == |d.cases| && |results| < |d.cases| && results == Expected(d, outcomes)[..|results|]
    requires OwnerAt(w, p, d, results, Starting)
    ensures Frame(w, Continue(w, steps), p) && OwnerAt(Continue(w, steps), p, d, Expected(d, outcomes), Completing)
    decreases |d.cases| - |results|
  {
    var n := |results|;
    var more := results + [CaseResult(d.cases[n], outcomes[n])];
    assert more == Expected(d, outcomes)[..n + 1];
    steps := OneCase(w, p, d, results, outcomes[n]);
    if n + 1 == |d.cases| {
      assert more == Expected(d, outcomes);
    } else {
      var s := Own(p, 0);
      var v := Continue(w, steps);
      OneMore(w, steps, s);
      WritesLine(v, p, d, more, Pacing, 0);
      OneMore(w, steps + [s], s);
      WritesLine(Next(v, s), p, d, more, Paced, 0);
      var paced := steps + [s] + [s];
      var rest := CasesComplete(Continue(w, paced), p, d, more, outcomes);
      ContinueTwice(w, paced, rest);
      steps := paced + rest;
    }
  }

  lemma Initializes(w: World, p: Pid, d: Document)
    requires OwnerAt(w, p, d, [], Initializing) && d.cases != []
    ensures var v := Next(w, Own(p, 0)); Frame(w, v, p) && OwnerAt(v, p, d, [], Starting)
  {
  }

  lemma Closes(w: World, p: Pid, d: Document, results: seq<CaseResult>)
    requires OwnerAt(w, p, d, results, Completing)
    ensures var v := Next(Next(w, Own(p, 0)), Own(p, 0));
            Frame(w, v, p) && p !in v.live && v.raw == Some(Raw(d, true, results))
  {
    var v := Next(w, Own(p, 0));
    assert OwnerAt(v, p, d, results, Closing) && v.raw == Some(Raw(d, true, results));
  }

  lemma Seals(w: World, p: Pid, d: Document)
    requires p in w.live && w.live[p] == RunPrepared(d) && w.journal.None?
    ensures var v := Next(w, CreateJournal(p)); Frame(w, v, p) && OwnerAt(v, p, d, [], Opening)
  {
  }

  /** A RUN that passed its checks and is not disturbed stores every case's outcome and completes. */
  lemma RunCompletes(w: World, p: Pid, d: Document, outcomes: seq<int>) returns (steps: seq<Step>)
    requires p in w.live && w.live[p] == RunPrepared(d) && w.journal.None?
    requires d.cases != [] && |outcomes| == |d.cases|
    ensures var v := Continue(w, steps);
            Frame(w, v, p) && p !in v.live && v.raw == Some(Raw(d, true, Expected(d, outcomes)))
  {
    var s := Own(p, 0);
    assert Continue(w, []) == w;
    OneMore(w, [], CreateJournal(p));
    Seals(w, p, d);
    steps := [] + [CreateJournal(p)];
    var w1 := Continue(w, steps);
    OneMore(w, steps, s);
    WritesLine(w1, p, d, [], Opening, 0);
    OneMore(w, steps + [s], s);
    Initializes(Next(w1, s), p, d);
    steps := steps + [s] + [s];
    var rest := CasesComplete(Continue(w, steps), p, d, [], outcomes);
    ContinueTwice(w, steps, rest);
    steps := steps + rest;
    OneMore(w, steps, s);
    OneMore(w, steps + [s], s);
    Closes(Continue(w, steps), p, d, Expected(d, outcomes));
    steps := steps + [s] + [s];
  }

  lemma ScoreLoads(w: World, q: Pid, d: Document)
    requires q !in w.live && w.scored.None? && !w.summary && w.public == Some(d) && w.metadata == Some(d)
    ensures var v := Next(Next(Next(w, StartScore(q)), LoadPublic(q)), CheckMetadata(q));
            v == Put(w, q, ScorePrepared(d))
  {
    var w1 := Put(w, q, ScoreChecked);
    assert Next(w, StartScore(q)) == w1;
    var w2 := Put(w1, q, ScoreLoaded(d));
    assert Next(w1, LoadPublic(q)) == w2;
    assert Put(w2, q, ScorePrepared(d)).live == Put(w, q, ScorePrepared(d)).live;
  }

  lemma SameIds(d: Document, results: seq<CaseResult>)
    requires Ids(results) == d.cases
    ensures (set r | r in results :: r.id) == (set c | c in d.cases)
  {
    assert |results| == |Ids(results)|;
    forall c | c in d.cases ensures c in set r | r in results :: r.id {
      var i :| 0 <= i < |d.cases| && d.cases[i] == c;
      assert Ids(results)[i] == c && results[i] in results;
    }
    forall r | r in results ensures r.id in d.cases {
      var i :| 0 <= i < |results| && results[i] == r;
      assert Ids(results)[i] == r.id;
    }
  }

  lemma AllByCase(d: Document, results: seq<CaseResult>)
    requires DocumentOk(d) && Ids(results) == d.cases
    ensures |results| == |d.cases| && ByCase(d.cases, results) == results
  {
    assert |results| == |Ids(results)|;
    forall a, b | 0 <= a < b < |results| ensures results[a].id != results[b].id {
      assert Ids(results)[a] == d.cases[a] && Ids(results)[b] == d.cases[b];
    }
    ByCaseIsInOrder(results, |results|);
    assert Ids(results)[..|results|] == d.cases && results[..|results|] == results;
  }

  lemma ScoreWrites(w: World, q: Pid, d: Document, results: seq<CaseResult>)
    requires q in w.live && w.live[q] == ScorePrepared(d) && DocumentOk(d)
    requires w.raw == Some(Raw(d, true, results)) && Ids(results) == d.cases
    ensures var v := Next(Next(Next(w, CheckRaw(q)), WriteScored(q)), WriteSummary(q));
            v.scored == Some(results) && v.summary
  {
    SameIds(d, results);
    AllByCase(d, results);
    var w1 := Put(w, q, Scoring(results));
    assert Next(w, CheckRaw(q)) == w1;
    var w2 := Put(w1.(scored := Some(results)), q, ScoredWritten);
    assert Next(w1, WriteScored(q)) == w2;
  }

  lemma Prepares(p: Pid, d: Document)
    requires DocumentOk(d)
    ensures var v := Next(Next(Next(BLANK, StartPrepare(p)), WritePublic(p, d)), WriteMetadata(p));
            v == BLANK.(public := Some(d), metadata := Some(d))
  {
    var w1 := Put(BLANK, p, Preparing);
    assert Next(BLANK, StartPrepare(p)) == w1;
    var w2 := Put(w1.(public := Some(d)), p, PublicWritten(d));
    assert Next(w1, WritePublic(p, d)) == w2;
  }

  lemma RunLoads(p: Pid, d: Document)
    ensures var w := BLANK.(public := Some(d), metadata := Some(d));
            Next(Next(Next(w, StartRun(p)), LoadPublic(p)), CheckMetadata(p)) == Put(w, p, RunPrepared(d))
  {
    var w := BLANK.(public := Some(d), metadata := Some(d));
    var w1 := Put(w, p, RunChecked);
    assert Next(w, StartRun(p)) == w1;
    var w2 := Put(w1, p, RunLoaded(d));
    assert Next(w1, LoadPublic(p)) == w2;
    assert Put(w2, p, RunPrepared(d)).live == Put(w, p, RunPrepared(d)).live;
  }

  lemma ThreeMore(w: World, steps: seq<Step>, a: Step, b: Step, c: Step)
    ensures Continue(w, steps + [a] + [b] + [c]) == Next(Next(Next(Continue(w, steps), a), b), c)
  {
    OneMore(w, steps, a);
    OneMore(w, steps + [a], b);
    OneMore(w, steps + [a] + [b], c);
  }

  lemma PreparesAndLoads(d: Document) returns (steps: seq<Step>)
    requires DocumentOk(d)
    ensures Continue(BLANK, steps) == Put(BLANK.(public := Some(d), metadata := Some(d)), 2, RunPrepared(d))
  {
    assert Continue(BLANK, []) == BLANK;
    ThreeMore(BLANK, [], StartPrepare(1), WritePublic(1, d), WriteMetadata(1));
    Prepares(1, d);
    steps := [] + [StartPrepare(1)] + [WritePublic(1, d)] + [WriteMetadata(1)];
    ThreeMore(BLANK, steps, StartRun(2), LoadPublic(2), CheckMetadata(2));
    RunLoads(2, d);
    steps := steps + [StartRun(2)] + [LoadPublic(2)] + [CheckMetadata(2)];
  }

  /** A SCORE that is not disturbed scores a complete run of the public document. */
  lemma ScoreCompletes(v: World, q: Pid, d: Document, results: seq<CaseResult>) returns (steps: seq<Step>)
    requires q !in v.live && v.scored.None? && !v.summary && v.public == Some(d) && v.metadata == Some(d)
    requires DocumentOk(d) && v.raw == Some(Raw(d, true, results)) && Ids(results) == d.cases
    ensures Continue(v, steps).scored == Some(results) && Continue(v, steps).summary
  {
    assert Continue(v, []) == v;
    ThreeMore(v, [], StartScore(q), LoadPublic(q), CheckMetadata(q));
    ScoreLoads(v, q, d);
    steps := [] + [StartScore(q)] + [LoadPublic(q)] + [CheckMetadata(q)];
    ThreeMore(v, steps, CheckRaw(q), WriteScored(q), WriteSummary(q));
    ScoreWrites(Continue(v, steps), q, d, results);
    steps := steps + [CheckRaw(q)] + [WriteScored(q)] + [WriteSummary(q)];
  }

  /** PREPARE, RUN and SCORE, undisturbed, end with every declared case scored with the outcome its execution met. */
  lemma UndisturbedEvaluationScores(d: Document, outcomes: seq<int>) returns (steps: seq<Step>)
    requires DocumentOk(d) && |outcomes| == |d.cases|
    ensures Exec(steps).scored == Some(Expected(d, outcomes)) && Exec(steps).summary
  {
    var loaded := PreparesAndLoads(d);
    var run := RunCompletes(Continue(BLANK, loaded), 2, d, outcomes);
    ContinueTwice(BLANK, loaded, run);
    assert Ids(Expected(d, outcomes)) == d.cases;
    var v := Continue(BLANK, loaded + run);
    assert 3 !in v.live by {
      assert 3 !in v.live - {2};
    }
    var score := ScoreCompletes(v, 3, d, Expected(d, outcomes));
    ContinueTwice(BLANK, loaded + run, score);
    steps := loaded + run + score;
    ContinueExec([], steps);
    assert [] + steps == steps;
  }
}
