/**
 * The exactly-once evaluation harness of `tools/run_fresh_eval_v1.py`: any number of PREPARE, RUN and SCORE processes
 * over the same files, interleaved step by step, each of which may crash anywhere.
 */
module SealedRun {
  import opened Prelude

  type CaseId = nat
  type Pid = nat

  /** The declared cases. Documents are hashed injectively, so a digest is modelled by the document. */
  datatype Document = Document(cases: seq<CaseId>)

  datatype CaseResult = CaseResult(id: CaseId, outcome: int)

  datatype Raw = Raw(document: Document, completed: bool, results: seq<CaseResult>)

  datatype Event =
    | RunStarted(document: Document)
    | PacingStarted(next: CaseId)
    | PacingCompleted(next: CaseId)
    | CaseStarted(id: CaseId)
    | CaseCompleted(result: CaseResult)
    | RunCompleted(count: nat)

  /** What the owner of the journal does next. `i` counts the cases whose result is in memory. */
  datatype Phase =
    | Opening | Initializing
    | Pacing | Paced | Starting | Executing | Storing(result: CaseResult) | Logging(result: CaseResult)
    | Completing | Closing

  datatype Process =
    | Preparing
    | PublicWritten(document: Document)
    | RunChecked
    | RunLoaded(document: Document)
    | RunPrepared(document: Document)
    | Owner(document: Document, results: seq<CaseResult>, phase: Phase)
    | ScoreChecked
    | ScoreLoaded(document: Document)
    | ScorePrepared(document: Document)
    | Scoring(results: seq<CaseResult>)
    | ScoredWritten

  /** The files, the live processes, and the executions that really happened. */
  datatype World = World(
    public: Option<Document>,
    metadata: Option<Document>,
    journal: Option<seq<Event>>,
    raw: Option<Raw>,
    scored: Option<seq<CaseResult>>,
    summary: bool,
    live: map<Pid, Process>,
    sealed: Option<Document>,
    executed: seq<CaseId>)

  const BLANK := World(None, None, None, None, None, false, map[], None, [])

  datatype Step =
    | StartPrepare(p: Pid) | WritePublic(p: Pid, document: Document) | WriteMetadata(p: Pid)
    | StartRun(p: Pid) | LoadPublic(p: Pid) | CheckMetadata(p: Pid) | CreateJournal(p: Pid)
    | Own(p: Pid, outcome: int)
    | StartScore(p: Pid) | CheckRaw(p: Pid) | WriteScored(p: Pid) | WriteSummary(p: Pid)
    | Crash(p: Pid)

  predicate DocumentOk(d: Document) {
    d.cases != [] && forall i, j :: 0 <= i < j < |d.cases| ==> d.cases[i] != d.cases[j]
  }

  function Ids(rs: seq<CaseResult>): seq<CaseId> { seq(|rs|, i requires 0 <= i < |rs| => rs[i].id) }

  function Put(w: World, p: Pid, x: Process): World { w.(live := w.live[p := x]) }

  function End(w: World, p: Pid): World { w.(live := w.live - {p}) }

  function Append(w: World, e: Event): World {
    w.(journal := Some((if w.journal.Some? then w.journal.value else []) + [e]))
  }

  function Next(w: World, s: Step): World {
    var p := s.p;
    if s.Crash? then End(w, p)
    else if s.StartPrepare? || s.StartRun? || s.StartScore? then
      if p in w.live then w
      else if s.StartScore? then (if w.scored.Some? || w.summary then w else Put(w, p, ScoreChecked))
      else if w.journal.Some? || w.raw.Some? then w
      else Put(w, p, if s.StartPrepare? then Preparing else RunChecked)
    else if p !in w.live then w
    else Work(w, s, w.live[p])
  }

  /** One step of a live process; a step it is not waiting for does nothing. */
  function Work(w: World, s: Step, x: Process): World {
    var p := s.p;
    match (s, x)
    case (WritePublic(_, d), Preparing) =>
      if DocumentOk(d) then Put(w.(public := Some(d)), p, PublicWritten(d)) else End(w, p)
    case (WriteMetadata(_), PublicWritten(d)) => End(w.(metadata := Some(d)), p)
    case (LoadPublic(_), RunChecked) => if w.public.None? then End(w, p) else Put(w, p, RunLoaded(w.public.value))
    case (LoadPublic(_), ScoreChecked) => if w.public.None? then End(w, p) else Put(w, p, ScoreLoaded(w.public.value))
    case (CheckMetadata(_), RunLoaded(d)) => if w.metadata == Some(d) then Put(w, p, RunPrepared(d)) else End(w, p)
    case (CheckMetadata(_), ScoreLoaded(d)) => if w.metadata == Some(d) then Put(w, p, ScorePrepared(d)) else End(w, p)
    case (CreateJournal(_), RunPrepared(d)) =>
      // Exclusive creation: the file exists from here on, even if the first line is never written.
      if w.journal.Some? then End(w, p)
      else Put(w.(journal := Some([]), sealed := Some(d)), p, Owner(d, [], Opening))
    case (Own(_, outcome), Owner(d, results, phase)) => OwnerStep(w, p, d, results, phase, outcome)
    case (CheckRaw(_), ScorePrepared(d)) =>
      if w.raw.None? || !w.raw.value.completed || |w.raw.value.results| != |d.cases| || w.raw.value.document != d
          then End(w, p)
      else if (set r | r in w.raw.value.results :: r.id) != (set c | c in d.cases) then End(w, p)
      else Put(w, p, Scoring(ByCase(d.cases, w.raw.value.results)))
    case (WriteScored(_), Scoring(results)) => Put(w.(scored := Some(results)), p, ScoredWritten)
    case (WriteSummary(_), ScoredWritten) => End(w.(summary := true), p)
    case _ => w
  }

  function Latest(id: CaseId, rs: seq<CaseResult>): Option<CaseResult> {
    if rs == [] then None
    else if rs[|rs| - 1].id == id then Some(rs[|rs| - 1])
    else Latest(id, rs[..|rs| - 1])
  }

  /** The scored list: for each declared case, the raw result recorded under its id. */
  function ByCase(cases: seq<CaseId>, rs: seq<CaseResult>): seq<CaseResult> {
    if cases == [] then []
    else
      var last := Latest(cases[|cases| - 1], rs);
      ByCase(cases[..|cases| - 1], rs) + (if last.Some? then [last.value] else [])
  }

  /** One write of the journal's owner, in the order of `run`. */
  function OwnerStep(w: World, p: Pid, d: Document, results: seq<CaseResult>, phase: Phase, outcome: int): World {
    var i := |results|;
    match phase
    case Opening => Put(Append(w, RunStarted(d)), p, Owner(d, results, Initializing))
    case Initializing => Put(w.(raw := Some(Raw(d, false, []))), p,
        Owner(d, [], if d.cases == [] then Completing else Starting))
    case Pacing => if i >= |d.cases| then w else Put(Append(w, PacingStarted(d.cases[i])), p, Owner(d, results, Paced))
    case Paced => if i >= |d.cases| then w
        else Put(Append(w, PacingCompleted(d.cases[i])), p, Owner(d, results, Starting))
    case Starting => if i >= |d.cases| then w
        else Put(Append(w, CaseStarted(d.cases[i])), p, Owner(d, results, Executing))
    case Executing =>
      if i >= |d.cases| then w
      else Put(w.(executed := w.executed + [d.cases[i]]), p,
          Owner(d, results, Storing(CaseResult(d.cases[i], outcome))))
    case Storing(r) => Put(w.(raw := Some(Raw(d, false, results + [r]))), p, Owner(d, results + [r], Logging(r)))
    case Logging(r) =>
      Put(Append(w, CaseCompleted(r)), p, Owner(d, results, if i < |d.cases| then Pacing else Completing))
    case Completing => Put(w.(raw := Some(Raw(d, true, results))), p, Owner(d, results, Closing))
    case Closing => End(Append(w, RunCompleted(i)), p)
  }

  function Exec(steps: seq<Step>): World {
    if steps == [] then BLANK else Next(Exec(steps[..|steps| - 1]), steps[|steps| - 1])
  }

  // ---------------------------------------------------------------------------------------------
  // The invariant
  // ---------------------------------------------------------------------------------------------

  /** The cases whose CASE_STARTED line is in the journal, in order. */
  function Started(events: seq<Event>): seq<CaseId> {
    if events == [] then []
    else
      var last := events[|events| - 1];
      Started(events[..|events| - 1]) + (if last.CaseStarted? then [last.id] else [])
  }

  function Journaled(w: World): seq<CaseId> { if w.journal.Some? then Started(w.journal.value) else [] }

  /** How many cases have been started, and executed, when the owner is in this phase with `n` results. */
  function StartedIn(phase: Phase, n: nat): nat {
    if phase.Executing? || phase.Storing? then n + 1 else n
  }

  function ExecutedIn(phase: Phase, n: nat): nat { if phase.Storing? then n + 1 else n }

  ghost predicate OwnerOk(w: World, d: Document, results: seq<CaseResult>, phase: Phase) {
    var n := |results|;
    && w.sealed == Some(d)
    && n <= |d.cases| && Ids(results) == d.cases[..n]
    && StartedIn(phase, n) <= |d.cases|
    && Journaled(w) == d.cases[..StartedIn(phase, n)]
    && w.executed == d.cases[..ExecutedIn(phase, n)]
    && (phase.Storing? ==> phase.result.id == d.cases[n])
    && (phase.Opening? || phase.Initializing? ==> n == 0 && w.raw.None?)
    && (phase.Completing? || phase.Closing? ==> n == |d.cases|)
    && (!phase.Opening? && !phase.Initializing? ==>
          w.raw == Some(Raw(d, phase.Closing?, results)))
  }

  ghost predicate LiveOk(w: World, p: Pid) {
    p in w.live ==>
      match w.live[p]
      case PublicWritten(d) => DocumentOk(d)
      case RunLoaded(d) => DocumentOk(d)
      case RunPrepared(d) => DocumentOk(d)
      case ScoreLoaded(d) => DocumentOk(d)
      case ScorePrepared(d) => DocumentOk(d)
      case Owner(d, results, phase) => OwnerOk(w, d, results, phase)
      case Scoring(results) => ScoreOk(w, results)
      case _ => true
  }

  /** A scored list is complete: one result per sealed case, in order, and the raw file holds exactly these. */
  ghost predicate ScoreOk(w: World, results: seq<CaseResult>) {
    && w.sealed.Some? && Ids(results) == w.sealed.value.cases
    && w.raw == Some(Raw(w.sealed.value, true, results))
  }

  ghost predicate FilesOk(w: World) {
    && (w.public.Some? ==> DocumentOk(w.public.value))
    && (w.sealed.Some? <==> w.journal.Some?)
    && (w.sealed.Some? ==> DocumentOk(w.sealed.value))
    && (w.raw.Some? ==>
          && w.sealed == Some(w.raw.value.document)
          && Ids(w.raw.value.results) <= w.sealed.value.cases
          && (w.raw.value.completed ==> Ids(w.raw.value.results) == w.sealed.value.cases))
    && (w.sealed.None? ==> w.executed == [])
    && (w.sealed.Some? ==> w.executed <= Journaled(w) <= w.sealed.value.cases && |Journaled(w)| <= |w.executed| + 1)
    && (w.scored.Some? ==> ScoreOk(w, w.scored.value))
    && (w.raw.Some? ==> |w.executed| <= |w.raw.value.results| + 1 && |w.raw.value.results| <= |w.executed|)
  }

  ghost predicate OneOwner(w: World) {
    forall p, q :: p in w.live && q in w.live && w.live[p].Owner? && w.live[q].Owner? ==> p == q
  }

  ghost predicate Inv(w: World) {
    FilesOk(w) && OneOwner(w) && forall p :: LiveOk(w, p)
  }

  lemma StartedAppend(events: seq<Event>, e: Event)
    ensures Started(events + [e]) == Started(events) + (if e.CaseStarted? then [e.id] else [])
  {
    assert (events + [e])[..|events|] == events;
  }

  lemma IdsAppend(rs: seq<CaseResult>, r: CaseResult)
    ensures Ids(rs + [r]) == Ids(rs) + [r.id]
  {
  }

  /** The world after an owner's write keeps everybody else's view: only owners and scorers look at what it wrote. */
  lemma OwnerWriteKeeps(w: World, w': World, p: Pid)
    requires Inv(w) && p in w.live && w.live[p].Owner?
    requires w.raw.Some? && w.raw.value.completed ==> w'.raw == w.raw
    requires w'.sealed == w.sealed && w'.scored == w.scored && w'.public == w.public
    requires w'.live.Keys <= w.live.Keys + {p}
    requires forall q | q in w'.live && q != p :: q in w.live && w'.live[q] == w.live[q]
    requires FilesOk(w') && LiveOk(w', p)
    requires p in w'.live ==> w'.live[p].Owner?
    ensures Inv(w')
  {
    forall q ensures LiveOk(w', q) {
      assert LiveOk(w, q);
      if q in w'.live && q != p {
        assert !w.live[q].Owner?;
      }
    }
  }

  /** A line that starts no case changes nothing but the journal and the owner's phase. */
  lemma LineKeeps(w: World, p: Pid, d: Document, results: seq<CaseResult>, phase: Phase, e: Event, next: Phase)
    requires Inv(w) && p in w.live && w.live[p] == Owner(d, results, phase) && !e.CaseStarted?
    requires OwnerOk(Append(w, e), d, results, next)
    ensures Inv(Put(Append(w, e), p, Owner(d, results, next)))
  {
    assert LiveOk(w, p);
    StartedAppend(w.journal.value, e);
    OwnerWriteKeeps(w, Put(Append(w, e), p, Owner(d, results, next)), p);
  }

  lemma LoggingKeeps(w: World, p: Pid, d: Document, results: seq<CaseResult>, r: CaseResult)
    requires Inv(w) && p in w.live && w.live[p] == Owner(d, results, Logging(r))
    ensures Inv(OwnerStep(w, p, d, results, Logging(r), 0))
  {
    assert LiveOk(w, p);
    StartedAppend(w.journal.value, CaseCompleted(r));
    LineKeeps(w, p, d, results, Logging(r), CaseCompleted(r), if |results| < |d.cases| then Pacing else Completing);
  }

  lemma PacingKeeps(w: World, p: Pid, d: Document, results: seq<CaseResult>, phase: Phase)
    requires Inv(w) && p in w.live && w.live[p] == Owner(d, results, phase) && (phase.Pacing? || phase.Paced?)
    ensures Inv(OwnerStep(w, p, d, results, phase, 0))
  {
    assert LiveOk(w, p);
    var n := |results|;
    if n < |d.cases| {
      var e := if phase.Pacing? then PacingStarted(d.cases[n]) else PacingCompleted(d.cases[n]);
      StartedAppend(w.journal.value, e);
      LineKeeps(w, p, d, results, phase, e, if phase.Pacing? then Paced else Starting);
    }
  }

  lemma EndsKeep(w: World, p: Pid, d: Document, results: seq<CaseResult>, phase: Phase)
    requires Inv(w) && p in w.live && w.live[p] == Owner(d, results, phase)
    requires phase.Opening? || phase.Closing?
    ensures Inv(OwnerStep(w, p, d, results, phase, 0))
  {
    assert LiveOk(w, p);
    StartedAppend(w.journal.value, if phase.Opening? then RunStarted(d) else RunCompleted(|results|));
    OwnerWriteKeeps(w, OwnerStep(w, p, d, results, phase, 0), p);
  }

  lemma StartingKeeps(w: World, p: Pid, d: Document, results: seq<CaseResult>)
    requires Inv(w) && p in w.live && w.live[p] == Owner(d, results, Starting)
    ensures Inv(OwnerStep(w, p, d, results, Starting, 0))
  {
    assert LiveOk(w, p);
    var n := |results|;
    if n < |d.cases| {
      StartedAppend(w.journal.value, CaseStarted(d.cases[n]));
      assert d.cases[..n] + [d.cases[n]] == d.cases[..n + 1];
    }
    OwnerWriteKeeps(w, OwnerStep(w, p, d, results, Starting, 0), p);
  }

  lemma ExecutingKeeps(w: World, p: Pid, d: Document, results: seq<CaseResult>, outcome: int)
    requires Inv(w) && p in w.live && w.live[p] == Owner(d, results, Executing)
    ensures Inv(OwnerStep(w, p, d, results, Executing, outcome))
  {
    assert LiveOk(w, p);
    var n := |results|;
    assert d.cases[..n] + [d.cases[n]] == d.cases[..n + 1];
    OwnerWriteKeeps(w, OwnerStep(w, p, d, results, Executing, outcome), p);
  }

  lemma StoringKeeps(w: World, p: Pid, d: Document, results: seq<CaseResult>, phase: Phase)
    requires Inv(w) && p in w.live && w.live[p] == Owner(d, results, phase)
    requires phase.Initializing? || phase.Storing? || phase.Completing?
    ensures Inv(OwnerStep(w, p, d, results, phase, 0))
  {
    assert LiveOk(w, p);
    var n := |results|;
    if phase.Storing? {
      IdsAppend(results, phase.result);
      assert d.cases[..n] + [d.cases[n]] == d.cases[..n + 1];
    } else {
      assert d.cases[..|d.cases|] == d.cases;
    }
    OwnerWriteKeeps(w, OwnerStep(w, p, d, results, phase, 0), p);
  }

  lemma OwnerKeeps(w: World, p: Pid, outcome: int)
    requires Inv(w) && p in w.live && w.live[p].Owner?
    ensures Inv(OwnerStep(w, p, w.live[p].document, w.live[p].results, w.live[p].phase, outcome))
  {
    var d, results, phase := w.live[p].document, w.live[p].results, w.live[p].phase;
    if phase.Starting? {
      StartingKeeps(w, p, d, results);
    } else if phase.Executing? {
      ExecutingKeeps(w, p, d, results, outcome);
    } else if phase.Initializing? || phase.Storing? || phase.Completing? {
      StoringKeeps(w, p, d, results, phase);
    } else if phase.Opening? || phase.Closing? {
      EndsKeep(w, p, d, results, phase);
    } else if phase.Logging? {
      LoggingKeeps(w, p, d, results, phase.result);
    } else {
      PacingKeeps(w, p, d, results, phase);
    }
  }

  lemma {:induction false} LatestInPlace(rs: seq<CaseResult>, i: nat)
    requires i < |rs| && forall a, b :: 0 <= a < b < |rs| ==> rs[a].id != rs[b].id
    ensures Latest(rs[i].id, rs) == Some(rs[i])
  {
    if i < |rs| - 1 {
      LatestInPlace(rs[..|rs| - 1], i);
    }
  }

  lemma {:induction false} ByCaseIsInOrder(rs: seq<CaseResult>, n: nat)
    requires n <= |rs| && forall a, b :: 0 <= a < b < |rs| ==> rs[a].id != rs[b].id
    ensures ByCase(Ids(rs)[..n], rs) == rs[..n]
  {
    if n > 0 {
      assert Ids(rs)[..n][..n - 1] == Ids(rs)[..n - 1];
      ByCaseIsInOrder(rs, n - 1);
      LatestInPlace(rs, n - 1);
      assert rs[..n] == rs[..n - 1] + [rs[n - 1]];
    }
  }

  /** Scoring a complete raw file of the loaded document lists exactly its results, in the declared order. */
  lemma CompleteRawScores(w: World, d: Document)
    requires FilesOk(w) && w.raw.Some? && w.raw.value.completed && w.raw.value.document == d
    ensures ScoreOk(w, ByCase(d.cases, w.raw.value.results))
  {
    var rs := w.raw.value.results;
    forall a, b | 0 <= a < b < |rs| ensures rs[a].id != rs[b].id {
      assert Ids(rs)[a] == d.cases[a] && Ids(rs)[b] == d.cases[b];
    }
    ByCaseIsInOrder(rs, |rs|);
    assert Ids(rs)[..|rs|] == d.cases && rs[..|rs|] == rs;
  }

  /** A step that only moves a process that is not the owner. */
  lemma BystanderKeeps(w: World, w': World, p: Pid)
    requires Inv(w)
    requires w' == w.(live := w'.live, public := w'.public, metadata := w'.metadata, summary := w'.summary,
                         scored := w'.scored)
    requires w'.public.Some? ==> DocumentOk(w'.public.value)
    requires w'.scored.Some? ==> ScoreOk(w, w'.scored.value)
    requires forall q | q in w'.live && q != p :: q in w.live && w'.live[q] == w.live[q]
    requires p in w'.live ==> !w'.live[p].Owner? && LiveOk(w', p)
    ensures Inv(w')
  {
    forall q ensures LiveOk(w', q) {
      assert LiveOk(w, q);
    }
  }

  lemma SealKeeps(w: World, p: Pid, d: Document)
    requires Inv(w) && w.journal.None? && DocumentOk(d)
    ensures Inv(Put(w.(journal := Some([]), sealed := Some(d)), p, Owner(d, [], Opening)))
  {
    var w' := Put(w.(journal := Some([]), sealed := Some(d)), p, Owner(d, [], Opening));
    forall q | q in w.live ensures !w.live[q].Owner? {
      assert LiveOk(w, q);
    }
    forall q ensures LiveOk(w', q) {
      assert LiveOk(w, q);
    }
  }

  lemma PrepareKeeps(w: World, s: Step)
    requires Inv(w) && s.p in w.live && (s.WritePublic? || s.WriteMetadata?)
    ensures Inv(Work(w, s, w.live[s.p]))
  {
    var w' := Work(w, s, w.live[s.p]);
    assert LiveOk(w, s.p);
    if w' != w {
      BystanderKeeps(w, w', s.p);
    }
  }

  lemma LoadKeeps(w: World, s: Step)
    requires Inv(w) && s.p in w.live && s.LoadPublic?
    ensures Inv(Work(w, s, w.live[s.p]))
  {
    var w' := Work(w, s, w.live[s.p]);
    assert LiveOk(w, s.p);
    if w' != w {
      BystanderKeeps(w, w', s.p);
    }
  }

  lemma CheckKeeps(w: World, s: Step)
    requires Inv(w) && s.p in w.live && s.CheckMetadata?
    ensures Inv(Work(w, s, w.live[s.p]))
  {
    var w' := Work(w, s, w.live[s.p]);
    assert LiveOk(w, s.p);
    if w' != w {
      BystanderKeeps(w, w', s.p);
    }
  }

  lemma ScoreKeeps(w: World, s: Step)
    requires Inv(w) && s.p in w.live && (s.CheckRaw? || s.WriteScored? || s.WriteSummary?)
    ensures Inv(Work(w, s, w.live[s.p]))
  {
    var x := w.live[s.p];
    var w' := Work(w, s, x);
    assert LiveOk(w, s.p);
    if s.CheckRaw? && x.ScorePrepared? && w.raw.Some? && w.raw.value.completed && w.raw.value.document == x.document {
      CompleteRawScores(w, x.document);
    }
    if w' != w {
      BystanderKeeps(w, w', s.p);
    }
  }

  lemma WorkKeeps(w: World, s: Step)
    requires Inv(w) && s.p in w.live && !s.Crash? && !s.StartPrepare? && !s.StartRun? && !s.StartScore?
    ensures Inv(Work(w, s, w.live[s.p]))
  {
    var x := w.live[s.p];
    if s.Own? {
      if x.Owner? { OwnerKeeps(w, s.p, s.outcome); }
    } else if s.CreateJournal? {
      assert LiveOk(w, s.p);
      if x.RunPrepared? {
        if w.journal.None? { SealKeeps(w, s.p, x.document); } else { BystanderKeeps(w, End(w, s.p), s.p); }
      }
    } else if s.WritePublic? || s.WriteMetadata? {
      PrepareKeeps(w, s);
    } else if s.LoadPublic? {
      LoadKeeps(w, s);
    } else if s.CheckMetadata? {
      CheckKeeps(w, s);
    } else {
      ScoreKeeps(w, s);
    }
  }

  lemma NextKeeps(w: World, s: Step)
    requires Inv(w)
    ensures Inv(Next(w, s))
  {
    if !s.Crash? && s.p in w.live && !s.StartPrepare? && !s.StartRun? && !s.StartScore? {
      WorkKeeps(w, s);
    } else if Next(w, s) != w {
      BystanderKeeps(w, Next(w, s), s.p);
    }
  }

  lemma {:induction false} EveryInterleaving(steps: seq<Step>)
    ensures Inv(Exec(steps))
  {
    if steps != [] {
      EveryInterleaving(steps[..|steps| - 1]);
      NextKeeps(Exec(steps[..|steps| - 1]), steps[|steps| - 1]);
    } else {
      forall p ensures LiveOk(BLANK, p) {
      }
    }
  }

  // ---------------------------------------------------------------------------------------------
  // Theorems
  // ---------------------------------------------------------------------------------------------

  ghost predicate NoRepeats(s: seq<CaseId>) { forall i, j :: 0 <= i < j < |s| ==> s[i] != s[j] }

  /**
   * Over every interleaving and every crash, each declared case is started and executed at most once, in the declared
   * order, and never executed without its start being on record first.
   */
  lemma EachCaseAtMostOnce(steps: seq<Step>)
    ensures var w := Exec(steps);
            && NoRepeats(w.executed) && NoRepeats(Journaled(w))
            && w.executed <= Journaled(w)
            && (w.sealed.Some? ==> Journaled(w) <= w.sealed.value.cases)
  {
    EveryInterleaving(steps);
  }

  /** The stored results are always those of a prefix of the sealed cases, in the declared order. */
  lemma StoredResultsArePrefix(steps: seq<Step>)
    ensures var w := Exec(steps);
            w.raw.Some? ==>
              && w.sealed == Some(w.raw.value.document)
              && Ids(w.raw.value.results) <= w.sealed.value.cases
              && Ids(w.raw.value.results) <= w.executed
  {
    EveryInterleaving(steps);
    var w := Exec(steps);
    if w.raw.Some? {
      var ids := Ids(w.raw.value.results);
      assert ids == w.sealed.value.cases[..|ids|];
      assert w.executed == w.sealed.value.cases[..|w.executed|];
    }
  }

  /** Scores exist only for a complete run of the sealed document, and list every case's stored result once. */
  lemma ScoresAreComplete(steps: seq<Step>)
    ensures var w := Exec(steps);
            w.scored.Some? ==>
              && w.sealed.Some?
              && w.raw == Some(Raw(w.sealed.value, true, w.scored.value))
              && Ids(w.scored.value) == w.sealed.value.cases
              && w.executed == w.sealed.value.cases
  {
    EveryInterleaving(steps);
    var w := Exec(steps);
    if w.scored.Some? {
      assert |w.executed| >= |w.scored.value| == |w.sealed.value.cases|;
    }
  }

  // --- What happens after the seal --------------------------------------------------------------------

  /** The world after some more steps. */
  function Continue(w: World, steps: seq<Step>): World {
    if steps == [] then w else Next(Continue(w, steps[..|steps| - 1]), steps[|steps| - 1])
  }

  lemma {:induction false} ContinueExec(steps: seq<Step>, more: seq<Step>)
    ensures Exec(steps + more) == Continue(Exec(steps), more)
    decreases |more|
  {
    if more == [] {
      assert steps + more == steps;
    } else {
      ContinueExec(steps, more[..|more| - 1]);
      assert (steps + more)[..|steps + more| - 1] == steps + more[..|more| - 1];
    }
  }

  lemma {:induction false} ContinueKeeps(w: World, steps: seq<Step>)
    requires Inv(w)
    ensures Inv(Continue(w, steps))
  {
    if steps != [] {
      ContinueKeeps(w, steps[..|steps| - 1]);
      NextKeeps(Continue(w, steps[..|steps| - 1]), steps[|steps| - 1]);
    }
  }

  lemma SealStays(w: World, s: Step)
    requires Inv(w) && w.sealed.Some?
    ensures Next(w, s).sealed == w.sealed
  {
  }

  lemma {:induction false} SealContinues(w: World, steps: seq<Step>)
    requires Inv(w) && w.sealed.Some?
    ensures Continue(w, steps).sealed == w.sealed
  {
    if steps != [] {
      SealContinues(w, steps[..|steps| - 1]);
      ContinueKeeps(w, steps[..|steps| - 1]);
      SealStays(Continue(w, steps[..|steps| - 1]), steps[|steps| - 1]);
    }
  }

  /** The sealed document never changes again, whatever happens to the prepared files. */
  lemma SealIsFinal(steps: seq<Step>, more: seq<Step>)
    requires Exec(steps).sealed.Some?
    ensures Exec(steps + more).sealed == Exec(steps).sealed
  {
    EveryInterleaving(steps);
    ContinueExec(steps, more);
    SealContinues(Exec(steps), more);
  }

  // --- The public document after the seal -------------------------------------------------------------

  /**
   * What a PREPARE may compute. It derives the document from frozen source, integrity-checked files and pinned
   * commits, so two PREPAREs differ only if one of these, or the retrieval from them, differs between them.
   */
  type Computable = Document -> bool

  /** Every PREPARE among the steps writes a document it may compute. */
  ghost predicate Computes(steps: seq<Step>, can: Computable) {
    forall s | s in steps && s.WritePublic? :: can(s.document)
  }

  /** A PREPARE passed its check before the seal and has not written yet. */
  ghost predicate PrepareInFlight(w: World) { exists p :: p in w.live && w.live[p].Preparing? }

  lemma NoneStarts(w: World, s: Step)
    requires w.journal.Some? && (s.p in w.live ==> !w.live[s.p].Preparing?)
    ensures s.p in Next(w, s).live ==> !Next(w, s).live[s.p].Preparing?
  {
  }

  lemma PublicUnwritten(w: World, s: Step)
    requires s.p in w.live ==> !w.live[s.p].Preparing?
    ensures Next(w, s).public == w.public
  {
  }

  /** With no PREPARE in flight after the seal, none starts, and nothing else writes the public document. */
  lemma PublicStays(w: World, s: Step)
    requires Inv(w) && w.sealed.Some? && !PrepareInFlight(w)
    ensures Next(w, s).public == w.public && !PrepareInFlight(Next(w, s))
  {
    assert s.p in w.live ==> !w.live[s.p].Preparing?;
    PublicUnwritten(w, s);
    NoneStarts(w, s);
    OnlyOneMoves(w, s);
    forall p | p in Next(w, s).live ensures !Next(w, s).live[p].Preparing? {
      assert p != s.p ==> p in w.live && !w.live[p].Preparing?;
    }
  }

  lemma {:induction false} PublicContinues(w: World, steps: seq<Step>)
    requires Inv(w) && w.sealed.Some? && !PrepareInFlight(w)
    ensures Continue(w, steps).public == w.public && !PrepareInFlight(Continue(w, steps))
  {
    if steps != [] {
      var front := steps[..|steps| - 1];
      PublicContinues(w, front);
      ContinueKeeps(w, front);
      SealContinues(w, front);
      PublicStays(Continue(w, front), steps[|steps| - 1]);
    }
  }

  /** Only a computed document is ever written. */
  lemma {:induction false} PublicIsComputed(w: World, steps: seq<Step>, can: Computable)
    requires Computes(steps, can)
    ensures var v := Continue(w, steps);
            v.public == w.public || (v.public.Some? && can(v.public.value) && DocumentOk(v.public.value))
  {
    if steps != [] {
      var front, s := steps[..|steps| - 1], steps[|steps| - 1];
      assert forall x | x in front :: x in steps;
      PublicIsComputed(w, front, can);
      assert s in steps;
      PublicIsWritten(Continue(w, front), s);
    }
  }

  lemma PublicIsWritten(w: World, s: Step)
    ensures Next(w, s).public == w.public
         || (s.WritePublic? && Next(w, s).public == Some(s.document) && DocumentOk(s.document))
  {
  }

  /**
   * After the seal, some continuation replaces the public document if and only if a PREPARE that passed its check
   * before the seal is still in flight, and a PREPARE may compute a different document.
   */
  lemma PublicChangesExactly(w: World, can: Computable)
    requires Inv(w) && w.sealed.Some?
    ensures (exists steps :: Computes(steps, can) && Continue(w, steps).public != w.public) <==>
            PrepareInFlight(w) && exists d :: can(d) && DocumentOk(d) && Some(d) != w.public
  {
    if steps :| Computes(steps, can) && Continue(w, steps).public != w.public {
      PublicIsComputed(w, steps, can);
      if !PrepareInFlight(w) {
        PublicContinues(w, steps);
      }
    }
    if PrepareInFlight(w) && exists d :: can(d) && DocumentOk(d) && Some(d) != w.public {
      var p :| p in w.live && w.live[p].Preparing?;
      var d :| can(d) && DocumentOk(d) && Some(d) != w.public;
      var steps := [WritePublic(p, d)];
      assert steps[..0] == [] && Continue(w, []) == w;
      assert Continue(w, steps) == Next(w, WritePublic(p, d));
      assert Computes(steps, can) && Continue(w, steps).public == Some(d);
    }
  }

  /** No file and no process holds another document. */
  ghost predicate Only(w: World, d: Document) {
    && (w.public.Some? ==> w.public.value == d)
    && (w.sealed.Some? ==> w.sealed.value == d && w.public.Some?)
    && forall p | p in w.live :: HoldsOnly(w, w.live[p], d)
  }

  predicate HoldsOnly(w: World, x: Process, d: Document) {
    match x
    case PublicWritten(e) => e == d && w.public.Some?
    case RunLoaded(e) => e == d && w.public.Some?
    case RunPrepared(e) => e == d && w.public.Some?
    case Owner(e, _, _) => e == d && w.public.Some?
    case _ => true
  }

  lemma OwnerMovesAlone(w: World, p: Pid, x: Process, outcome: int)
    requires x.Owner?
    ensures var v := OwnerStep(w, p, x.document, x.results, x.phase, outcome);
            forall q | q in v.live && q != p :: q in w.live && v.live[q] == w.live[q]
  {
  }

  lemma OnlyOneMoves(w: World, s: Step)
    ensures forall q | q in Next(w, s).live && q != s.p :: q in w.live && Next(w, s).live[q] == w.live[q]
  {
    if s.Own? && s.p in w.live && w.live[s.p].Owner? {
      OwnerMovesAlone(w, s.p, w.live[s.p], s.outcome);
    }
  }

  /** The files hold only `d`, and the process that moved too. */
  lemma MoverHoldsOnly(w: World, s: Step, d: Document)
    requires Only(w, d) && (s.WritePublic? ==> s.document == d)
    ensures s.p in Next(w, s).live ==> HoldsOnly(Next(w, s), Next(w, s).live[s.p], d)
  {
    assert s.p in w.live ==> HoldsOnly(w, w.live[s.p], d);
  }

  lemma FilesHoldOnly(w: World, s: Step, d: Document)
    requires Only(w, d) && (s.WritePublic? ==> s.document == d)
    ensures var v := Next(w, s);
            && (v.public.Some? ==> v.public.value == d) && (w.public.Some? ==> v.public.Some?)
            && (v.sealed.Some? ==> v.sealed.value == d && v.public.Some?)
  {
    assert s.p in w.live ==> HoldsOnly(w, w.live[s.p], d);
  }

  lemma OnlyStays(w: World, s: Step, d: Document)
    requires Only(w, d) && (s.WritePublic? ==> s.document == d)
    ensures Only(Next(w, s), d)
  {
    var v := Next(w, s);
    FilesHoldOnly(w, s, d);
    MoverHoldsOnly(w, s, d);
    OnlyOneMoves(w, s);
    forall q | q in v.live ensures HoldsOnly(v, v.live[q], d) {
      if q != s.p {
        assert HoldsOnly(w, w.live[q], d);
      }
    }
  }

  lemma {:induction false} OnlyDocument(steps: seq<Step>, d: Document)
    requires Computes(steps, x => x == d)
    ensures Only(Exec(steps), d)
  {
    if steps != [] {
      var front, s := steps[..|steps| - 1], steps[|steps| - 1];
      assert s in steps && forall x | x in front :: x in steps;
      OnlyDocument(front, d);
      OnlyStays(Exec(front), s, d);
    }
  }

  /** When every PREPARE computes the same document, that is the document sealed, and it is never replaced. */
  lemma SameDocumentStays(steps: seq<Step>, d: Document)
    requires Computes(steps, x => x == d)
    ensures Exec(steps).public.Some? ==> Exec(steps).public == Some(d)
    ensures Exec(steps).sealed.Some? ==> Exec(steps).sealed == Exec(steps).public == Some(d)
  {
    OnlyDocument(steps, d);
  }

  // --- Scoring after a replacement ----------------------------------------------------------------------

  /** No scorer that could still score the sealed document is in flight, and no PREPARE that could restore it. */
  ghost predicate NoneInFlight(w: World) {
    && !PrepareInFlight(w)
    && forall p | p in w.live :: !ScoresSealed(w, w.live[p])
  }

  predicate ScoresSealed(w: World, x: Process) {
    || (x.ScoreLoaded? && Some(x.document) == w.sealed)
    || (x.ScorePrepared? && Some(x.document) == w.sealed)
    || x.Scoring?
  }

  lemma NotScored(w: World, s: Step)
    requires s.p in w.live ==> !w.live[s.p].Scoring?
    ensures Next(w, s).scored == w.scored
  {
  }

  /** A scorer gets past a check only with the public document, and past the last one only with the sealed one. */
  lemma MoverCannotScore(w: World, s: Step)
    requires w.journal.Some? && w.sealed.Some? && w.public != w.sealed
    requires w.raw.Some? ==> w.sealed == Some(w.raw.value.document)
    requires s.p in w.live && !ScoresSealed(w, w.live[s.p]) && !s.Own?
    ensures s.p in Next(w, s).live ==> !ScoresSealed(Next(w, s), Next(w, s).live[s.p])
  {
  }

  lemma OwnerNeverScores(w: World, s: Step)
    requires s.Own? && s.p in w.live && !ScoresSealed(w, w.live[s.p])
    ensures s.p in Next(w, s).live ==> !ScoresSealed(Next(w, s), Next(w, s).live[s.p])
  {
  }

  lemma NobodyStartsScoring(w: World, s: Step)
    requires s.p !in w.live
    ensures s.p in Next(w, s).live ==> !ScoresSealed(Next(w, s), Next(w, s).live[s.p])
  {
  }

  lemma RefusalStays(w: World, s: Step)
    requires Inv(w) && w.sealed.Some? && w.public != w.sealed && NoneInFlight(w)
    ensures Next(w, s).scored == w.scored && NoneInFlight(Next(w, s))
  {
    var v := Next(w, s);
    assert s.p in w.live ==> !ScoresSealed(w, w.live[s.p]);
    NotScored(w, s);
    PublicStays(w, s);
    SealStays(w, s);
    if s.p !in w.live {
      NobodyStartsScoring(w, s);
    } else if s.Own? {
      OwnerNeverScores(w, s);
    } else {
      MoverCannotScore(w, s);
    }
    OnlyOneMoves(w, s);
    forall q | q in v.live ensures !ScoresSealed(v, v.live[q]) {
      if q != s.p {
        assert !ScoresSealed(w, w.live[q]);
      }
    }
  }

  /** Once the public document differs from the sealed one and nothing is in flight, scoring is refused for ever. */
  lemma {:induction false} ReplacementBlocksScoring(w: World, steps: seq<Step>)
    requires Inv(w) && w.sealed.Some? && w.public != w.sealed && NoneInFlight(w)
    ensures Continue(w, steps).scored == w.scored && NoneInFlight(Continue(w, steps))
  {
    if steps != [] {
      var front := steps[..|steps| - 1];
      ReplacementBlocksScoring(w, front);
      ContinueKeeps(w, front);
      SealContinues(w, front);
      PublicContinues(w, front);
      RefusalStays(Continue(w, front), steps[|steps| - 1]);
    }
  }

  /**
   * A history that gets there: a PREPARE that passed its check before the journal was created replaces the public
   * document afterwards.
   */
  lemma LatePrepareReplacesPublic(a: Document, b: Document) returns (steps: seq<Step>, before: World, w: World)
    requires DocumentOk(a) && DocumentOk(b) && a != b
    ensures Runs(steps, before) && before.sealed == Some(a) && before.public == Some(a)
    ensures Runs(steps + [WritePublic(2, b)], w) && w.sealed == Some(a) && w.public == Some(b)
  {
    steps, before := FirstPrepare(a);
    steps, before := LoadAfterPrepare(steps, before, a);
    steps, before := SealAfterLoad(steps, before, a);
    RunsOn(steps, before, WritePublic(2, b));
    w := Next(before, WritePublic(2, b));
  }

  predicate Runs(steps: seq<Step>, w: World) { Exec(steps) == w }

  lemma RunsOn(steps: seq<Step>, w: World, s: Step)
    requires Runs(steps, w)
    ensures Runs(steps + [s], Next(w, s))
  {
    assert (steps + [s])[..|steps|] == steps;
  }

  /** One PREPARE that finishes and a second that has passed its check. */
  lemma FirstPrepare(a: Document) returns (steps: seq<Step>, w: World)
    requires DocumentOk(a)
    ensures Runs(steps, w)
    ensures w == BLANK.(public := Some(a), metadata := Some(a), live := map[2 := Preparing])
  {
    steps, w := [], BLANK;
    RunsOn(steps, w, StartPrepare(1));
    steps, w := steps + [StartPrepare(1)], Put(BLANK, 1, Preparing);
    RunsOn(steps, w, WritePublic(1, a));
    steps, w := steps + [WritePublic(1, a)], Put(w.(public := Some(a)), 1, PublicWritten(a));
    RunsOn(steps, w, WriteMetadata(1));
    steps, w := steps + [WriteMetadata(1)], BLANK.(public := Some(a), metadata := Some(a));
    RunsOn(steps, w, StartPrepare(2));
    steps, w := steps + [StartPrepare(2)], Put(w, 2, Preparing);
  }

  lemma LoadAfterPrepare(before: seq<Step>, v: World, a: Document) returns (steps: seq<Step>, w: World)
    requires Runs(before, v) && v == BLANK.(public := Some(a), metadata := Some(a), live := map[2 := Preparing])
    ensures Runs(steps, w)
    ensures w == v.(live := map[2 := Preparing, 3 := RunLoaded(a)])
  {
    steps, w := before, v;
    RunsOn(steps, w, StartRun(3));
    steps, w := steps + [StartRun(3)], Put(w, 3, RunChecked);
    RunsOn(steps, w, LoadPublic(3));
    steps, w := steps + [LoadPublic(3)], Put(w, 3, RunLoaded(a));
  }

  lemma SealAfterLoad(before: seq<Step>, v: World, a: Document) returns (steps: seq<Step>, w: World)
    requires Runs(before, v)
    requires v == BLANK.(public := Some(a), metadata := Some(a), live := map[2 := Preparing, 3 := RunLoaded(a)])
    ensures Runs(steps, w)
    ensures w.sealed == Some(a) && w.public == Some(a) && 2 in w.live && w.live[2] == Preparing
  {
    steps, w := before, v;
    RunsOn(steps, w, CheckMetadata(3));
    steps, w := steps + [CheckMetadata(3)], Put(w, 3, RunPrepared(a));
    RunsOn(steps, w, CreateJournal(3));
    steps, w := steps + [CreateJournal(3)], Next(w, CreateJournal(3));
  }
}
