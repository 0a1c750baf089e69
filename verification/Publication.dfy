/**
 * The retry protocol that publishes one GitHub Check per run (`github_checks.py`), against the run store and a remote
 * check service. Every call to the store or to GitHub is a separate step; between any two of them anything else may
 * happen: other runs publish, events supersede the run, the process crashes, a request or its response is lost.
 * Attempts on one run are serial; attempts on different runs interleave freely.
 */
module Publication {
  import opened Prelude
  import opened Workflow
  import opened Evidence
  import opened EvidenceWorkflow
  import opened CheckFormat
  import opened RunStore
  import opened StoreHistory
  import opened StoreTheorems

  /** One check on GitHub; its identifier is its position plus one. A check of another application has no run. */
  datatype Check = Check(head: string, sameName: bool, external: Option<RunId>, conclusion: Conclusion)

  datatype ErrorKind = Transient | Permanent

  /** Where the publish attempt on one run stands. */
  datatype Attempt =
    | Idle
    | Checked(payload: Payload)
    | Begun(payload: Payload, known: Option<nat>)
    | Ready(payload: Payload, known: Option<nat>)
    | Absent(payload: Payload)
    | Found(payload: Payload, check: nat)
    | Obtained(check: nat)
    | Recorded
    | Failing(kind: ErrorKind)
    | Noted(kind: ErrorKind)

  datatype World = World(history: seq<Op>, store: Store, remote: seq<Check>, attempts: map<RunId, Attempt>)

  const GENESIS := World([], EMPTY, [], map[])

  datatype ListReply = Listed(page: seq<nat>) | ListFailed(kind: ErrorKind)
  datatype SendReply = Delivered | ResponseLost | NotDelivered(kind: ErrorKind)

  datatype Move =
    | Outside(op: Op)
    | WorkerSaves(run: RunId, behaviour: Behaviour)
    | ForeignCheck(check: Check)
    | Start(run: RunId)
    | Begin(run: RunId, now: Time)
    | Resume(run: RunId, now: Time)
    | Lookup(run: RunId, listing: ListReply)
    | Send(run: RunId, reply: SendReply)
    | RecordId(run: RunId, now: Time)
    | Finish(run: RunId, now: Time)
    | NoteError(run: RunId, now: Time)
    | MarkFailure(run: RunId, now: Time)
    | Crash(run: RunId)

  function At(w: World, r: RunId): Attempt { if r in w.attempts then w.attempts[r] else Idle }

  function Goto(w: World, r: RunId, a: Attempt): World { w.(attempts := w.attempts[r := a]) }

  function Do(w: World, op: Op): World { w.(history := w.history + [op], store := Step(w.store, op)) }

  // --- The remote service ---------------------------------------------------------------------------

  predicate Lists(c: Check, head: string) { c.sameName && c.head == head }

  predicate ListedAt(remote: seq<Check>, head: string, p: nat) {
    1 <= p <= |remote| && Lists(remote[p - 1], head)
  }

  ghost function Matching(remote: seq<Check>, head: string): set<nat> {
    set p: nat | p <= |remote| && ListedAt(remote, head, p)
  }

  /** One page of at most a hundred same-named checks of the commit, in any order. */
  ghost predicate IsPage(remote: seq<Check>, head: string, page: seq<nat>) {
    && Distinct(page)
    && (forall p | p in page :: p in Matching(remote, head))
    && |page| == Min(100, |Matching(remote, head)|)
  }

  /** `_find_existing`: the first listed check that carries the run's external id. */
  function FirstOwned(remote: seq<Check>, page: seq<nat>, r: RunId): (res: Option<nat>)
    ensures res.Some? ==> res.value in page && Owns(remote, res.value, r)
    ensures res.None? ==> forall p | p in page :: !Owns(remote, p, r)
  {
    if page == [] then None
    else if Owns(remote, page[0], r) then Some(page[0])
    else FirstOwned(remote, page[1..], r)
  }

  predicate Owns(remote: seq<Check>, p: nat, r: RunId) {
    1 <= p <= |remote| && remote[p - 1].external == Some(r)
  }

  // --- Steps ----------------------------------------------------------------------------------------

  /** Store transactions of everybody else: nobody but the publisher marks a run PUBLISHED or writes its records. */
  predicate OutsideOp(op: Op) {
    || op.AcceptOp?
    || op.FailOp?
    || (op.TransitionOp? && op.t.publication != Some(Published))
  }

  ghost predicate Possible(w: World, m: Move) {
    match m
    case Outside(op) => OutsideOp(op)
    case ForeignCheck(c) => c.external.None?
    case Lookup(r, Listed(page)) =>
      At(w, r).Ready? && At(w, r).known.None? ==> IsPage(w.remote, At(w, r).payload.head, page)
    case _ => true
  }

  function PublicationTo(s: Store, r: RunId, p: PublicationState, now: Time): Op {
    TransitionOp(r, if r in s.runs then s.runs[r].version else 0, Transition(None, None, None, None, None, Some(p)),
        now)
  }

  /** A worker executes the run, replaying stored evidence if there is some, and saves the report it ends with. */
  function SaveBuilt(w: World, r: RunId, b: Behaviour): World {
    if r !in w.store.runs then w
    else
      var prior := if r in w.store.evidence then Some(w.store.evidence[r]) else None;
      match EvidenceWorkflow.Outcome(w.store.runs[r], prior, b)
      case Err(_) => w
      case Ok(report) => Do(w, SaveOp(r, report, EvidenceSha(report)))
  }

  function Move1(w: World, m: Move): World {
    match m
    case Outside(op) => Do(w, op)
    case WorkerSaves(r, b) => SaveBuilt(w, r, b)
    case ForeignCheck(c) => w.(remote := w.remote + [c])
    case Crash(r) => Goto(w, r, Idle)
    case _ => Advance(w, m)
  }

  /** PATCH took effect on the check, whose commit and external id it leaves alone; the response may be lost. */
  function Patch(w: World, r: RunId, payload: Payload, id: nat, answered: bool): World {
    if !(1 <= id <= |w.remote|) then Goto(w, r, Failing(Permanent))
    else
      var patched := w.remote[id - 1 := w.remote[id - 1].(sameName := true, conclusion := payload.conclusion)];
      Goto(w.(remote := patched), r, if answered then Obtained(id) else Failing(Transient))
  }

  /** POST created a check; the response may be lost. */
  function Post(w: World, r: RunId, payload: Payload, answered: bool): World {
    var created := w.remote + [Check(payload.head, true, Some(payload.external), payload.conclusion)];
    Goto(w.(remote := created), r, if answered then Obtained(|created|) else Failing(Transient))
  }

  /** The publisher's own steps; a step the attempt is not waiting for does nothing. */
  function Advance(w: World, m: Move): World
    requires !m.Outside? && !m.WorkerSaves? && !m.ForeignCheck? && !m.Crash?
  {
    var r, s := m.run, w.store;
    match (m, At(w, m.run))
    case (Start(_), Idle) =>
      // `publish` up to `begin_publication`: the guards, and the payload rebuilt from stored evidence.
      if Read(s, r).Err? || r !in s.evidence then w
      else if !s.runs[r].state.Current? || !s.runs[r].lifecycle.Terminal? || s.runs[r].reason != Some(Completed) then w
      else if s.runs[r].publication in {Published, TerminalFailure} then w
      else Goto(w, r, Checked(Format(s.evidence[r])))
    case (Begin(_, now), Checked(payload)) =>
      var o := BeginPublication(s, r, PayloadSha(payload), now);
      if o.Err? then Goto(w, r, Idle)
      else Goto(Do(w, BeginOp(r, PayloadSha(payload), now)), r, Begun(payload, o.value.1.check))
    case (Resume(_, now), Begun(payload, known)) =>
      if Read(s, r).Err? then Goto(w, r, Idle)
      else if s.runs[r].publication != RetryableFailure then Goto(w, r, Ready(payload, known))
      else
        var op := PublicationTo(s, r, Pending, now);
        if TransitionRun(s, r, op.expected, op.t, now).Err? then Goto(w, r, Idle)
        else Goto(Do(w, op), r, Ready(payload, known))
    case (Lookup(_, _), Ready(payload, Some(id))) => Goto(w, r, Found(payload, id))
    case (Lookup(_, ListFailed(kind)), Ready(_, None)) => Goto(w, r, Failing(kind))
    case (Lookup(_, Listed(page)), Ready(payload, None)) =>
      var found := FirstOwned(w.remote, page, payload.external);
      if found.Some? then Goto(w, r, Found(payload, found.value)) else Goto(w, r, Absent(payload))
    case (Send(_, NotDelivered(kind)), Found(_, _)) => Goto(w, r, Failing(kind))
    case (Send(_, NotDelivered(kind)), Absent(_)) => Goto(w, r, Failing(kind))
    case (Send(_, reply), Found(payload, id)) => Patch(w, r, payload, id, reply == Delivered)
    case (Send(_, reply), Absent(payload)) => Post(w, r, payload, reply == Delivered)
    case (RecordId(_, now), Obtained(id)) =>
      if SetCheckId(s, r, id, now).Err? then Goto(w, r, Idle)
      else Goto(Do(w, SetCheckOp(r, id, now)), r, Recorded)
    case (Finish(_, now), Recorded) =>
      if Read(s, r).Err? then Goto(w, r, Idle) else Goto(Do(w, PublicationTo(s, r, Published, now)), r, Idle)
    case (NoteError(_, now), Failing(kind)) => Goto(Do(w, ErrorOp(r, "publication failed", now)), r, Noted(kind))
    case (MarkFailure(_, now), Noted(kind)) =>
      Goto(Do(w, PublicationTo(s, r, if kind == Transient then RetryableFailure else TerminalFailure, now)), r, Idle)
    case _ => w
  }

  function Exec(moves: seq<Move>): World {
    if moves == [] then GENESIS else Move1(Exec(moves[..|moves| - 1]), moves[|moves| - 1])
  }

  ghost predicate AllPossible(moves: seq<Move>) {
    moves != [] ==>
      AllPossible(moves[..|moves| - 1]) && Possible(Exec(moves[..|moves| - 1]), moves[|moves| - 1])
  }

  /** A check of the run exists whose identifier was never recorded, so the attempt depends on finding it. */
  ghost predicate MustFind(w: World, r: RunId) {
    At(w, r).Ready? && At(w, r).known.None? && exists p :: Owns(w.remote, p, r)
  }

  /** Whenever the publisher must find a check by listing the commit's, they fit on the one page it asks for. */
  ghost predicate FitsOnePage(w: World, m: Move) {
    m.Lookup? && MustFind(w, m.run) ==> |Matching(w.remote, At(w, m.run).payload.head)| <= 100
  }

  ghost predicate AlwaysFits(moves: seq<Move>) {
    moves != [] ==>
      AlwaysFits(moves[..|moves| - 1]) && FitsOnePage(Exec(moves[..|moves| - 1]), moves[|moves| - 1])
  }

  // ---------------------------------------------------------------------------------------------
  // The invariant, run by run
  // ---------------------------------------------------------------------------------------------

  ghost predicate AtMostOne(remote: seq<Check>, r: RunId) {
    forall p, q :: Owns(remote, p, r) && Owns(remote, q, r) ==> p == q
  }

  /** Every check that carries the run's external id shows what the stored evidence says. */
  ghost predicate ShowsEvidence(s: Store, remote: seq<Check>, r: RunId) {
    forall p :: Owns(remote, p, r) ==>
      && r in s.evidence
      && remote[p - 1].sameName
      && remote[p - 1].head == Format(s.evidence[r]).head
      && remote[p - 1].conclusion == Format(s.evidence[r]).conclusion
  }

  ghost predicate EvidenceOk(s: Store, r: RunId) {
    r in s.evidence ==>
      r in s.runs && Sound(s.evidence[r]) && s.evidence[r].run == r && s.evidence[r].head == s.runs[r].revision.head
  }

  ghost predicate RecordOk(s: Store, remote: seq<Check>, r: RunId) {
    && (r in s.publications ==>
          && r in s.evidence
          && s.publications[r].payload == PayloadSha(Format(s.evidence[r]))
          && (s.publications[r].check.Some? ==> Owns(remote, s.publications[r].check.value, r)))
    && (r in s.runs && s.runs[r].publication.Published? ==> r in s.publications && s.publications[r].check.Some?)
  }

  ghost predicate AttemptOk(s: Store, remote: seq<Check>, a: Attempt, r: RunId) {
    && (!a.Idle? ==> r in s.evidence)
    && (a.Checked? || a.Begun? || a.Ready? || a.Absent? || a.Found? ==>
          r in s.evidence && a.payload == Format(s.evidence[r]))
    && (!a.Idle? && !a.Checked? ==> r in s.publications)
    && (a.Begun? || a.Ready? ==> (a.known.Some? ==> Owns(remote, a.known.value, r)))
    && (a.Found? || a.Obtained? ==> Owns(remote, a.check, r))
    && (a.Recorded? ==> r in s.publications && s.publications[r].check.Some?)
  }

  /** One check at most, and none while the attempt is about to create one. */
  ghost predicate Exclusive(remote: seq<Check>, a: Attempt, r: RunId) {
    AtMostOne(remote, r) && (a.Absent? ==> forall p :: !Owns(remote, p, r))
  }

  /** `full` is whether listings never miss a check; without that, everything but exclusivity is kept. */
  ghost predicate RunOkay(w: World, r: RunId, full: bool) {
    && (full ==> Exclusive(w.remote, At(w, r), r))
    && ShowsEvidence(w.store, w.remote, r)
    && EvidenceOk(w.store, r)
    && RecordOk(w.store, w.remote, r)
    && AttemptOk(w.store, w.remote, At(w, r), r)
  }

  ghost predicate WorldInv(w: World, full: bool) {
    && w.store == Replay(w.history)
    && forall r :: RunOkay(w, r, full)
  }

  // --- Store transactions seen from one run ---------------------------------------------------------

  /** A transaction that neither writes the run's records nor publishes it. */
  ghost predicate Quiet(s: Store, t: Store, r: RunId) {
    && (r in s.evidence <==> r in t.evidence) && (r in s.evidence && r in t.evidence ==> s.evidence[r] == t.evidence[r])
    && (r in s.publications <==> r in t.publications)
    && (r in s.publications && r in t.publications ==> s.publications[r] == t.publications[r])
    && (r in s.runs ==> r in t.runs && t.runs[r].revision == s.runs[r].revision)
    && (r in t.runs && t.runs[r].publication.Published? ==> r in s.runs && s.runs[r].publication.Published?)
  }

  lemma AcceptIsQuiet(l: Ledger, op: Op, r: RunId)
    requires Inv(l) && op.AcceptOp?
    ensures Quiet(l.store, Step(l.store, op), r)
  {
    var s, k := l.store, op.e.revision;
    AcceptForms(s, op.e, op.now, op.newId);
    assert RevisionOk(s, l.log, k) && PointerOk(s, k.pull);
    if k in s.revisions {
      assert RunOk(s, s.revisions[k]);
    }
    if k.pull in s.current {
      assert RunOk(s, s.current[k.pull]);
    }
  }

  lemma TransitionIsQuiet(s: Store, op: Op, r: RunId)
    requires op.TransitionOp? && (op.t.publication != Some(Published) || op.id != r)
    ensures Quiet(s, Step(s, op), r)
  {
    var o := TransitionRun(s, op.id, op.expected, op.t, op.now);
    if o.Ok? && op.id == r {
      PublishedOnlyByRequest(s.runs[r], op.t, op.now);
    }
  }

  lemma PublishedOnlyByRequest(run: Run, t: Transition, now: Time)
    requires t.publication != Some(Published)
    ensures var res := ApplyTransition(run, t, now);
            res.Ok? && res.value.publication.Published? ==> run.publication.Published?
  {
  }

  lemma FailIsQuiet(s: Store, op: Op, r: RunId)
    requires op.FailOp?
    ensures Quiet(s, Step(s, op), r)
  {
    if op.id !in s.failures && op.id in s.runs && Wellformed(s.runs[op.id]) {
      PublishedOnlyByRequest(s.runs[op.id], FAIL, op.now);
    }
  }

  lemma OutsideIsQuiet(w: World, op: Op, r: RunId)
    requires w.store == Replay(w.history) && OutsideOp(op)
    ensures Quiet(w.store, Step(w.store, op), r)
  {
    EveryHistory(w.history);
    LedgerFollowsStore(w.history);
    match op
    case AcceptOp(_, _, _) => AcceptIsQuiet(Record(w.history), op, r);
    case TransitionOp(_, _, _, _) => TransitionIsQuiet(w.store, op, r);
    case FailOp(_, _, _) => FailIsQuiet(w.store, op, r);
  }

  lemma QuietKeepsRun(w: World, t: Store, r: RunId, w': World, full: bool)
    requires RunOkay(w, r, full) && Quiet(w.store, t, r)
    requires w'.store == t && w'.remote == w.remote && At(w', r) == At(w, r)
    ensures RunOkay(w', r, full)
  {
  }

  lemma DoFollowsHistory(w: World, op: Op)
    requires w.store == Replay(w.history)
    ensures Do(w, op).store == Replay(Do(w, op).history)
  {
    assert (w.history + [op])[..|w.history|] == w.history;
  }

  // --- Steps that touch one run leave the others alone -----------------------------------------------

  lemma SaveIsQuiet(s: Store, op: Op, r: RunId)
    requires op.SaveOp? && op.id != r
    ensures Quiet(s, Step(s, op), r)
  {
  }

  lemma BeginIsQuiet(s: Store, op: Op, r: RunId)
    requires op.BeginOp? && op.id != r
    ensures Quiet(s, Step(s, op), r)
  {
  }

  lemma SetCheckIsQuiet(s: Store, op: Op, r: RunId)
    requires op.SetCheckOp? && op.id != r
    ensures Quiet(s, Step(s, op), r)
  {
  }

  lemma ErrorIsQuiet(s: Store, op: Op, r: RunId)
    requires op.ErrorOp? && op.id != r
    ensures Quiet(s, Step(s, op), r)
  {
  }

  lemma RecordOpIsQuietForOthers(s: Store, op: Op, r: RunId)
    requires op.SaveOp? || op.BeginOp? || op.SetCheckOp? || op.ErrorOp?
    requires op.id != r
    ensures Quiet(s, Step(s, op), r)
  {
    if op.SaveOp? {
      SaveIsQuiet(s, op, r);
    } else if op.BeginOp? {
      BeginIsQuiet(s, op, r);
    } else if op.SetCheckOp? {
      SetCheckIsQuiet(s, op, r);
    } else {
      ErrorIsQuiet(s, op, r);
    }
  }

  ghost predicate RemoteGrows(a: seq<Check>, b: seq<Check>, mine: RunId) {
    && |a| <= |b|
    && (forall i | 0 <= i < |a| :: b[i] == a[i] || (a[i].external == b[i].external == Some(mine)))
    && (forall i | |a| <= i < |b| :: b[i].external == Some(mine))
  }

  lemma OthersUnaffected(w: World, w': World, mine: RunId, r: RunId, full: bool)
    requires r != mine && RunOkay(w, r, full) && Quiet(w.store, w'.store, r)
    requires RemoteGrows(w.remote, w'.remote, mine) && At(w', r) == At(w, r)
    ensures RunOkay(w', r, full)
  {
    forall p ensures Owns(w.remote, p, r) <==> Owns(w'.remote, p, r) {
    }
    assert forall p :: Owns(w.remote, p, r) ==> w'.remote[p - 1] == w.remote[p - 1];
  }

  // ---------------------------------------------------------------------------------------------
  // Every step keeps the invariant
  // ---------------------------------------------------------------------------------------------

  lemma OutsideKeeps(w: World, op: Op, full: bool)
    requires WorldInv(w, full) && OutsideOp(op)
    ensures WorldInv(Do(w, op), full)
  {
    DoFollowsHistory(w, op);
    forall r ensures RunOkay(Do(w, op), r, full) {
      assert RunOkay(w, r, full);
      OutsideIsQuiet(w, op, r);
      QuietKeepsRun(w, Step(w.store, op), r, Do(w, op), full);
    }
  }

  /** Saving the report an execution of the run ends with, or replaying the stored one. */
  lemma OwnSave(w: World, r: RunId, report: Report, full: bool)
    requires RunOkay(w, r, full) && r in w.store.runs && w.store.runs[r].id == r
    requires r !in w.store.evidence ==> SoundFor(w.store.runs[r], report)
    requires r in w.store.evidence ==> report == w.store.evidence[r]
    ensures RunOkay(Do(w, SaveOp(r, report, EvidenceSha(report))), r, full)
  {
  }

  lemma WorkerSavesKeeps(w: World, r: RunId, b: Behaviour, full: bool)
    requires WorldInv(w, full)
    ensures WorldInv(Move1(w, WorkerSaves(r, b)), full)
  {
    var w' := Move1(w, WorkerSaves(r, b));
    if w' != w {
      var prior := if r in w.store.evidence then Some(w.store.evidence[r]) else None;
      var report := EvidenceWorkflow.Outcome(w.store.runs[r], prior, b).value;
      var op := SaveOp(r, report, EvidenceSha(report));
      DoFollowsHistory(w, op);
      EveryHistory(w.history);
      LedgerFollowsStore(w.history);
      assert RunOk(w.store, r);
      ExecutionIsSound(w.store.runs[r], b);
      forall x ensures RunOkay(w', x, full) {
        assert RunOkay(w, x, full);
        if x == r {
          OwnSave(w, r, report, full);
        } else {
          RecordOpIsQuietForOthers(w.store, op, x);
          QuietKeepsRun(w, w'.store, x, w', full);
        }
      }
    }
  }

  lemma ForeignKeeps(w: World, c: Check, full: bool)
    requires WorldInv(w, full) && c.external.None?
    ensures WorldInv(w.(remote := w.remote + [c]), full)
  {
    var w' := w.(remote := w.remote + [c]);
    forall r ensures RunOkay(w', r, full) {
      assert RunOkay(w, r, full);
      forall p ensures Owns(w.remote, p, r) <==> Owns(w'.remote, p, r) {
      }
      assert forall p :: Owns(w.remote, p, r) ==> w'.remote[p - 1] == w.remote[p - 1];
    }
  }

  /** A step of the attempt on `r` that only moves the attempt. */
  lemma GotoKeeps(w: World, r: RunId, a: Attempt, full: bool)
    requires WorldInv(w, full) && AttemptOk(w.store, w.remote, a, r)
    requires full && a.Absent? ==> forall p :: !Owns(w.remote, p, r)
    ensures WorldInv(Goto(w, r, a), full)
  {
    forall x ensures RunOkay(Goto(w, r, a), x, full) {
      assert RunOkay(w, x, full);
    }
  }

  /** A step of the attempt on `r` that commits a store transaction about `r`. */
  lemma DoGotoKeeps(w: World, r: RunId, op: Op, a: Attempt, full: bool)
    requires WorldInv(w, full)
    requires forall x | x != r :: Quiet(w.store, Step(w.store, op), x)
    requires RunOkay(Goto(Do(w, op), r, a), r, full)
    ensures WorldInv(Goto(Do(w, op), r, a), full)
  {
    DoFollowsHistory(w, op);
    var w' := Goto(Do(w, op), r, a);
    forall x ensures RunOkay(w', x, full) {
      assert RunOkay(w, x, full);
      if x != r {
        QuietKeepsRun(w, w'.store, x, w', full);
      }
    }
  }

  lemma BeginKeeps(w: World, r: RunId, now: Time, full: bool)
    requires WorldInv(w, full) && At(w, r).Checked?
    ensures WorldInv(Advance(w, Begin(r, now)), full)
    ensures BeginPublication(w.store, r, PayloadSha(At(w, r).payload), now) != Err(PayloadConflict)
  {
    assert RunOkay(w, r, full);
    var payload := At(w, r).payload;
    var op := BeginOp(r, PayloadSha(payload), now);
    var o := BeginPublication(w.store, r, PayloadSha(payload), now);
    if o.Err? {
      GotoKeeps(w, r, Idle, full);
    } else {
      forall x | x != r ensures Quiet(w.store, Step(w.store, op), x) {
        RecordOpIsQuietForOthers(w.store, op, x);
      }
      DoGotoKeeps(w, r, op, Begun(payload, o.value.1.check), full);
    }
  }

  /** A transaction that is quiet about the run, beside a move of its attempt. */
  lemma QuietMoveKeepsRun(w: World, r: RunId, w': World, full: bool)
    requires RunOkay(w, r, full) && Quiet(w.store, w'.store, r) && w'.remote == w.remote
    requires AttemptOk(w.store, w.remote, At(w', r), r) && !At(w', r).Absent?
    ensures RunOkay(w', r, full)
  {
  }

  lemma OwnPublish(w: World, r: RunId, now: Time, a: Attempt, full: bool)
    requires RunOkay(w, r, full) && AttemptOk(w.store, w.remote, a, r) && !a.Absent? && At(w, r).Recorded?
    ensures RunOkay(Goto(Do(w, PublicationTo(w.store, r, Published, now)), r, a), r, full)
  {
    var op := PublicationTo(w.store, r, Published, now);
    TransitionKeepsShape(w.store, r, op.expected, op.t, now);
    assert SameRun(w.store, Step(w.store, op), r);
  }

  lemma OwnStateChange(w: World, r: RunId, p: PublicationState, now: Time, a: Attempt, full: bool)
    requires RunOkay(w, r, full) && AttemptOk(w.store, w.remote, a, r) && !a.Absent?
    requires p.Published? ==> At(w, r).Recorded?
    ensures RunOkay(Goto(Do(w, PublicationTo(w.store, r, p, now)), r, a), r, full)
  {
    if p.Published? {
      OwnPublish(w, r, now, a, full);
    } else {
      var op := PublicationTo(w.store, r, p, now);
      TransitionIsQuiet(w.store, op, r);
      QuietMoveKeepsRun(w, r, Goto(Do(w, op), r, a), full);
    }
  }

  lemma StateChangeKeeps(w: World, r: RunId, p: PublicationState, now: Time, a: Attempt, full: bool)
    requires WorldInv(w, full) && AttemptOk(w.store, w.remote, a, r) && !a.Absent?
    requires p.Published? ==> At(w, r).Recorded?
    ensures WorldInv(Goto(Do(w, PublicationTo(w.store, r, p, now)), r, a), full)
  {
    var op := PublicationTo(w.store, r, p, now);
    assert RunOkay(w, r, full);
    forall x | x != r ensures Quiet(w.store, Step(w.store, op), x) {
      TransitionIsQuiet(w.store, op, x);
    }
    OwnStateChange(w, r, p, now, a, full);
    DoGotoKeeps(w, r, op, a, full);
  }

  lemma ResumeKeeps(w: World, r: RunId, now: Time, full: bool)
    requires WorldInv(w, full) && At(w, r).Begun?
    ensures WorldInv(Advance(w, Resume(r, now)), full)
  {
    assert RunOkay(w, r, full);
    var ready := Ready(At(w, r).payload, At(w, r).known);
    GotoKeeps(w, r, Idle, full);
    GotoKeeps(w, r, ready, full);
    StateChangeKeeps(w, r, Pending, now, ready, full);
  }

  /** A full page of at most a hundred lists every matching check, so an owned one cannot be missed. */
  lemma FullPageIsComplete(remote: seq<Check>, head: string, page: seq<nat>)
    requires IsPage(remote, head, page) && |Matching(remote, head)| <= 100
    ensures forall p | p in Matching(remote, head) :: p in page
  {
    DistinctCardinality(page);
    assert Elements(page) <= Matching(remote, head);
    SubsetSameSize(Elements(page), Matching(remote, head));
  }

  lemma LookupKeeps(w: World, r: RunId, listing: ListReply, full: bool)
    requires WorldInv(w, full) && At(w, r).Ready?
    requires Possible(w, Lookup(r, listing)) && (full ==> FitsOnePage(w, Lookup(r, listing)))
    ensures WorldInv(Advance(w, Lookup(r, listing)), full)
  {
    assert RunOkay(w, r, full);
    var a := At(w, r);
    if a.known.Some? {
      GotoKeeps(w, r, Found(a.payload, a.known.value), full);
    } else if listing.ListFailed? {
      GotoKeeps(w, r, Failing(listing.kind), full);
    } else {
      var found := FirstOwned(w.remote, listing.page, r);
      if found.Some? {
        GotoKeeps(w, r, Found(a.payload, found.value), full);
      } else {
        if full {
          NothingMissed(w, r, listing.page);
        }
        GotoKeeps(w, r, Absent(a.payload), full);
      }
    }
  }

  /** Every check of the run is among the commit's same-named checks. */
  lemma OwnedMatches(w: World, r: RunId, p: nat, full: bool)
    requires RunOkay(w, r, full) && At(w, r).Ready? && Owns(w.remote, p, r)
    ensures p in Matching(w.remote, At(w, r).payload.head)
  {
    assert ListedAt(w.remote, At(w, r).payload.head, p);
  }

  /** A listing that had to find the run's check, on one page, and shows none, means there is none. */
  lemma NothingMissed(w: World, r: RunId, page: seq<nat>)
    requires RunOkay(w, r, true) && At(w, r).Ready? && At(w, r).known.None?
    requires IsPage(w.remote, At(w, r).payload.head, page) && FitsOnePage(w, Lookup(r, Listed(page)))
    requires forall p | p in page :: !Owns(w.remote, p, r)
    ensures forall p :: !Owns(w.remote, p, r)
  {
    forall p ensures !Owns(w.remote, p, r) {
      if Owns(w.remote, p, r) {
        OwnedMatches(w, r, p, true);
        FullPageIsComplete(w.remote, At(w, r).payload.head, page);
      }
    }
  }

  lemma RemoteStepKeeps(w: World, r: RunId, remote: seq<Check>, a: Attempt, full: bool)
    requires WorldInv(w, full) && RemoteGrows(w.remote, remote, r)
    requires RunOkay(Goto(w.(remote := remote), r, a), r, full)
    ensures WorldInv(Goto(w.(remote := remote), r, a), full)
  {
    var w' := Goto(w.(remote := remote), r, a);
    forall x ensures RunOkay(w', x, full) {
      assert RunOkay(w, x, full);
      if x != r {
        OthersUnaffected(w, w', r, x, full);
      }
    }
  }

  lemma PatchKeeps(w: World, r: RunId, reply: SendReply, full: bool)
    requires WorldInv(w, full) && At(w, r).Found? && !reply.NotDelivered?
    ensures WorldInv(Advance(w, Send(r, reply)), full)
  {
    assert RunOkay(w, r, full);
    var payload, id := At(w, r).payload, At(w, r).check;
    var remote := w.remote[id - 1 := w.remote[id - 1].(sameName := true, conclusion := payload.conclusion)];
    var a := if reply.Delivered? then Obtained(id) else Failing(Transient);
    forall p ensures Owns(w.remote, p, r) <==> Owns(remote, p, r) {
    }
    RemoteStepKeeps(w, r, remote, a, full);
  }

  lemma PostKeeps(w: World, r: RunId, reply: SendReply, full: bool)
    requires WorldInv(w, full) && At(w, r).Absent? && !reply.NotDelivered?
    ensures WorldInv(Advance(w, Send(r, reply)), full)
  {
    assert RunOkay(w, r, full);
    var payload := At(w, r).payload;
    var remote := w.remote + [Check(payload.head, true, Some(payload.external), payload.conclusion)];
    var a := if reply.Delivered? then Obtained(|remote|) else Failing(Transient);
    assert payload.external == r;
    forall p ensures Owns(remote, p, r) <==> Owns(w.remote, p, r) || p == |remote| {
    }
    RemoteStepKeeps(w, r, remote, a, full);
  }

  lemma SendKeeps(w: World, r: RunId, reply: SendReply, full: bool)
    requires WorldInv(w, full) && (At(w, r).Found? || At(w, r).Absent?)
    ensures WorldInv(Advance(w, Send(r, reply)), full)
  {
    if reply.NotDelivered? {
      assert RunOkay(w, r, full);
      GotoKeeps(w, r, Failing(reply.kind), full);
    } else if At(w, r).Found? {
      PatchKeeps(w, r, reply, full);
    } else {
      PostKeeps(w, r, reply, full);
    }
  }

  lemma OwnRecord(w: World, r: RunId, now: Time, full: bool)
    requires RunOkay(w, r, full) && At(w, r).Obtained? && SetCheckId(w.store, r, At(w, r).check, now).Ok?
    ensures RunOkay(Goto(Do(w, SetCheckOp(r, At(w, r).check, now)), r, Recorded), r, full)
  {
  }

  lemma ObtainedRecords(w: World, r: RunId, now: Time)
    requires RunOkay(w, r, true) && At(w, r).Obtained?
    ensures SetCheckId(w.store, r, At(w, r).check, now).Ok?
  {
  }

  lemma RecordStep(w: World, r: RunId, now: Time)
    requires At(w, r).Obtained?
    ensures var id := At(w, r).check;
            Advance(w, RecordId(r, now)) ==
            if SetCheckId(w.store, r, id, now).Err? then Goto(w, r, Idle)
            else Goto(Do(w, SetCheckOp(r, id, now)), r, Recorded)
  {
  }

  lemma RecordedKeeps(w: World, r: RunId, now: Time, full: bool)
    requires WorldInv(w, full) && At(w, r).Obtained? && SetCheckId(w.store, r, At(w, r).check, now).Ok?
    ensures WorldInv(Goto(Do(w, SetCheckOp(r, At(w, r).check, now)), r, Recorded), full)
  {
    var op := SetCheckOp(r, At(w, r).check, now);
    assert RunOkay(w, r, full);
    OwnRecord(w, r, now, full);
    forall x | x != r ensures Quiet(w.store, Step(w.store, op), x) {
      RecordOpIsQuietForOthers(w.store, op, x);
    }
    DoGotoKeeps(w, r, op, Recorded, full);
  }

  lemma RecordIdKeeps(w: World, r: RunId, now: Time, full: bool)
    requires WorldInv(w, full) && At(w, r).Obtained?
    ensures WorldInv(Advance(w, RecordId(r, now)), full)
  {
    RecordStep(w, r, now);
    if SetCheckId(w.store, r, At(w, r).check, now).Err? {
      GotoKeeps(w, r, Idle, full);
    } else {
      RecordedKeeps(w, r, now, full);
    }
  }

  lemma NoteErrorKeeps(w: World, r: RunId, now: Time, full: bool)
    requires WorldInv(w, full) && At(w, r).Failing?
    ensures WorldInv(Advance(w, NoteError(r, now)), full)
  {
    assert RunOkay(w, r, full);
    var op := ErrorOp(r, "publication failed", now);
    forall x | x != r ensures Quiet(w.store, Step(w.store, op), x) {
      RecordOpIsQuietForOthers(w.store, op, x);
    }
    DoGotoKeeps(w, r, op, Noted(At(w, r).kind), full);
  }

  /** The steps up to the request that GitHub answers. */
  lemma RequestKeeps(w: World, m: Move, full: bool)
    requires WorldInv(w, full) && Possible(w, m) && (full ==> FitsOnePage(w, m))
    requires m.Start? || m.Begin? || m.Resume? || m.Lookup? || m.Send?
    ensures WorldInv(Advance(w, m), full)
  {
    var r := m.run;
    assert RunOkay(w, r, full);
    match (m, At(w, r))
    case (Start(_), Idle) => if Advance(w, m) != w { GotoKeeps(w, r, Checked(Format(w.store.evidence[r])), full); }
    case (Begin(_, now), Checked(_)) => BeginKeeps(w, r, now, full);
    case (Resume(_, now), Begun(_, _)) => ResumeKeeps(w, r, now, full);
    case (Lookup(_, listing), Ready(_, _)) => LookupKeeps(w, r, listing, full);
    case (Send(_, reply), Found(_, _)) => SendKeeps(w, r, reply, full);
    case (Send(_, reply), Absent(_)) => SendKeeps(w, r, reply, full);
    case _ =>
  }

  /** The steps that record what came back. */
  lemma AnswerKeeps(w: World, m: Move, full: bool)
    requires WorldInv(w, full) && (m.RecordId? || m.Finish? || m.NoteError? || m.MarkFailure?)
    ensures WorldInv(Advance(w, m), full)
  {
    var r := m.run;
    match (m, At(w, r))
    case (RecordId(_, now), Obtained(_)) => RecordIdKeeps(w, r, now, full);
    case (Finish(_, now), Recorded) =>
      GotoKeeps(w, r, Idle, full);
      StateChangeKeeps(w, r, Published, now, Idle, full);
    case (NoteError(_, now), Failing(_)) => NoteErrorKeeps(w, r, now, full);
    case (MarkFailure(_, now), Noted(kind)) =>
      StateChangeKeeps(w, r, if kind == Transient then RetryableFailure else TerminalFailure, now, Idle, full);
    case _ =>
  }

  lemma MoveKeeps(w: World, m: Move, full: bool)
    requires WorldInv(w, full) && Possible(w, m) && (full ==> FitsOnePage(w, m))
    ensures WorldInv(Move1(w, m), full)
  {
    match m
    case Outside(op) => OutsideKeeps(w, op, full);
    case WorkerSaves(r, b) => WorkerSavesKeeps(w, r, b, full);
    case ForeignCheck(c) => ForeignKeeps(w, c, full);
    case Crash(r) => GotoKeeps(w, r, Idle, full);
    case _ =>
      if m.RecordId? || m.Finish? || m.NoteError? || m.MarkFailure? {
        AnswerKeeps(w, m, full);
      } else {
        RequestKeeps(w, m, full);
      }
  }

  lemma {:induction false} EveryExecution(moves: seq<Move>, full: bool)
    requires AllPossible(moves) && (full ==> AlwaysFits(moves))
    ensures WorldInv(Exec(moves), full)
  {
    if moves == [] {
      forall r ensures RunOkay(GENESIS, r, full) {
      }
    } else {
      EveryExecution(moves[..|moves| - 1], full);
      MoveKeeps(Exec(moves[..|moves| - 1]), moves[|moves| - 1], full);
    }
  }

  // ---------------------------------------------------------------------------------------------
  // Theorems
  // ---------------------------------------------------------------------------------------------

  /** GitHub never holds two checks with the external id of one run. */
  lemma AtMostOneCheck(moves: seq<Move>, r: RunId)
    requires AllPossible(moves) && AlwaysFits(moves)
    ensures AtMostOne(Exec(moves).remote, r)
  {
    EveryExecution(moves, true);
    assert RunOkay(Exec(moves), r, true);
  }

  /** The recorded check carries the run's id, on its commit, with the conclusion of its stored evidence. */
  ghost predicate Shown(w: World, r: RunId) {
    && r in w.store.runs && r in w.store.evidence && r in w.store.publications
    && w.store.publications[r].payload == PayloadSha(Format(w.store.evidence[r]))
    && w.store.publications[r].check.Some?
    && var id := w.store.publications[r].check.value;
       && Owns(w.remote, id, r)
       && w.remote[id - 1].head == w.store.runs[r].revision.head
       && w.remote[id - 1].conclusion == Format(w.store.evidence[r]).conclusion
  }

  lemma PublishedIsShown(w: World, r: RunId, full: bool)
    requires RunOkay(w, r, full) && r in w.store.runs && w.store.runs[r].publication.Published?
    ensures Shown(w, r)
  {
    assert Owns(w.remote, w.store.publications[r].check.value, r);
  }

  /** A run marked PUBLISHED shows its stored, write-once evidence on GitHub; and, if no check was missed, only once. */
  lemma PublishedMeansPublished(moves: seq<Move>, r: RunId)
    requires AllPossible(moves)
    requires var s := Exec(moves).store; r in s.runs && s.runs[r].publication.Published?
    ensures Shown(Exec(moves), r)
    ensures AlwaysFits(moves) ==> AtMostOne(Exec(moves).remote, r)
  {
    EveryExecution(moves, false);
    var w := Exec(moves);
    assert RunOkay(w, r, false);
    PublishedIsShown(w, r, false);
    if AlwaysFits(moves) {
      AtMostOneCheck(moves, r);
    }
  }

  /** A check that says success exists only for evidence whose candidate failed on BASE and passed on HEAD. */
  lemma SuccessCheckIsBacked(moves: seq<Move>, r: RunId, p: nat)
    requires AllPossible(moves)
    requires Owns(Exec(moves).remote, p, r)
    ensures var w := Exec(moves);
            && r in w.store.evidence
            && (w.remote[p - 1].conclusion == Success ==> Carries(w.store.evidence[r], AssertionFailed, Passed))
            && (w.remote[p - 1].conclusion == Failure ==> Carries(w.store.evidence[r], Passed, AssertionFailed))
  {
    EveryExecution(moves, false);
    assert RunOkay(Exec(moves), r, false);
  }

  /** A retry never meets the payload of an earlier attempt as a conflict; no listing matters for that. */
  lemma PayloadNeverConflicts(moves: seq<Move>, r: RunId, now: Time)
    requires AllPossible(moves)
    ensures var w := Exec(moves);
            At(w, r).Checked? ==>
                BeginPublication(w.store, r, PayloadSha(At(w, r).payload), now) != Err(PayloadConflict)
  {
    EveryExecution(moves, false);
    if At(Exec(moves), r).Checked? {
      BeginKeeps(Exec(moves), r, now, false);
    }
  }

  /** If no check was missed, recording the identifier an attempt obtained always succeeds. */
  lemma RetriesNeverConflict(moves: seq<Move>, r: RunId, now: Time)
    requires AllPossible(moves) && AlwaysFits(moves)
    ensures var w := Exec(moves);
            At(w, r).Obtained? ==> SetCheckId(w.store, r, At(w, r).check, now).Ok?
  {
    EveryExecution(moves, true);
    assert RunOkay(Exec(moves), r, true);
    if At(Exec(moves), r).Obtained? {
      ObtainedRecords(Exec(moves), r, now);
    }
  }

  // ---------------------------------------------------------------------------------------------
  // When a listing duplicates
  // ---------------------------------------------------------------------------------------------

  /** Some listing GitHub may return makes the attempt create a check beside an existing one. */
  ghost predicate MayDuplicate(w: World, r: RunId) {
    exists page ::
      && Possible(w, Lookup(r, Listed(page)))
      && !AtMostOne(Move1(Move1(w, Lookup(r, Listed(page))), Send(r, Delivered)).remote, r)
  }

  /**
   * In every reachable state in which listings have missed nothing so far, the attempt's next listing can end in a
   * second check if and only if it must find an unrecorded one among more than a hundred same-named checks of the
   * commit.
   */
  lemma DuplicatesExactly(w: World, r: RunId)
    requires WorldInv(w, true) && At(w, r).Ready?
    ensures MayDuplicate(w, r) <==> MustFind(w, r) && |Matching(w.remote, At(w, r).payload.head)| > 100
  {
    assert RunOkay(w, r, true);
    if MustFind(w, r) && |Matching(w.remote, At(w, r).payload.head)| > 100 {
      var p :| Owns(w.remote, p, r);
      OwnedMatches(w, r, p, true);
      var page := OverflowingPageDuplicates(w, r, p);
    } else {
      forall page | Possible(w, Lookup(r, Listed(page)))
        ensures AtMostOne(Move1(Move1(w, Lookup(r, Listed(page))), Send(r, Delivered)).remote, r)
      {
        var w1 := Move1(w, Lookup(r, Listed(page)));
        LookupKeeps(w, r, Listed(page), true);
        SendKeeps(w1, r, Delivered, true);
        assert RunOkay(Move1(w1, Send(r, Delivered)), r, true);
      }
    }
  }

  /** A listing that may omit checks omits the run's own; the attempt then creates a second one. */
  lemma OverflowingPageDuplicates(w: World, r: RunId, p: nat) returns (page: seq<nat>)
    requires At(w, r).Ready? && At(w, r).known.None? && At(w, r).payload.external == r
    requires Owns(w.remote, p, r) && AtMostOne(w.remote, r)
    requires p in Matching(w.remote, At(w, r).payload.head)
    requires |Matching(w.remote, At(w, r).payload.head)| > 100
    ensures Possible(w, Lookup(r, Listed(page)))
    ensures var w' := Move1(Move1(w, Lookup(r, Listed(page))), Send(r, Delivered));
            !AtMostOne(w'.remote, r)
  {
    var payload := At(w, r).payload;
    var all := Matching(w.remote, payload.head);
    assert |all - {p}| >= 100;
    page := PickDistinct(all - {p}, 100);
    forall q | q in page ensures !Owns(w.remote, q, r) {
      assert q in all - {p};
    }
    var w1 := Move1(w, Lookup(r, Listed(page)));
    assert At(w1, r) == Absent(payload);
    var w2 := Move1(w1, Send(r, Delivered));
    assert Owns(w2.remote, p, r) && Owns(w2.remote, |w2.remote|, r);
  }

  lemma {:induction false} PickDistinct(s: set<nat>, n: nat) returns (picked: seq<nat>)
    requires |s| >= n
    ensures Distinct(picked) && |picked| == n && forall q | q in picked :: q in s
  {
    if n == 0 {
      picked := [];
    } else {
      var q :| q in s;
      var rest := PickDistinct(s - {q}, n - 1);
      picked := [q] + rest;
    }
  }
}
