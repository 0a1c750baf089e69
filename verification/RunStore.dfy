/**
 * The durable run store of `firestore_store.py`. Every collection is a map; every operation is one Firestore
 * transaction, given first as a function on the whole store and then as the method that performs it.
 */
module RunStore {
  import opened Prelude
  import opened Workflow
  import opened EvidenceWorkflow
  import opened CheckFormat

  /** Digests of documents, injective by construction. */
  datatype EvidenceSha = EvidenceSha(report: Report)
  datatype PayloadSha = PayloadSha(payload: Payload)

  datatype CheckRecord =
      CheckRecord(payload: PayloadSha, check: Option<nat>, attempts: nat, lastError: Option<string>, changed: Time)
  datatype FailureRecord = FailureRecord(phase: Phase, code: string, created: Time)

  datatype Store = Store(
    runs: map<RunId, Run>,
    deliveries: map<string, RunId>,
    revisions: map<RevisionKey, RunId>,
    current: map<PullKey, RunId>,
    evidence: map<RunId, Report>,
    publications: map<RunId, CheckRecord>,
    failures: map<RunId, FailureRecord>)

  const EMPTY := Store(map[], map[], map[], map[], map[], map[], map[])

  datatype AcceptanceKind = Created | DuplicateDelivery | DuplicateRevision | StaleCreated
  datatype Acceptance = Acceptance(kind: AcceptanceKind, run: Run)

  datatype StoreError =
    | RunNotFound | InvalidDocument | AlreadyExists | VersionConflict | HashMismatch
    | EvidenceConflict | PayloadConflict | CheckConflict | NotPositive | PublicationNotStarted
    | Rejected(cause: TransitionError)

  type Outcome<T> = Result<(Store, T), StoreError>

  /** `_get_run_in_transaction`: a document is validated again every time it is read. */
  function Read(s: Store, id: RunId): Result<Run, StoreError> {
    if id !in s.runs then Err(RunNotFound)
    else if !Wellformed(s.runs[id]) then Err(InvalidDocument)
    else Ok(s.runs[id])
  }

  function ReadVia<K>(s: Store, index: map<K, RunId>, key: K): Result<Option<Run>, StoreError> {
    if key !in index then Ok(None)
    else
      match Read(s, index[key])
      case Err(e) => Err(e)
      case Ok(run) => Ok(Some(run))
  }

  /** A known revision absorbs the event unless the event is newer than a different current run. */
  predicate Absorbs(duplicate: Run, current: Option<Run>, e: Event) {
    current.None? || duplicate.id == current.value.id || e.updated <= current.value.headUpdated
  }

  function Refreshed(d: Run, e: Event, now: Time): Run {
    if e.updated > d.headUpdated then
      d.(headUpdated := e.updated, narrative := e.narrative, changed := now, version := d.version + 1)
    else d
  }

  function Absorb(s: Store, d: Run, e: Event, now: Time): Store {
    s.(runs := if e.updated > d.headUpdated then s.runs[d.id := Refreshed(d, e, now)] else s.runs,
       deliveries := s.deliveries[e.delivery := d.id])
  }

  function Retired(c: Run, successor: RunId, now: Time): Run {
    c.(state := Superseded, supersededBy := Some(successor), lifecycle := Terminal,
       reason := if c.lifecycle.Terminal? then c.reason else Some(SupersededReason),
       changed := now, version := c.version + 1)
  }

  predicate IsStale(current: Option<Run>, e: Event) {
    current.Some? && e.updated <= current.value.headUpdated
  }

  function NewRun(current: Option<Run>, e: Event, now: Time, id: RunId): Run {
    var stale := IsStale(current, e);
    Run(id, e.delivery, e.revision, e.updated, e.narrative,
        if stale then Terminal else Accepted, ContextPhase,
        if stale then Some(SupersededReason) else None, None, None, NotStarted,
        if stale then Superseded else Current,
        if stale then Some(current.value.id) else None,
        now, now, 1)
  }

  function Create(s: Store, current: Option<Run>, e: Event, now: Time, id: RunId): Store {
    var run := NewRun(current, e, now, id);
    var retired :=
      if current.Some? && !IsStale(current, e) then s.runs[current.value.id := Retired(current.value, id, now)]
      else s.runs;
    s.(runs := retired[id := run],
       deliveries := s.deliveries[e.delivery := id],
       revisions := s.revisions[e.revision := id],
       current := if IsStale(current, e) then s.current else s.current[e.revision.pull := id])
  }

  /** `accept_pull_request`; `newId` is the identifier `uuid4` drew, and creation fails if it is taken. */
  function Accept(s: Store, e: Event, now: Time, newId: RunId): Outcome<Acceptance> {
    if e.delivery in s.deliveries then
      match Read(s, s.deliveries[e.delivery])
      case Err(x) => Err(x)
      case Ok(run) => Ok((s, Acceptance(DuplicateDelivery, run)))
    else
      match ReadVia(s, s.current, e.revision.pull)
      case Err(x) => Err(x)
      case Ok(current) =>
        match ReadVia(s, s.revisions, e.revision)
        case Err(x) => Err(x)
        case Ok(duplicate) =>
          if duplicate.Some? && Absorbs(duplicate.value, current, e) then
            Ok((Absorb(s, duplicate.value, e, now), Acceptance(DuplicateRevision, Refreshed(duplicate.value, e, now))))
          else if newId in s.runs then Err(AlreadyExists)
          else
            Ok((Create(s, current, e, now, newId),
                Acceptance(if IsStale(current, e) then StaleCreated else Created, NewRun(current, e, now, newId))))
  }

  function TransitionRun(s: Store, id: RunId, expected: nat, t: Transition, now: Time): Outcome<Run> {
    match Read(s, id)
    case Err(x) => Err(x)
    case Ok(run) =>
      if run.version != expected then Err(VersionConflict)
      else
        match ApplyTransition(run, t, now)
        case Err(x) => Err(Rejected(x))
        case Ok(next) => Ok((s.(runs := s.runs[id := next]), next))
  }

  const FAIL := Transition(Some(Terminal), None, Some(Failed), None, None, None)

  function FailRun(s: Store, id: RunId, code: string, now: Time): Outcome<FailureRecord> {
    if id in s.failures then Ok((s, s.failures[id]))
    else
      match Read(s, id)
      case Err(x) => Err(x)
      case Ok(run) =>
        match ApplyTransition(run, FAIL, now)
        case Err(x) => Err(Rejected(x))
        case Ok(next) =>
          var f := FailureRecord(run.phase, code, now);
          Ok((s.(runs := s.runs[id := next], failures := s.failures[id := f]), f))
  }

  function SaveEvidence(s: Store, id: RunId, document: Report, sha: EvidenceSha): Outcome<Report> {
    if EvidenceSha(document) != sha then Err(HashMismatch)
    else
      match Read(s, id)
      case Err(x) => Err(x)
      case Ok(_) =>
        if id in s.evidence then
          if s.evidence[id] != document then Err(EvidenceConflict) else Ok((s, document))
        else Ok((s.(evidence := s.evidence[id := document]), document))
  }

  function BeginPublication(s: Store, id: RunId, payload: PayloadSha, now: Time): Outcome<CheckRecord> {
    match Read(s, id)
    case Err(x) => Err(x)
    case Ok(_) =>
      if id in s.publications && s.publications[id].payload != payload then Err(PayloadConflict)
      else
        var p := if id in s.publications
                 then s.publications[id].(attempts := s.publications[id].attempts + 1, lastError := None,
                                        changed := now)
                 else CheckRecord(payload, None, 1, None, now);
        Ok((s.(publications := s.publications[id := p]), p))
  }

  function SetCheckId(s: Store, id: RunId, check: int, now: Time): Outcome<CheckRecord> {
    if check <= 0 then Err(NotPositive)
    else if id !in s.publications then Err(PublicationNotStarted)
    else if s.publications[id].check.Some? && s.publications[id].check.value != check then Err(CheckConflict)
    else
      var p := s.publications[id].(check := Some(check), changed := now);
      Ok((s.(publications := s.publications[id := p]), p))
  }

  function RecordError(s: Store, id: RunId, error: string, now: Time): Outcome<CheckRecord> {
    if id !in s.publications then Err(PublicationNotStarted)
    else
      var p := s.publications[id].(lastError := Some(error), changed := now);
      Ok((s.(publications := s.publications[id := p]), p))
  }

  /** The outcome of a transaction on the live store: the new contents, or the old ones when it raised. */
  ghost predicate Commits<T(!new)>(before: Store, outcome: Outcome<T>, after: Store, r: Result<T, StoreError>) {
    match outcome
    case Ok((s, v)) => after == s && r == Ok(v)
    case Err(e) => after == before && r == Err(e)
  }

  class FirestoreRunStore {
    var runs: map<RunId, Run>
    var deliveries: map<string, RunId>
    var revisions: map<RevisionKey, RunId>
    var current: map<PullKey, RunId>
    var evidence: map<RunId, Report>
    var publications: map<RunId, CheckRecord>
    var failures: map<RunId, FailureRecord>

    ghost function Contents(): Store reads this {
      Store(runs, deliveries, revisions, current, evidence, publications, failures)
    }

    constructor ()
      ensures Contents() == EMPTY
    {
      runs, deliveries, revisions, current := map[], map[], map[], map[];
      evidence, publications, failures := map[], map[], map[];
    }

    method GetRun(id: RunId) returns (r: Result<Run, StoreError>)
      ensures r == Read(Contents(), id)
    {
      if id !in runs {
        return Err(RunNotFound);
      }
      if !Wellformed(runs[id]) {
        return Err(InvalidDocument);
      }
      return Ok(runs[id]);
    }

    method AcceptPullRequest(e: Event, now: Time, newId: RunId) returns (r: Result<Acceptance, StoreError>)
      modifies this
      ensures Commits(old(Contents()), Accept(old(Contents()), e, now, newId), Contents(), r)
    {
      if e.delivery in deliveries {
        var known := GetRun(deliveries[e.delivery]);
        if known.Err? {
          return Err(known.error);
        }
        return Ok(Acceptance(DuplicateDelivery, known.value));
      }
      var currentRun: Option<Run> := None;
      if e.revision.pull in current {
        var c := GetRun(current[e.revision.pull]);
        if c.Err? {
          return Err(c.error);
        }
        currentRun := Some(c.value);
      }
      if e.revision in revisions {
        var d := GetRun(revisions[e.revision]);
        if d.Err? {
          return Err(d.error);
        }
        var duplicate := d.value;
        if Absorbs(duplicate, currentRun, e) {
          if e.updated > duplicate.headUpdated {
            duplicate := Refreshed(duplicate, e, now);
            runs := runs[duplicate.id := duplicate];
          }
          deliveries := deliveries[e.delivery := duplicate.id];
          return Ok(Acceptance(DuplicateRevision, duplicate));
        }
      }
      if newId in runs {
        return Err(AlreadyExists);
      }
      var stale := currentRun.Some? && e.updated <= currentRun.value.headUpdated;
      if currentRun.Some? && !stale {
        runs := runs[currentRun.value.id := Retired(currentRun.value, newId, now)];
      }
      var run := NewRun(currentRun, e, now, newId);
      runs := runs[newId := run];
      deliveries := deliveries[e.delivery := newId];
      revisions := revisions[e.revision := newId];
      if !stale {
        current := current[e.revision.pull := newId];
      }
      return Ok(Acceptance(if stale then StaleCreated else Created, run));
    }

    method Transition(id: RunId, expected: nat, t: Transition, now: Time) returns (r: Result<Run, StoreError>)
      modifies this`runs
      ensures Commits(old(Contents()), TransitionRun(old(Contents()), id, expected, t, now), Contents(), r)
    {
      var run := GetRun(id);
      if run.Err? {
        return Err(run.error);
      }
      if run.value.version != expected {
        return Err(VersionConflict);
      }
      var next := ApplyTransition(run.value, t, now);
      if next.Err? {
        return Err(Rejected(next.error));
      }
      runs := runs[id := next.value];
      return Ok(next.value);
    }

    method Fail(id: RunId, code: string, now: Time) returns (r: Result<FailureRecord, StoreError>)
      modifies this`runs, this`failures
      ensures Commits(old(Contents()), FailRun(old(Contents()), id, code, now), Contents(), r)
    {
      if id in failures {
        return Ok(failures[id]);
      }
      var run := GetRun(id);
      if run.Err? {
        return Err(run.error);
      }
      var next := ApplyTransition(run.value, FAIL, now);
      if next.Err? {
        return Err(Rejected(next.error));
      }
      var f := FailureRecord(run.value.phase, code, now);
      runs := runs[id := next.value];
      failures := failures[id := f];
      return Ok(f);
    }

    method Save(id: RunId, document: Report, sha: EvidenceSha) returns (r: Result<Report, StoreError>)
      modifies this`evidence
      ensures Commits(old(Contents()), SaveEvidence(old(Contents()), id, document, sha), Contents(), r)
    {
      if EvidenceSha(document) != sha {
        return Err(HashMismatch);
      }
      var run := GetRun(id);
      if run.Err? {
        return Err(run.error);
      }
      if id in evidence {
        if evidence[id] != document {
          return Err(EvidenceConflict);
        }
        return Ok(evidence[id]);
      }
      evidence := evidence[id := document];
      return Ok(document);
    }

    method Begin(id: RunId, payload: PayloadSha, now: Time) returns (r: Result<CheckRecord, StoreError>)
      modifies this`publications
      ensures Commits(old(Contents()), BeginPublication(old(Contents()), id, payload, now), Contents(), r)
    {
      var run := GetRun(id);
      if run.Err? {
        return Err(run.error);
      }
      if id in publications {
        var p := publications[id];
        if p.payload != payload {
          return Err(PayloadConflict);
        }
        p := CheckRecord(payload, p.check, p.attempts + 1, None, now);
        publications := publications[id := p];
        return Ok(p);
      }
      var p := CheckRecord(payload, None, 1, None, now);
      publications := publications[id := p];
      return Ok(p);
    }

    /** `_update_publication`, shared by `set_check_run_id` and `record_publication_error`. */
    method UpdatePublication(id: RunId, check: Option<nat>, error: Option<string>, now: Time)
      returns (r: Result<CheckRecord, StoreError>)
      requires check.Some? ==> check.value > 0
      modifies this`publications
      ensures check.Some? && error.None? ==>
                Commits(old(Contents()), SetCheckId(old(Contents()), id, check.value, now), Contents(), r)
      ensures check.None? && error.Some? ==>
                Commits(old(Contents()), RecordError(old(Contents()), id, error.value, now), Contents(), r)
    {
      if id !in publications {
        return Err(PublicationNotStarted);
      }
      var p := publications[id];
      if check.Some? && p.check.Some? && p.check.value != check.value {
        return Err(CheckConflict);
      }
      p := CheckRecord(p.payload, Keep(check, p.check), p.attempts, Keep(error, p.lastError), now);
      publications := publications[id := p];
      return Ok(p);
    }
  }
}
