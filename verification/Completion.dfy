/**
 * How an execution ends on the store (`evidence_workflow.py`, `_persist_terminal`), and what a COMPLETED run therefore
 * records, over every history.
 */
module Completion {
  import opened Prelude
  import opened Workflow
  import opened EvidenceWorkflow
  import opened RunStore
  import opened StoreHistory
  import opened StoreTheorems

  function Completing(report: Report): Transition {
    Transition(Some(Terminal), Some(PublicationPhase), Some(Completed), Some(report.mechanical), Some(report.outcome),
               Some(Pending))
  }

  function SaveOf(id: RunId, report: Report): Op { SaveOp(id, report, EvidenceSha(report)) }

  function CompletionOf(s: Store, id: RunId, report: Report, now: Time): Op {
    TransitionOp(id, if id in s.runs then s.runs[id].version else 0, Completing(report), now)
  }

  /** `_persist_terminal`: save the report, then read the run again and complete it, whatever version it then has. */
  function Persisted(s: Store, id: RunId, report: Report, now: Time): Store {
    var saved := Step(s, SaveOf(id, report));
    Step(saved, CompletionOf(saved, id, report, now))
  }

  method PersistTerminal(store: FirestoreRunStore, id: RunId, report: Report, now: Time)
      returns (r: Result<Run, StoreError>)
    modifies store
    ensures r.Ok? ==> store.Contents() == Persisted(old(store.Contents()), id, report, now)
    ensures r.Ok? <==> Completes(old(store.Contents()), id, report, now)
    ensures r.Ok? ==>
              && store.evidence == old(store.evidence)[id := report]
              && id in store.runs && store.runs[id] == r.value && r.value.lifecycle.Terminal?
              && r.value.reason == Some(Completed) && r.value.phase.PublicationPhase? && r.value.publication.Pending?
              && r.value.mechanical == Some(report.mechanical) && r.value.outcome == Some(report.outcome)
    ensures r.Err? ==> store.Contents() in {old(store.Contents()), Step(old(store.Contents()), SaveOf(id, report))}
  {
    var stored := store.Save(id, report, EvidenceSha(report));
    if stored.Err? {
      return Err(stored.error);
    }
    var latest := store.GetRun(id);
    r := store.Transition(id, latest.value.version, Completing(report), now);
  }

  /**
   * When completing succeeds: the run is current, its clock has not run back, and nothing recorded contradicts the
   * report.
   */
  predicate Completes(s: Store, id: RunId, report: Report, now: Time) {
    && id in s.runs && Wellformed(s.runs[id])
    && (id in s.evidence ==> s.evidence[id] == report)
    && var run := s.runs[id];
       && run.state.Current? && run.changed <= now
       && run.publication in {NotStarted, Pending, RetryableFailure}
       && run.reason in {None, Some(Completed)}
       && run.mechanical in {None, Some(report.mechanical)}
       && run.outcome in {None, Some(report.outcome)}
       && !Already(run, report)
  }

  /** The run records exactly this completion already, so the transition would change nothing. */
  predicate Already(run: Run, report: Report) {
    && run.lifecycle.Terminal? && run.phase.PublicationPhase? && run.publication.Pending?
        && run.reason == Some(Completed)
    && run.mechanical == Some(report.mechanical) && run.outcome == Some(report.outcome)
  }

  // --- What a completed run records --------------------------------------------------------------------

  /** Completing a run, and recording results, is done by `_persist_terminal` alone, after it saved the report. */
  ghost predicate CompletesByWorker(s: Store, op: Op) {
    op.TransitionOp? && (op.t.reason == Some(Completed) || op.t.mechanical.Some? || op.t.outcome.Some?) ==>
      op.id in s.evidence && op.t == Completing(s.evidence[op.id])
  }

  ghost predicate OnlyWorkersComplete(ops: seq<Op>) {
    ops != [] ==>
      OnlyWorkersComplete(ops[..|ops| - 1]) && CompletesByWorker(Replay(ops[..|ops| - 1]), ops[|ops| - 1])
  }

  /** The run records only what its stored evidence says; and both results once it is COMPLETED. */
  ghost predicate RecordsEvidence(s: Store, id: RunId) {
    id in s.runs ==>
      var run := s.runs[id];
      && (run.mechanical.Some? ==> id in s.evidence && run.mechanical == Some(s.evidence[id].mechanical))
      && (run.outcome.Some? ==> id in s.evidence && run.outcome == Some(s.evidence[id].outcome))
      && (run.reason == Some(Completed) ==> run.mechanical.Some? && run.outcome.Some?)
  }

  lemma AcceptKeepsResults(l: Ledger, op: Op, id: RunId)
    requires Inv(l) && op.AcceptOp? && RecordsEvidence(l.store, id)
    ensures RecordsEvidence(Step(l.store, op), id)
  {
    var s, k := l.store, op.e.revision;
    AcceptForms(s, op.e, op.now, op.newId);
    assert RevisionOk(s, l.log, k) && PointerOk(s, k.pull);
    if k in s.revisions {
      assert RunOk(s, s.revisions[k]);
    }
    if k.pull in s.current {
      assert RunOk(s, s.current[k.pull]);
    }
  }

  lemma AppliedResults(run: Run, t: Transition, now: Time)
    requires ApplyTransition(run, t, now).Ok?
    ensures var next := ApplyTransition(run, t, now).value;
            && next.mechanical == Keep(t.mechanical, run.mechanical)
            && next.outcome == Keep(t.outcome, run.outcome)
            && next.reason == Keep(t.reason, run.reason)
  {
  }

  lemma TransitionKeepsResults(s: Store, op: Op, id: RunId)
    requires op.TransitionOp? && CompletesByWorker(s, op) && RecordsEvidence(s, id)
    ensures RecordsEvidence(Step(s, op), id)
  {
    if op.id in s.runs && Wellformed(s.runs[op.id]) && ApplyTransition(s.runs[op.id], op.t, op.now).Ok? {
      AppliedResults(s.runs[op.id], op.t, op.now);
    }
  }

  lemma FailKeepsResults(s: Store, op: Op, id: RunId)
    requires op.FailOp? && RecordsEvidence(s, id)
    ensures RecordsEvidence(Step(s, op), id)
  {
    if op.id in s.runs && Wellformed(s.runs[op.id]) && ApplyTransition(s.runs[op.id], FAIL, op.now).Ok? {
      AppliedResults(s.runs[op.id], FAIL, op.now);
    }
  }

  lemma RecordOpsKeepResults(s: Store, op: Op, id: RunId)
    requires op.SaveOp? || op.BeginOp? || op.SetCheckOp? || op.ErrorOp?
    requires RecordsEvidence(s, id)
    ensures RecordsEvidence(Step(s, op), id)
  {
    assert Step(s, op).runs == s.runs;
    OneMoreWrittenOnce(s, op, id);
  }

  lemma StepKeepsResults(l: Ledger, op: Op, id: RunId)
    requires Inv(l) && CompletesByWorker(l.store, op) && RecordsEvidence(l.store, id)
    ensures RecordsEvidence(Step(l.store, op), id)
  {
    if op.AcceptOp? {
      AcceptKeepsResults(l, op, id);
    } else if op.TransitionOp? {
      TransitionKeepsResults(l.store, op, id);
    } else if op.FailOp? {
      FailKeepsResults(l.store, op, id);
    } else {
      RecordOpsKeepResults(l.store, op, id);
    }
  }

  /**
   * After every history, the results a run records are those of its stored evidence, and a COMPLETED run records both:
   * superseding, failing, refreshing or publishing it changes nothing about that.
   */
  lemma {:induction false} CompletedMatchesEvidence(ops: seq<Op>, id: RunId)
    requires OnlyWorkersComplete(ops)
    ensures RecordsEvidence(Replay(ops), id)
  {
    if ops != [] {
      var front, op := ops[..|ops| - 1], ops[|ops| - 1];
      CompletedMatchesEvidence(front, id);
      EveryHistory(front);
      LedgerFollowsStore(front);
      StepKeepsResults(Record(front), op, id);
    }
  }
}
