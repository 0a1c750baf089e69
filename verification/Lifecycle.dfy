/**
 * Where an accepted run starts, that it can be executed to its end, and what happens to runs nobody executes: stale
 * ones, retired ones, and ones nothing has touched.
 */
module Lifecycle {
  import opened Prelude
  import opened Workflow
  import opened EvidenceWorkflow
  import opened RunStore
  import opened StoreHistory
  import opened StoreTheorems
  import opened Completion

  // ---------------------------------------------------------------------------------------------
  // The outcome of an acceptance
  // ---------------------------------------------------------------------------------------------

  ghost predicate Accepts(s: Store, op: Op, kind: AcceptanceKind) {
    && op.AcceptOp?
    && var o := Accept(s, op.e, op.now, op.newId); o.Ok? && o.value.1.kind == kind
  }

  /** The run is as its event announced it, with nothing done to it yet. */
  ghost predicate Untouched(run: Run, e: Event) {
    && run.delivery == e.delivery && run.revision == e.revision
    && run.headUpdated == e.updated && run.narrative == e.narrative
    && run.phase.ContextPhase? && run.publication.NotStarted?
    && run.mechanical.None? && run.outcome.None?
    && run.created == run.changed && run.version == 1
    && (if run.state.Current? then run.lifecycle.Accepted? && run.reason.None? && run.supersededBy.None?
        else run.lifecycle.Terminal? && run.reason == Some(SupersededReason) && run.supersededBy.Some?)
  }

  /**
   * An acceptance that creates a run stores it, untouched, under the drawn identifier: current if it is created, and
   * superseded by the run that is current if it is stale. A current run it replaces becomes superseded by the new one
   * and terminal, for the reason SUPERSEDED unless it had ended before.
   */
  lemma CreatedExactly(ops: seq<Op>, op: Op)
    requires Accepts(Replay(ops), op, Created) || Accepts(Replay(ops), op, StaleCreated)
    ensures var s, t, k := Replay(ops), Replay(ops + [op]), op.e.revision.pull;
            && op.newId !in s.runs && op.newId in t.runs
            && Untouched(t.runs[op.newId], op.e) && t.runs[op.newId].id == op.newId
            && t.runs[op.newId].created == op.now
            && (t.runs[op.newId].state.Current? <==> Accepts(s, op, Created))
            && k in t.current
            && (Accepts(s, op, Created) ==> t.current[k] == op.newId)
            && (Accepts(s, op, StaleCreated) ==>
                  k in s.current && t.current[k] == s.current[k] && t.runs[op.newId].supersededBy == Some(s.current[k]))
    ensures Accepts(Replay(ops), op, Created) ==> Replaced(Replay(ops), Replay(ops + [op]), op)
  {
    assert (ops + [op])[..|ops|] == ops;
    EveryHistory(ops);
    LedgerFollowsStore(ops);
    var l := Record(ops);
    var k := op.e.revision.pull;
    assert PointerOk(l.store, k);
    if k in l.store.current {
      assert RunOk(l.store, l.store.current[k]);
    }
  }

  /** What a promotion does to the run it replaces. */
  ghost predicate Replaced(s: Store, t: Store, op: Op)
    requires op.AcceptOp?
  {
    var k := op.e.revision.pull;
    k in s.current && s.current[k] in s.runs ==>
      && s.current[k] in t.runs
      && var before, after := s.runs[s.current[k]], t.runs[s.current[k]];
         && after.state.Superseded? && after.supersededBy == Some(op.newId)
         && after.lifecycle.Terminal? && after.changed == op.now && after.version == before.version + 1
         && after.reason == (if before.lifecycle.Terminal? then before.reason else Some(SupersededReason))
         && after.phase == before.phase && after.publication == before.publication
         && after.mechanical == before.mechanical && after.outcome == before.outcome
  }

  /** Every acceptance answers with the stored run that its delivery is bound to from then on. */
  lemma AnswersWithBoundRun(ops: seq<Op>, op: Op)
    requires op.AcceptOp? && Accept(Replay(ops), op.e, op.now, op.newId).Ok?
    ensures var run := Accept(Replay(ops), op.e, op.now, op.newId).value.1.run;
            var t := Replay(ops + [op]);
            && op.e.delivery in t.deliveries && t.deliveries[op.e.delivery] == run.id
            && run.id in t.runs && t.runs[run.id] == run
  {
    assert (ops + [op])[..|ops|] == ops;
    EveryHistory(ops);
    LedgerFollowsStore(ops);
    var l := Record(ops);
    assert RevisionOk(l.store, l.log, op.e.revision) && DeliveryOk(l.store, l.accepted, op.e.delivery);
    if op.e.revision in l.store.revisions {
      assert RunOk(l.store, l.store.revisions[op.e.revision]);
    }
    if op.e.delivery in l.store.deliveries {
      assert RunOk(l.store, l.store.deliveries[op.e.delivery]);
    }
  }

  // --- Which of the four outcomes an arrival has -------------------------------------------------------

  /** The pull request has a current run, and the event is not newer than it. */
  ghost predicate NotNewerThanCurrent(s: Store, e: Event) {
    e.revision.pull in s.current && s.current[e.revision.pull] in s.runs
    && e.updated <= s.runs[s.current[e.revision.pull]].headUpdated
  }

  /** The event's revision is the one that is current. */
  ghost predicate AnnouncesCurrent(s: Store, e: Event) {
    e.revision.pull in s.current && e.revision in s.revisions && s.revisions[e.revision] == s.current[e.revision.pull]
  }

  /**
   * After every history, an accepted arrival is a redelivery exactly if its delivery is known, and then changes
   * nothing; otherwise it refreshes a known revision if that is the current one or the event is not newer than the
   * current run, creates a stale run if the event is not newer and its revision unknown, and a new current run in
   * every other case.
   */
  lemma KindExactly(ops: seq<Op>, op: Op)
    requires op.AcceptOp? && Accept(Replay(ops), op.e, op.now, op.newId).Ok?
    ensures var s, e := Replay(ops), op.e;
            && (Accepts(s, op, DuplicateDelivery) <==> e.delivery in s.deliveries)
            && (Accepts(s, op, DuplicateDelivery) ==> Step(s, op) == s)
            && (e.delivery !in s.deliveries ==>
                  && (Accepts(s, op, DuplicateRevision) <==>
                      e.revision in s.revisions && (AnnouncesCurrent(s, e) || NotNewerThanCurrent(s, e)))
                  && (Accepts(s, op, StaleCreated) <==> e.revision !in s.revisions && NotNewerThanCurrent(s, e))
                  && (Accepts(s, op, Created) <==>
                      !NotNewerThanCurrent(s, e) && !AnnouncesCurrent(s, e)))
  {
    EveryHistory(ops);
    LedgerFollowsStore(ops);
    var l := Record(ops);
    var e := op.e;
    assert RevisionOk(l.store, l.log, e.revision) && PointerOk(l.store, e.revision.pull);
    if e.revision in l.store.revisions {
      assert RunOk(l.store, l.store.revisions[e.revision]);
    }
    if e.revision.pull in l.store.current {
      assert RunOk(l.store, l.store.current[e.revision.pull]);
    }
  }

  /**
   * A refresh takes the event's timestamp and narrative if the event is newer than the run, and raises its version; it
   * writes nothing otherwise, and never anything but the run and the delivery.
   */
  lemma RefreshExactly(ops: seq<Op>, op: Op)
    requires Accepts(Replay(ops), op, DuplicateRevision)
    ensures var s, t, e := Replay(ops), Step(Replay(ops), op), op.e;
            && e.revision in s.revisions && s.revisions[e.revision] in s.runs
            && var id := s.revisions[e.revision];
               && t == s.(runs := t.runs, deliveries := s.deliveries[e.delivery := id])
               && t.runs.Keys == s.runs.Keys && (forall x | x in s.runs && x != id :: t.runs[x] == s.runs[x])
               && (e.updated <= s.runs[id].headUpdated ==> t.runs[id] == s.runs[id])
               && (e.updated > s.runs[id].headUpdated ==>
                     t.runs[id] == s.runs[id].(headUpdated := e.updated, narrative := e.narrative, changed := op.now,
                                               version := s.runs[id].version + 1))
  {
    EveryHistory(ops);
    LedgerFollowsStore(ops);
    var l := Record(ops);
    assert RevisionOk(l.store, l.log, op.e.revision);
    if op.e.revision in l.store.revisions {
      assert RunOk(l.store, l.store.revisions[op.e.revision]);
    }
  }

  // ---------------------------------------------------------------------------------------------
  // Runs nothing has touched
  // ---------------------------------------------------------------------------------------------

  /** Some accepted event created the run; at version 1 the run is still as that event announced it. */
  ghost predicate Born(s: Store, accepted: seq<Event>, id: RunId) {
    id in s.runs ==>
      && s.runs[id].version >= 1
      && exists e :: e in accepted && e.delivery == s.runs[id].delivery && e.revision == s.runs[id].revision
                     && (s.runs[id].version == 1 ==> Untouched(s.runs[id], e))
  }

  lemma AcceptBorn(l: Ledger, op: Op, id: RunId)
    requires Inv(l) && op.AcceptOp? && Born(l.store, l.accepted, id)
    requires forall x :: Born(l.store, l.accepted, x)
    ensures Born(Extend(l, op).store, Extend(l, op).accepted, id)
  {
    var s, m := l.store, Extend(l, op);
    ExtendFollowsStore(l, op);
    ExtendKeepsAccepted(l, op);
    if id in s.runs {
      AcceptMovesForward(l, op, id);
      var e :| e in l.accepted && e.delivery == s.runs[id].delivery && e.revision == s.runs[id].revision
               && (s.runs[id].version == 1 ==> Untouched(s.runs[id], e));
      assert e in m.accepted;
    } else if id in m.store.runs {
      NewRunIsBorn(l, op, id);
    }
  }

  lemma AbsorbingAddsNoRun(l: Ledger, op: Op, id: RunId)
    requires Inv(l) && Accepts(l.store, op, DuplicateRevision)
    ensures id in Step(l.store, op).runs <==> id in l.store.runs
  {
    var known := AcceptAbsorbs(l, op);
    ExtendFollowsStore(l, op);
    assert RefreshedRun(l.store, Extend(l, op).store, op.e, known, id);
  }

  lemma OnlyCreationAddsRuns(l: Ledger, op: Op, id: RunId)
    requires Inv(l) && op.AcceptOp? && id !in l.store.runs && id in Step(l.store, op).runs
    ensures Accepts(l.store, op, Created) || Accepts(l.store, op, StaleCreated)
  {
    if Accepts(l.store, op, DuplicateRevision) {
      AbsorbingAddsNoRun(l, op, id);
    }
  }

  lemma CreatedUntouched(l: Ledger, op: Op)
    requires Inv(l) && (Accepts(l.store, op, Created) || Accepts(l.store, op, StaleCreated))
    ensures op.newId in Step(l.store, op).runs && Untouched(Step(l.store, op).runs[op.newId], op.e)
  {
    var k := op.e.revision.pull;
    assert PointerOk(l.store, k);
    if k in l.store.current {
      assert RunOk(l.store, l.store.current[k]);
    }
  }

  lemma NewRunIsBorn(l: Ledger, op: Op, id: RunId)
    requires Inv(l) && op.AcceptOp? && id !in l.store.runs && id in Step(l.store, op).runs
    ensures op.e in Extend(l, op).accepted && Untouched(Step(l.store, op).runs[id], op.e)
  {
    OnlyCreationAddsRuns(l, op, id);
    AcceptInserts(l, op);
    ExtendFollowsStore(l, op);
    var stale := Accepts(l.store, op, StaleCreated);
    assert KeptRun(l.store, Extend(l, op).store, op.e.revision.pull, op.newId, stale, id);
    CreatedUntouched(l, op);
  }

  lemma OtherBorn(l: Ledger, op: Op, id: RunId)
    requires Inv(l) && !op.AcceptOp? && Born(l.store, l.accepted, id)
    ensures Born(Extend(l, op).store, Extend(l, op).accepted, id)
  {
    ExtendFollowsStore(l, op);
    OtherOpsKeepShape(l.store, op);
    assert SameRun(l.store, Step(l.store, op), id);
    if id in l.store.runs {
      StepMovesForward(l, op, id);
    }
  }

  lemma {:induction false} EveryRunIsBorn(ops: seq<Op>)
    ensures forall id :: Born(Replay(ops), Record(ops).accepted, id)
  {
    LedgerFollowsStore(ops);
    if ops != [] {
      var front, op := ops[..|ops| - 1], ops[|ops| - 1];
      EveryRunIsBorn(front);
      EveryHistory(front);
      LedgerFollowsStore(front);
      forall id ensures Born(Replay(ops), Record(ops).accepted, id) {
        assert Born(Replay(front), Record(front).accepted, id);
        if op.AcceptOp? {
          AcceptBorn(Record(front), op, id);
        } else {
          OtherBorn(Record(front), op, id);
        }
      }
    }
  }

  /**
   * After every history, every run was created for an accepted event of its revision whose delivery it carries; and a
   * run at version 1, which no transaction has written since, is exactly as that event announced it.
   */
  lemma UntouchedRuns(ops: seq<Op>, id: RunId) returns (e: Event)
    requires id in Replay(ops).runs
    ensures e in Record(ops).accepted
    ensures e.delivery == Replay(ops).runs[id].delivery && e.revision == Replay(ops).runs[id].revision
    ensures Replay(ops).runs[id].version >= 1
    ensures Replay(ops).runs[id].version == 1 ==> Untouched(Replay(ops).runs[id], e)
  {
    EveryRunIsBorn(ops);
    assert Born(Replay(ops), Record(ops).accepted, id);
    e :| e in Record(ops).accepted && e.delivery == Replay(ops).runs[id].delivery
         && e.revision == Replay(ops).runs[id].revision
         && (Replay(ops).runs[id].version == 1 ==> Untouched(Replay(ops).runs[id], e));
  }

  // ---------------------------------------------------------------------------------------------
  // An accepted run can be executed to its end
  // ---------------------------------------------------------------------------------------------

  function Lifecycles(l: Lifecycle): Transition { Transition(Some(l), None, None, None, None, None) }

  function Phases(p: Phase): Transition { Transition(None, Some(p), None, None, None, None) }

  /** The transitions of an execution that runs a candidate on both revisions, in order. */
  function Execution(report: Report): seq<Transition> {
    [Lifecycles(Queued), Lifecycles(Running), Phases(ClaimPhase), Phases(TestGeneration), Phases(BaseExecution),
     Phases(HeadExecution), Phases(Assessment), Completing(report)]
  }

  /** The execution's transactions on run `id`, each expecting the version the one before left, from `version` on. */
  function Transactions(id: RunId, version: nat, ts: seq<Transition>, clocks: seq<Time>): seq<Op>
    requires |clocks| == |ts|
  {
    seq(|ts|, i requires 0 <= i < |ts| => TransitionOp(id, version + i, ts[i], clocks[i]))
  }

  /** The run after `n` transitions of its execution. */
  ghost predicate Executed(run: Run, report: Report, n: nat) {
    && n <= 8
    && run.state.Current? && Wellformed(run)
    && run.lifecycle == (if n == 0 then Accepted else if n == 1 then Queued else if n < 8 then Running else Terminal)
    && PhaseOrder(run.phase) == (if n < 3 then 0 else n - 2)
    && (if n < 8 then run.reason.None? && run.mechanical.None? && run.outcome.None? && run.publication.NotStarted?
        else run.reason == Some(Completed) && run.mechanical == Some(report.mechanical)
             && run.outcome == Some(report.outcome) && run.publication.Pending?)
  }

  lemma OneTransition(run: Run, report: Report, n: nat, now: Time)
    requires n < 8 && Executed(run, report, n) && run.changed <= now
    ensures var o := ApplyTransition(run, Execution(report)[n], now);
            o.Ok? && Executed(o.value, report, n + 1) && o.value.changed == now && o.value.version == run.version + 1
  {
  }

  ghost predicate ForwardFrom(start: Time, clocks: seq<Time>) {
    && (clocks != [] ==> start <= clocks[0])
    && forall i, j | 0 <= i < j < |clocks| :: clocks[i] <= clocks[j]
  }

  /** After `n` of the transactions the run is `n` transitions into its execution, at version `n + 1`. */
  ghost predicate Reaches(ops: seq<Op>, id: RunId, report: Report, clocks: seq<Time>, n: nat)
    requires |clocks| == 8 && n <= 8
  {
    var t := Replay(ops + Transactions(id, 1, Execution(report), clocks)[..n]);
    && id in t.runs && Executed(t.runs[id], report, n) && t.runs[id].version == n + 1
    && (n > 0 ==> t.runs[id].changed == clocks[n - 1])
    && (n < 8 ==> t.runs[id].changed <= clocks[n])
  }

  lemma ReachesNext(ops: seq<Op>, id: RunId, report: Report, clocks: seq<Time>, n: nat)
    requires |clocks| == 8 && n < 8 && Reaches(ops, id, report, clocks, n) && (n < 7 ==> clocks[n] <= clocks[n + 1])
    ensures Reaches(ops, id, report, clocks, n + 1)
  {
    var all := Transactions(id, 1, Execution(report), clocks);
    var before := ops + all[..n];
    OneTransition(Replay(before).runs[id], report, n, clocks[n]);
    ExecutionStep(before, id, report, n, clocks[n]);
    assert ops + all[..n + 1] == before + [all[n]];
  }

  lemma TransitionsExecute(ops: seq<Op>, id: RunId, report: Report, clocks: seq<Time>)
    requires id in Replay(ops).runs && |clocks| == 8
    requires var run := Replay(ops).runs[id];
             Executed(run, report, 0) && run.version == 1 && ForwardFrom(run.changed, clocks)
    ensures Reaches(ops, id, report, clocks, 8)
  {
    assert ops + Transactions(id, 1, Execution(report), clocks)[..0] == ops;
    for n := 0 to 8
      invariant Reaches(ops, id, report, clocks, n)
    {
      ReachesNext(ops, id, report, clocks, n);
    }
  }

  lemma ExecutionStep(before: seq<Op>, id: RunId, report: Report, n: nat, now: Time)
    requires id in Replay(before).runs && n < 8
    requires var run := Replay(before).runs[id];
             Executed(run, report, n) && run.version == n + 1
             && ApplyTransition(run, Execution(report)[n], now).Ok?
    ensures var t := Replay(before + [TransitionOp(id, n + 1, Execution(report)[n], now)]);
            && id in t.runs
            && t.runs[id] == ApplyTransition(Replay(before).runs[id], Execution(report)[n], now).value
  {
    var op := TransitionOp(id, n + 1, Execution(report)[n], now);
    assert (before + [op])[..|before|] == before;
  }

  /**
   * After every history, a created run can be queued, set running, taken through every phase in order and completed
   * with any report, at any clocks that do not run backwards: each transaction is accepted at the version the one
   * before left.
   */
  lemma CreatedRunExecutes(ops: seq<Op>, op: Op, report: Report, clocks: seq<Time>)
    requires Accepts(Replay(ops), op, Created) && |clocks| == 8 && ForwardFrom(op.now, clocks)
    ensures var t := Replay(ops + [op] + Transactions(op.newId, 1, Execution(report), clocks));
            && op.newId in t.runs
            && var run := t.runs[op.newId];
               && run.version == 9 && run.lifecycle.Terminal? && run.reason == Some(Completed)
               && run.phase.PublicationPhase? && run.publication.Pending?
               && run.mechanical == Some(report.mechanical) && run.outcome == Some(report.outcome)
               && run.state.Current? && run.changed == clocks[7]
  {
    CreatedExactly(ops, op);
    var all := Transactions(op.newId, 1, Execution(report), clocks);
    assert all[..8] == all;
    assert Executed(Replay(ops + [op]).runs[op.newId], report, 0);
    TransitionsExecute(ops + [op], op.newId, report, clocks);
  }

  // ---------------------------------------------------------------------------------------------
  // Optimistic locking
  // ---------------------------------------------------------------------------------------------

  /** A transition is accepted only at the run's own version, and raises it; a refused one changes nothing. */
  lemma TransitionNeedsVersion(s: Store, id: RunId, expected: nat, t: Transition, now: Time)
    ensures var o := TransitionRun(s, id, expected, t, now);
            && (o.Ok? <==> id in s.runs && Wellformed(s.runs[id]) && s.runs[id].version == expected
                           && ApplyTransition(s.runs[id], t, now).Ok?)
            && (o.Ok? ==> o.value.1.version == expected + 1 && o.value.0 == s.(runs := s.runs[id := o.value.1]))
  {
  }

  /** Of two writers that read the same version of a run, at most one is ever accepted, whatever happens in between. */
  lemma OneWriterPerVersion(ops: seq<Op>, first: Op, more: seq<Op>, second: Op)
    requires first.TransitionOp? && second.TransitionOp? && first.id == second.id && first.expected == second.expected
    requires TransitionRun(Replay(ops), first.id, first.expected, first.t, first.now).Ok?
    ensures var s := Replay(ops + [first] + more);
            TransitionRun(s, second.id, second.expected, second.t, second.now).Err?
  {
    assert (ops + [first])[..|ops|] == ops;
    var id := first.id;
    TransitionNeedsVersion(Replay(ops), id, first.expected, first.t, first.now);
    RunsOnlyMoveForward(ops + [first], more, id);
    assert id in Replay(ops + [first]).runs && Replay(ops + [first]).runs[id].version == first.expected + 1;
  }

  // ---------------------------------------------------------------------------------------------
  // Failures and attempts
  // ---------------------------------------------------------------------------------------------

  /**
   * The first failure of a run records the phase it failed in and terminates it as FAILED; a later one changes
   * nothing.
   */
  lemma FailureRecordsPhase(s: Store, id: RunId, code: string, now: Time)
    requires FailRun(s, id, code, now).Ok?
    ensures var (t, f) := FailRun(s, id, code, now).value;
            && id in t.failures && t.failures[id] == f
            && (id in s.failures ==> t == s)
            && (id !in s.failures ==>
                  && id in s.runs && id in t.runs
                  && f == FailureRecord(s.runs[id].phase, code, now)
                  && t.runs[id].lifecycle.Terminal? && t.runs[id].reason == Some(Failed)
                  && t.runs[id].phase == s.runs[id].phase)
  {
  }

  /** How many times publication of the run was begun. */
  function Begun(ops: seq<Op>, id: RunId): nat {
    if ops == [] then 0
    else
      var front, op := ops[..|ops| - 1], ops[|ops| - 1];
      Begun(front, id) +
      (if op.BeginOp? && op.id == id && BeginPublication(Replay(front), id, op.payload, op.now).Ok? then 1 else 0)
  }

  ghost predicate Counts(s: Store, t: Store, id: RunId, begun: bool) {
    && (id in t.publications <==> id in s.publications || begun)
    && (id in t.publications ==>
          t.publications[id].attempts ==
          (if id in s.publications then s.publications[id].attempts else 0) + (if begun then 1 else 0))
  }

  /** Beginning a publication counts the attempt and clears the last error; recording an error keeps the count. */
  lemma BeginCounts(s: Store, op: Op, id: RunId)
    requires op.BeginOp?
    ensures var begun := op.id == id && BeginPublication(s, id, op.payload, op.now).Ok?;
            && Counts(s, Step(s, op), id, begun)
            && (begun ==> Step(s, op).publications[id].lastError.None?
                          && Step(s, op).publications[id].payload == op.payload)
  {
  }

  lemma RecordingCounts(s: Store, op: Op, id: RunId)
    requires op.SetCheckOp? || op.ErrorOp? || op.SaveOp?
    ensures Counts(s, Step(s, op), id, false)
    ensures op.ErrorOp? && op.id == id && id in s.publications ==>
              Step(s, op).publications[id].lastError == Some(op.error)
  {
  }

  /** After every history, the attempt count of a publication is the number of times it was begun. */
  lemma {:induction false} AttemptsAreCounted(ops: seq<Op>, id: RunId)
    ensures (id in Replay(ops).publications <==> Begun(ops, id) > 0)
         && (id in Replay(ops).publications ==> Replay(ops).publications[id].attempts == Begun(ops, id))
  {
    if ops != [] {
      var front, op := ops[..|ops| - 1], ops[|ops| - 1];
      AttemptsAreCounted(front, id);
      if op.BeginOp? {
        BeginCounts(Replay(front), op, id);
      } else if op.SetCheckOp? || op.ErrorOp? || op.SaveOp? {
        RecordingCounts(Replay(front), op, id);
      } else {
        RunOpsKeepRecords(Replay(front), op);
      }
    }
  }
}
