/** What holds of the run store after every history, stated on the store itself. */
module StoreTheorems {
  import opened Prelude
  import opened Workflow
  import opened RunStore
  import opened StoreHistory

  // ---------------------------------------------------------------------------------------------
  // Indexes agree with scans
  // ---------------------------------------------------------------------------------------------

  /** A scan of the runs collection. */
  ghost predicate HasRevision(s: Store, k: RevisionKey) {
    exists id :: id in s.runs && s.runs[id].revision == k
  }

  /**
   * After every history: a run is CURRENT exactly when its pull request's pointer names it; the revision index
   * has an entry exactly for the revisions some run has, naming the run created last for it; and a known revision
   * always belongs to a pull request that has a current run.
   */
  lemma IndexesAgreeWithScans(ops: seq<Op>)
    ensures var s := Replay(ops);
            && (forall id | id in s.runs ::
                  && s.runs[id].revision.pull in s.current
                  && (s.runs[id].state.Current? <==> s.current[s.runs[id].revision.pull] == id))
            && (forall k | k in s.current :: s.current[k] in s.runs && s.runs[s.current[k]].revision.pull == k)
            && (forall k :: k in s.revisions <==> HasRevision(s, k))
            && (forall k | k in s.revisions :: LastWith(Record(ops).log, k) == Some(s.revisions[k]))
            && (forall k | k in s.revisions :: k.pull in s.current)
  {
    EveryHistory(ops);
    LedgerFollowsStore(ops);
    var l := Record(ops);
    var s := l.store;
    forall id | id in s.runs
      ensures s.runs[id].revision.pull in s.current
      ensures s.runs[id].state.Current? <==> s.current[s.runs[id].revision.pull] == id
    {
      assert RunOk(s, id) && PointerOk(s, s.runs[id].revision.pull);
    }
    forall k | k in s.current ensures s.current[k] in s.runs && s.runs[s.current[k]].revision.pull == k {
      assert PointerOk(s, k);
    }
    forall k
      ensures k in s.revisions <==> HasRevision(s, k)
      ensures k in s.revisions ==> LastWith(l.log, k) == Some(s.revisions[k]) && k.pull in s.current
    {
      assert RevisionOk(s, l.log, k);
      if k in s.revisions {
        assert RunOk(s, s.revisions[k]);
      } else if id :| id in s.runs && s.runs[id].revision == k {
        assert LoggedOk(s, l.log, id);
        EntryHasLast(l.log, Entry(id, k));
      }
    }
  }

  lemma {:induction false} EntryHasLast(log: seq<Entry>, x: Entry)
    requires x in log
    ensures LastWith(log, x.revision).Some?
  {
    if log[|log| - 1].revision != x.revision {
      assert x in log[..|log| - 1];
      EntryHasLast(log[..|log| - 1], x);
    }
  }

  lemma StepKeepsDeliveries(s: Store, op: Op, d: string)
    requires d in s.deliveries
    ensures d in Step(s, op).deliveries && Step(s, op).deliveries[d] == s.deliveries[d]
  {
    if !op.AcceptOp? {
      OtherOpsKeepShape(s, op);
    }
  }

  lemma {:induction false} DeliveryStaysBound(ops: seq<Op>, more: seq<Op>, d: string)
    requires d in Replay(ops).deliveries
    ensures d in Replay(ops + more).deliveries && Replay(ops + more).deliveries[d] == Replay(ops).deliveries[d]
    decreases |more|
  {
    if more == [] {
      assert ops + more == ops;
    } else {
      var front := more[..|more| - 1];
      DeliveryStaysBound(ops, front, d);
      assert (ops + more)[..|ops + more| - 1] == ops + front;
      StepKeepsDeliveries(Replay(ops + front), more[|more| - 1], d);
    }
  }

  /** A delivery is bound once, to a run of the revision its first event announced, for every later history. */
  lemma DeliveryBoundForever(ops: seq<Op>, more: seq<Op>, e: Event)
    requires e in Record(ops).accepted
    ensures var s := Replay(ops + more);
            && e.delivery in Replay(ops).deliveries && e.delivery in s.deliveries
            && s.deliveries[e.delivery] == Replay(ops).deliveries[e.delivery]
            && s.deliveries[e.delivery] in s.runs
            && s.runs[s.deliveries[e.delivery]].revision == e.revision
  {
    EveryHistory(ops);
    LedgerFollowsStore(ops);
    assert EventBound(Record(ops).store, e);
    DeliveryStaysBound(ops, more, e.delivery);
    EveryHistory(ops + more);
    LedgerFollowsStore(ops + more);
    AcceptedGrows(ops, more, e);
    assert EventBound(Record(ops + more).store, e);
  }

  lemma {:induction false} AcceptedSince(all: seq<Op>, i: nat, e: Event)
    requires i <= |all| && e in Record(all[..i]).accepted
    ensures e in Record(all).accepted
    decreases |all|
  {
    if i == |all| {
      assert all[..i] == all;
    } else {
      var front := all[..|all| - 1];
      assert front[..i] == all[..i];
      AcceptedSince(front, i, e);
      ExtendKeepsAccepted(Record(front), all[|all| - 1]);
    }
  }

  lemma AcceptedGrows(ops: seq<Op>, more: seq<Op>, e: Event)
    requires e in Record(ops).accepted
    ensures e in Record(ops + more).accepted
  {
    assert (ops + more)[..|ops|] == ops;
    AcceptedSince(ops + more, |ops|, e);
  }

  lemma ExtendKeepsAccepted(l: Ledger, op: Op)
    ensures l.accepted <= Extend(l, op).accepted
    ensures forall e | e in Extend(l, op).accepted :: e in l.accepted || (op.AcceptOp? && op.e == e)
  {
  }

  /** The three things an acceptance can do to the store. */
  lemma AcceptForms(s: Store, e: Event, now: Time, newId: RunId)
    ensures var t := Step(s, AcceptOp(e, now, newId));
            || t == s
            || (&& e.revision in s.revisions && s.revisions[e.revision] in s.runs
                && Wellformed(s.runs[s.revisions[e.revision]])
                && t == Absorb(s, s.runs[s.revisions[e.revision]], e, now))
            || (&& newId !in s.runs
                && (e.revision.pull in s.current ==>
                      s.current[e.revision.pull] in s.runs && Wellformed(s.runs[s.current[e.revision.pull]]))
                && t == Create(s, CurrentOf(s, e.revision.pull), e, now, newId))
  {
  }

  // ---------------------------------------------------------------------------------------------
  // Supersession is a finite chain to the current run
  // ---------------------------------------------------------------------------------------------

  /** The run reached after following `superseded_by_run_id` `n` times. */
  function Follow(s: Store, id: RunId, n: nat): Option<RunId>
    decreases n
  {
    if id !in s.runs then None
    else if n == 0 then Some(id)
    else if s.runs[id].supersededBy.None? then None
    else Follow(s, s.runs[id].supersededBy.value, n - 1)
  }

  lemma {:induction false} ClimbToCurrent(s: Store, rank: map<RunId, nat>, id: RunId) returns (n: nat)
    requires CurrentAgrees(s) && Chained(s, rank) && id in s.runs && id in rank
    ensures s.runs[id].revision.pull in s.current
    ensures Follow(s, id, n) == Some(s.current[s.runs[id].revision.pull])
    ensures n + rank[id] <= |s.runs|
    decreases |s.runs| - rank[id]
  {
    assert RunOk(s, id) && LinkOk(s, rank, id);
    if s.runs[id].state.Current? {
      n := 0;
    } else {
      var next := s.runs[id].supersededBy.value;
      assert LinkOk(s, rank, next);
      var m := ClimbToCurrent(s, rank, next);
      n := m + 1;
    }
  }

  /**
   * After every history, every superseded run is terminal, and following the successor links from any run reaches the
   * one current run of its pull request, within as many steps as there are runs.
   */
  lemma SupersessionReachesCurrent(ops: seq<Op>, id: RunId) returns (n: nat)
    requires id in Replay(ops).runs
    ensures var s := Replay(ops);
            var k := s.runs[id].revision.pull;
            && (s.runs[id].state.Superseded? ==> s.runs[id].lifecycle.Terminal?)
            && k in s.current && s.current[k] in s.runs
            && s.runs[s.current[k]].state.Current? && s.runs[s.current[k]].revision.pull == k
            && n <= |s.runs|
            && Follow(s, id, n) == Some(s.current[k])
  {
    EveryHistory(ops);
    LedgerFollowsStore(ops);
    var l := Record(ops);
    assert LinkOk(l.store, l.rank, id) && RunOk(l.store, id) && PointerOk(l.store, l.store.runs[id].revision.pull);
    n := ClimbToCurrent(l.store, l.rank, id);
  }

  // ---------------------------------------------------------------------------------------------
  // The current timestamp
  // ---------------------------------------------------------------------------------------------

  /**
   * Without any assumption on clocks, identifiers or deliveries: the current run's timestamp is the largest of the
   * accepted events of its pull request, and no continuation of the history makes it smaller.
   */
  lemma TimestampIsMaximum(ops: seq<Op>, more: seq<Op>, k: PullKey)
    requires k in Replay(ops).current
    ensures var s := Replay(ops);
            var t := Replay(ops + more);
            && s.current[k] in s.runs && k in t.current && t.current[k] in t.runs
            && (exists e :: e in Record(ops).accepted && e.revision == s.runs[s.current[k]].revision
                            && e.updated == s.runs[s.current[k]].headUpdated
                                && e.narrative == s.runs[s.current[k]].narrative)
            && (forall e | e in Record(ops).accepted && e.revision.pull == k ::
                  e.updated <= s.runs[s.current[k]].headUpdated)
            && s.runs[s.current[k]].headUpdated <= t.runs[t.current[k]].headUpdated
  {
    EveryHistory(ops);
    LedgerFollowsStore(ops);
    EveryHistory(ops + more);
    LedgerFollowsStore(ops + more);
    var l := Record(ops);
    assert PointerOk(l.store, k) && StandsFor(l.store, l.accepted, l.newest, k);
    var e := l.newest[k];
    assert e in l.accepted && e.revision.pull == k;
    forall f | f in l.accepted && f.revision.pull == k
      ensures f.updated <= l.store.runs[l.store.current[k]].headUpdated
    {
      assert NotNewer(l.store, f);
    }
    AcceptedGrows(ops, more, e);
    assert NotNewer(Record(ops + more).store, e);
  }

  // ---------------------------------------------------------------------------------------------
  // Write-once records
  // ---------------------------------------------------------------------------------------------

  /** Stored evidence, the payload hash of a publication and a recorded check id survive from `s` to `t`. */
  ghost predicate WrittenOnce(s: Store, t: Store, id: RunId) {
    && (id in s.evidence ==> id in t.evidence && t.evidence[id] == s.evidence[id])
    && (id in s.publications ==>
          && id in t.publications
          && t.publications[id].payload == s.publications[id].payload
          && (s.publications[id].check.Some? ==> t.publications[id].check == s.publications[id].check))
  }

  lemma RunOpsKeepRecords(s: Store, op: Op)
    requires op.AcceptOp? || op.TransitionOp? || op.FailOp?
    ensures Step(s, op).evidence == s.evidence && Step(s, op).publications == s.publications
  {
    if op.AcceptOp? {
      AcceptForms(s, op.e, op.now, op.newId);
    }
  }

  lemma OneMoreWrittenOnce(s: Store, op: Op, id: RunId)
    ensures WrittenOnce(s, Step(s, op), id)
  {
    if op.AcceptOp? || op.TransitionOp? || op.FailOp? {
      RunOpsKeepRecords(s, op);
    }
  }

  lemma ReplayWritesOnce(ops: seq<Op>, op: Op, id: RunId)
    ensures WrittenOnce(Replay(ops), Replay(ops + [op]), id)
  {
    assert (ops + [op])[..|ops|] == ops;
    OneMoreWrittenOnce(Replay(ops), op, id);
  }

  lemma WrittenOnceTwice(a: Store, b: Store, c: Store, id: RunId)
    requires WrittenOnce(a, b, id) && WrittenOnce(b, c, id)
    ensures WrittenOnce(a, c, id)
  {
  }

  /** Whatever happens after `ops`, the records of a run are not rewritten. */
  lemma RecordsAreWriteOnce(ops: seq<Op>, more: seq<Op>, id: RunId)
    ensures WrittenOnce(Replay(ops), Replay(ops + more), id)
  {
    assert ops + more[..0] == ops && ops + more[..|more|] == ops + more;
    for k := 0 to |more|
      invariant WrittenOnce(Replay(ops), Replay(ops + more[..k]), id)
    {
      StillWrittenOnce(ops, more, k, id);
    }
  }

  lemma StillWrittenOnce(ops: seq<Op>, more: seq<Op>, k: nat, id: RunId)
    requires k < |more| && WrittenOnce(Replay(ops), Replay(ops + more[..k]), id)
    ensures WrittenOnce(Replay(ops), Replay(ops + more[..k + 1]), id)
  {
    assert ops + more[..k + 1] == ops + more[..k] + [more[k]];
    ReplayWritesOnce(ops + more[..k], more[k], id);
    WrittenOnceTwice(Replay(ops), Replay(ops + more[..k]), Replay(ops + more[..k + 1]), id);
  }

  // ---------------------------------------------------------------------------------------------
  // Runs only move forward
  // ---------------------------------------------------------------------------------------------

  /** Everything later history may do to a stored run. */
  ghost predicate Forward(a: Run, b: Run) {
    && a.id == b.id && a.revision == b.revision && a.delivery == b.delivery && a.created == b.created
    && a.headUpdated <= b.headUpdated
    && (a.headUpdated == b.headUpdated ==> a.narrative == b.narrative)
    && a.version <= b.version && (a.version == b.version ==> a == b)
    && (a.state.Superseded? ==> b.state.Superseded? && b.supersededBy == a.supersededBy)
    && (a.lifecycle.Terminal? ==> b.lifecycle.Terminal? && b.reason == a.reason)
    && (a.mechanical.Some? ==> b.mechanical == a.mechanical)
    && (a.outcome.Some? ==> b.outcome == a.outcome)
    && (a.publication.Published? ==> b.publication.Published?)
    && (a.publication.TerminalFailure? ==> b.publication.TerminalFailure?)
    && PhaseOrder(a.phase) <= PhaseOrder(b.phase)
  }

  ghost predicate MovesForward(s: Store, t: Store, id: RunId) {
    id in s.runs ==> id in t.runs && Forward(s.runs[id], t.runs[id])
  }

  lemma AppliedIsForward(run: Run, t: Transition, now: Time)
    requires Wellformed(run) && ApplyTransition(run, t, now).Ok?
    ensures Forward(run, ApplyTransition(run, t, now).value)
  {
  }

  lemma TransitionMovesForward(s: Store, op: Op, id: RunId)
    requires op.TransitionOp?
    ensures MovesForward(s, Step(s, op), id)
  {
    if op.id in s.runs && Wellformed(s.runs[op.id]) && ApplyTransition(s.runs[op.id], op.t, op.now).Ok? {
      AppliedIsForward(s.runs[op.id], op.t, op.now);
    }
  }

  lemma FailMovesForward(s: Store, op: Op, id: RunId)
    requires op.FailOp?
    ensures MovesForward(s, Step(s, op), id)
  {
    if op.id in s.runs && Wellformed(s.runs[op.id]) && ApplyTransition(s.runs[op.id], FAIL, op.now).Ok? {
      AppliedIsForward(s.runs[op.id], FAIL, op.now);
    }
  }

  lemma ForwardForward(a: Store, b: Store, c: Store, id: RunId)
    requires MovesForward(a, b, id) && MovesForward(b, c, id)
    ensures MovesForward(a, c, id)
  {
  }

  lemma AcceptMovesForward(l: Ledger, op: Op, id: RunId)
    requires Inv(l) && op.AcceptOp?
    ensures MovesForward(l.store, Step(l.store, op), id)
  {
    var s, k := l.store, op.e.revision;
    AcceptForms(s, op.e, op.now, op.newId);
    assert RevisionOk(s, l.log, k) && PointerOk(s, k.pull);
    if k in s.revisions {
      assert RunOk(s, s.revisions[k]);
    }
    if k.pull in s.current {
      assert RunOk(s, s.current[k.pull]);
    }
  }

  lemma StepMovesForward(l: Ledger, op: Op, id: RunId)
    requires Inv(l)
    ensures MovesForward(l.store, Step(l.store, op), id)
  {
    if op.AcceptOp? {
      AcceptMovesForward(l, op, id);
    } else if op.TransitionOp? {
      TransitionMovesForward(l.store, op, id);
    } else if op.FailOp? {
      FailMovesForward(l.store, op, id);
    } else {
      RecordOpsKeepShape(l.store, op);
      assert Step(l.store, op).runs == l.store.runs;
    }
  }

  /**
   * Whatever happens after `ops`, a stored run stays, keeps its identity, never goes back in lifecycle, phase or
   * timestamp, never loses its successor, its terminal reason, its recorded results or its published mark, and changes
   * at all only under a higher version.
   */
  lemma RunsOnlyMoveForward(ops: seq<Op>, more: seq<Op>, id: RunId)
    ensures MovesForward(Replay(ops), Replay(ops + more), id)
  {
    assert ops + more[..0] == ops && ops + more[..|more|] == ops + more;
    for k := 0 to |more|
      invariant MovesForward(Replay(ops), Replay(ops + more[..k]), id)
    {
      StillForward(ops, more, k, id);
    }
  }

  lemma StillForward(ops: seq<Op>, more: seq<Op>, k: nat, id: RunId)
    requires k < |more| && MovesForward(Replay(ops), Replay(ops + more[..k]), id)
    ensures MovesForward(Replay(ops), Replay(ops + more[..k + 1]), id)
  {
    assert ops + more[..k + 1] == ops + more[..k] + [more[k]];
    OneMoreMovesForward(ops + more[..k], more[k], id);
    ForwardForward(Replay(ops), Replay(ops + more[..k]), Replay(ops + more[..k + 1]), id);
  }

  lemma OneMoreMovesForward(ops: seq<Op>, op: Op, id: RunId)
    ensures MovesForward(Replay(ops), Replay(ops + [op]), id)
  {
    assert (ops + [op])[..|ops|] == ops;
    EveryHistory(ops);
    LedgerFollowsStore(ops);
    StepMovesForward(Record(ops), op, id);
  }
}
