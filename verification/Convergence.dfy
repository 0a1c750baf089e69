/**
 * When a pull request converges to its newest event, exactly: which documents stay readable, which arrivals are
 * rejected, and what a clock that falls behind a run's creation does.
 */
module Convergence {
  import opened Prelude
  import opened Workflow
  import opened RunStore
  import opened StoreHistory
  import opened StoreTheorems

  // ---------------------------------------------------------------------------------------------
  // Which documents can be read back
  // ---------------------------------------------------------------------------------------------

  ghost predicate AllReadable(s: Store) { forall id | id in s.runs :: Wellformed(s.runs[id]) }

  /** The acceptance writes to the stored run `id`: it refreshes a known revision, or retires the current run. */
  predicate Rewrites(s: Store, op: Op, id: RunId) {
    && op.AcceptOp? && id in s.runs
    && var o := Accept(s, op.e, op.now, op.newId);
       && o.Ok?
       && match o.value.1.kind
          case DuplicateRevision =>
            op.e.revision in s.revisions && s.revisions[op.e.revision] == id && op.e.updated > s.runs[id].headUpdated
          case Created => op.e.revision.pull in s.current && s.current[op.e.revision.pull] == id
          case _ => false
  }

  /** The clock of the transaction has not fallen behind the creation of a run it writes to. */
  ghost predicate OnTime(s: Store, op: Op) {
    forall id :: Rewrites(s, op, id) ==> s.runs[id].created <= op.now
  }

  /** Every acceptance that refreshed or retired a run had a clock not before that run's creation. */
  ghost predicate Punctual(ops: seq<Op>) {
    ops != [] ==> Punctual(ops[..|ops| - 1]) && OnTime(Replay(ops[..|ops| - 1]), ops[|ops| - 1])
  }

  /**
   * A refreshed run can be read back exactly when nothing was written or the clock had not fallen behind its creation.
   */
  lemma RefreshReadableExactly(d: Run, e: Event, now: Time)
    requires Wellformed(d)
    ensures Wellformed(Refreshed(d, e, now)) <==> (e.updated <= d.headUpdated || d.created <= now)
  {
  }

  lemma RetiredReadableExactly(c: Run, successor: RunId, now: Time)
    requires Wellformed(c)
    ensures Wellformed(Retired(c, successor, now)) <==> c.created <= now
  {
  }

  lemma AcceptReadable(l: Ledger, op: Op)
    requires Inv(l) && op.AcceptOp? && AllReadable(l.store)
    ensures AllReadable(Step(l.store, op)) <==> OnTime(l.store, op)
  {
    var s, e := l.store, op.e;
    var o := Accept(s, e, op.now, op.newId);
    assert RevisionOk(s, l.log, e.revision) && PointerOk(s, e.revision.pull);
    if o.Ok? && o.value.1.kind == DuplicateRevision {
      AbsorbReadable(l, op);
    } else if o.Ok? && o.value.1.kind in {Created, StaleCreated} {
      CreateReadable(l, op);
    }
  }

  lemma AbsorbReadable(l: Ledger, op: Op)
    requires Inv(l) && op.AcceptOp? && AllReadable(l.store)
    requires var o := Accept(l.store, op.e, op.now, op.newId); o.Ok? && o.value.1.kind == DuplicateRevision
    ensures AllReadable(Step(l.store, op)) <==> OnTime(l.store, op)
  {
    var s, e := l.store, op.e;
    assert RevisionOk(s, l.log, e.revision);
    var id := s.revisions[e.revision];
    assert RunOk(s, id);
    var t := Step(s, op);
    assert t == Absorb(s, s.runs[id], e, op.now);
    RefreshReadableExactly(s.runs[id], e, op.now);
    assert forall x :: Rewrites(s, op, x) <==> x == id && e.updated > s.runs[id].headUpdated;
    assert t.runs[id] == Refreshed(s.runs[id], e, op.now);
  }

  lemma CreateReadable(l: Ledger, op: Op)
    requires Inv(l) && op.AcceptOp? && AllReadable(l.store)
    requires var o := Accept(l.store, op.e, op.now, op.newId); o.Ok? && o.value.1.kind in {Created, StaleCreated}
    ensures AllReadable(Step(l.store, op)) <==> OnTime(l.store, op)
  {
    var s, e := l.store, op.e;
    var k := e.revision.pull;
    assert PointerOk(s, k);
    var current := CurrentOf(s, k);
    var t := Step(s, op);
    assert t == Create(s, current, e, op.now, op.newId);
    assert t.runs[op.newId] == NewRun(current, e, op.now, op.newId);
    if current.Some? {
      var id := s.current[k];
      assert RunOk(s, id);
      RetiredReadableExactly(current.value, op.newId, op.now);
      assert forall x :: Rewrites(s, op, x) <==> x == id && !IsStale(current, e);
      assert t.runs[id] == if IsStale(current, e) then s.runs[id] else Retired(s.runs[id], op.newId, op.now);
    }
  }

  lemma OtherOpsReadable(s: Store, op: Op)
    requires !op.AcceptOp? && AllReadable(s)
    ensures AllReadable(Step(s, op))
  {
    if op.TransitionOp? {
      var o := TransitionRun(s, op.id, op.expected, op.t, op.now);
    } else if op.FailOp? {
      var o := FailRun(s, op.id, op.code, op.now);
    } else {
      assert Step(s, op).runs == s.runs;
    }
  }

  lemma AcceptKeepsUnreadable(l: Ledger, op: Op, id: RunId)
    requires Inv(l) && op.AcceptOp? && id in l.store.runs && !Wellformed(l.store.runs[id])
    ensures id in Step(l.store, op).runs && Step(l.store, op).runs[id] == l.store.runs[id]
  {
    var s, k := l.store, op.e.revision;
    AcceptForms(s, op.e, op.now, op.newId);
    assert RevisionOk(s, l.log, k) && PointerOk(s, k.pull);
    if k in s.revisions {
      assert RunOk(s, s.revisions[k]);
    }
    if k.pull in s.current {
      assert RunOk(s, s.current[k.pull]);
    }
  }

  lemma TransitionKeepsUnreadable(s: Store, op: Op, id: RunId)
    requires (op.TransitionOp? || op.FailOp?) && id in s.runs && !Wellformed(s.runs[id])
    ensures id in Step(s, op).runs && Step(s, op).runs[id] == s.runs[id]
  {
  }

  /** A document that does not validate is never written again: every write reads it first. */
  lemma UnreadableStays(l: Ledger, op: Op, id: RunId)
    requires Inv(l) && id in l.store.runs && !Wellformed(l.store.runs[id])
    ensures id in Step(l.store, op).runs && Step(l.store, op).runs[id] == l.store.runs[id]
  {
    if op.AcceptOp? {
      AcceptKeepsUnreadable(l, op, id);
    } else if op.TransitionOp? || op.FailOp? {
      TransitionKeepsUnreadable(l.store, op, id);
    } else {
      assert Step(l.store, op).runs == l.store.runs;
    }
  }

  lemma StepReadable(l: Ledger, op: Op)
    requires Inv(l)
    ensures AllReadable(Step(l.store, op)) <==> AllReadable(l.store) && OnTime(l.store, op)
  {
    if !AllReadable(l.store) {
      var id :| id in l.store.runs && !Wellformed(l.store.runs[id]);
      UnreadableStays(l, op, id);
    } else if op.AcceptOp? {
      AcceptReadable(l, op);
    } else {
      OtherOpsReadable(l.store, op);
    }
  }

  /**
   * After every history, every stored run can be read back if and only if each acceptance that refreshed or retired a
   * run had a clock not before that run's creation.
   */
  lemma {:induction false} ReadableExactly(ops: seq<Op>)
    ensures AllReadable(Replay(ops)) <==> Punctual(ops)
  {
    if ops != [] {
      var front, op := ops[..|ops| - 1], ops[|ops| - 1];
      ReadableExactly(front);
      EveryHistory(front);
      LedgerFollowsStore(front);
      StepReadable(Record(front), op);
    }
  }

  // ---------------------------------------------------------------------------------------------
  // Which arrivals are rejected
  // ---------------------------------------------------------------------------------------------

  /** Every identifier drawn for a run is new. */
  ghost predicate FreshIds(ops: seq<Op>) {
    forall i, j | 0 <= i < j < |ops| && ops[i].AcceptOp? && ops[j].AcceptOp? :: ops[i].newId != ops[j].newId
  }

  /** A delivery identifier always announces the same event. */
  ghost predicate ConsistentDeliveries(ops: seq<Op>) {
    forall i, j | 0 <= i < |ops| && 0 <= j < |ops| && ops[i].AcceptOp? && ops[j].AcceptOp? ::
      ops[i].e.delivery == ops[j].e.delivery ==> ops[i].e == ops[j].e
  }

  /**
   * Accepting `e` reads the stored run `id`: the one its delivery is bound to, or the current one and its revision's.
   */
  predicate ReadsRun(s: Store, e: Event, id: RunId) {
    if e.delivery in s.deliveries then s.deliveries[e.delivery] == id
    else
      || (e.revision.pull in s.current && s.current[e.revision.pull] == id)
      || (e.revision in s.revisions && s.revisions[e.revision] == id)
  }

  /** Everything that accepting `e` reads is stored and validates. */
  ghost predicate ReadsWell(s: Store, e: Event) {
    forall id :: ReadsRun(s, e, id) ==> id in s.runs && Wellformed(s.runs[id])
  }

  lemma {:induction false} RunsWereDrawn(ops: seq<Op>, id: RunId)
    requires id in Replay(ops).runs
    ensures exists i :: 0 <= i < |ops| && ops[i].AcceptOp? && ops[i].newId == id
  {
    var front, op := ops[..|ops| - 1], ops[|ops| - 1];
    if !op.AcceptOp? {
      OtherOpsKeepShape(Replay(front), op);
      SameKeys(Replay(front), Replay(ops));
    }
    if id in Replay(front).runs {
      RunsWereDrawn(front, id);
      var i :| 0 <= i < |front| && front[i].AcceptOp? && front[i].newId == id;
      assert ops[i] == front[i];
    } else {
      EveryHistory(front);
      LedgerFollowsStore(front);
      AcceptDraws(Record(front), op, id);
      assert ops[|ops| - 1].newId == id;
    }
  }

  lemma AcceptDraws(l: Ledger, op: Op, id: RunId)
    requires Inv(l) && op.AcceptOp?
    requires id !in l.store.runs && id in Step(l.store, op).runs
    ensures op.newId == id
  {
    var s, k := l.store, op.e.revision;
    AcceptForms(s, op.e, op.now, op.newId);
    assert RevisionOk(s, l.log, k) && PointerOk(s, k.pull);
    if k in s.revisions {
      assert RunOk(s, s.revisions[k]);
    }
    if k.pull in s.current {
      assert RunOk(s, s.current[k.pull]);
    }
  }

  lemma NewIdIsFree(front: seq<Op>, op: Op)
    requires op.AcceptOp? && FreshIds(front + [op])
    ensures op.newId !in Replay(front).runs
  {
    var ops := front + [op];
    assert ops[|front|] == op;
    forall i | 0 <= i < |front| && front[i].AcceptOp? ensures front[i].newId != op.newId {
      assert ops[i] == front[i];
    }
    if op.newId in Replay(front).runs {
      RunsWereDrawn(front, op.newId);
    }
  }

  lemma AcceptedWhenReadsWell(l: Ledger, e: Event, now: Time, newId: RunId)
    requires Inv(l) && newId !in l.store.runs
    ensures Accept(l.store, e, now, newId).Ok? <==> ReadsWell(l.store, e)
  {
    var s := l.store;
    assert PointerOk(s, e.revision.pull) && RevisionOk(s, l.log, e.revision) && DeliveryOk(s, l.accepted, e.delivery);
    assert e.delivery in s.deliveries ==> ReadsRun(s, e, s.deliveries[e.delivery]);
    if e.delivery !in s.deliveries {
      assert e.revision.pull in s.current ==> ReadsRun(s, e, s.current[e.revision.pull]);
      assert e.revision in s.revisions ==> ReadsRun(s, e, s.revisions[e.revision]);
    }
  }

  /** With new run identifiers, an arrival is rejected if and only if some document it reads does not validate. */
  lemma RejectedExactly(front: seq<Op>, op: Op)
    requires op.AcceptOp? && FreshIds(front + [op])
    ensures Accept(Replay(front), op.e, op.now, op.newId).Err? <==>
            exists id :: ReadsRun(Replay(front), op.e, id) && id in Replay(front).runs
                && !Wellformed(Replay(front).runs[id])
  {
    EveryHistory(front);
    LedgerFollowsStore(front);
    NewIdIsFree(front, op);
    var l := Record(front);
    AcceptedWhenReadsWell(l, op.e, op.now, op.newId);
    forall id | ReadsRun(l.store, op.e, id) ensures id in l.store.runs {
      assert PointerOk(l.store, op.e.revision.pull) && RevisionOk(l.store, l.log, op.e.revision);
      assert DeliveryOk(l.store, l.accepted, op.e.delivery);
    }
  }

  // ---------------------------------------------------------------------------------------------
  // Convergence
  // ---------------------------------------------------------------------------------------------

  /** The `i`-th transaction announces `m`, and everything it reads validates. */
  ghost predicate ArrivesReadable(ops: seq<Op>, i: nat, m: Event) {
    i < |ops| && ops[i].AcceptOp? && ops[i].e == m && ReadsWell(Replay(ops[..i]), m)
  }

  lemma ExtendAddsEvent(l: Ledger, op: Op)
    requires op.AcceptOp? && Accept(l.store, op.e, op.now, op.newId).Ok?
    ensures op.e in Extend(l, op).accepted || op.e.delivery in l.store.deliveries
    ensures l.accepted <= Extend(l, op).accepted
  {
  }

  lemma RedeliveryIsKnown(ops: seq<Op>, front: seq<Op>, e: Event)
    requires ConsistentDeliveries(ops) && front <= ops && Inv(Record(front))
    requires exists i :: |front| <= i < |ops| && ops[i].AcceptOp? && ops[i].e == e
    requires e.delivery in Record(front).store.deliveries
    ensures e in Record(front).accepted
  {
    var l := Record(front);
    assert DeliveryOk(l.store, l.accepted, e.delivery);
    var f :| f in l.accepted && f.delivery == e.delivery;
    var i := AcceptedArrived(front, f);
    assert ops[i].e == f;
  }

  lemma LastIsAccepted(front: seq<Op>, op: Op)
    requires op.AcceptOp? && FreshIds(front + [op]) && ConsistentDeliveries(front + [op])
    requires ReadsWell(Replay(front), op.e)
    ensures op.e in Record(front + [op]).accepted
  {
    var ops := front + [op];
    assert ops[..|ops| - 1] == front && ops[|front|] == op;
    EveryHistory(front);
    LedgerFollowsStore(front);
    NewIdIsFree(front, op);
    var l := Record(front);
    AcceptedWhenReadsWell(l, op.e, op.now, op.newId);
    ExtendAddsEvent(l, op);
    if op.e.delivery in l.store.deliveries {
      RedeliveryIsKnown(ops, front, op.e);
    }
  }

  lemma {:induction false} AcceptedArrived(ops: seq<Op>, e: Event) returns (i: nat)
    requires e in Record(ops).accepted
    ensures i < |ops| && ops[i].AcceptOp? && ops[i].e == e
    ensures Accept(Replay(ops[..i]), e, ops[i].now, ops[i].newId).Ok?
  {
    var front, op := ops[..|ops| - 1], ops[|ops| - 1];
    if e in Record(front).accepted {
      i := AcceptedArrived(front, e);
      assert front[..i] == ops[..i];
    } else {
      i := |ops| - 1;
      LedgerFollowsStore(front);
      ExtendAccepts(Record(front), op, e);
    }
  }

  lemma ExtendAccepts(l: Ledger, op: Op, e: Event)
    requires e in Extend(l, op).accepted && e !in l.accepted
    ensures op.AcceptOp? && op.e == e && Accept(l.store, e, op.now, op.newId).Ok?
  {
  }

  lemma FreshPrefix(ops: seq<Op>, i: nat)
    requires i < |ops| && FreshIds(ops) && ConsistentDeliveries(ops)
    ensures ops[..i] + [ops[i]] == ops[..i + 1] && ops[..i + 1] + ops[i + 1..] == ops
    ensures FreshIds(ops[..i + 1]) && ConsistentDeliveries(ops[..i + 1])
  {
    var p := ops[..i + 1];
    assert forall j | 0 <= j < |p| :: p[j] == ops[j];
  }

  /** An event is accepted, once or by redelivery, if and only if some arrival of it finds everything it reads valid. */
  lemma AcceptedExactly(ops: seq<Op>, m: Event)
    requires FreshIds(ops) && ConsistentDeliveries(ops)
    ensures m in Record(ops).accepted <==> exists i: nat :: ArrivesReadable(ops, i, m)
  {
    if m in Record(ops).accepted {
      var i := AcceptedArrived(ops, m);
      FreshPrefix(ops, i);
      EveryHistory(ops[..i]);
      LedgerFollowsStore(ops[..i]);
      NewIdIsFree(ops[..i], ops[i]);
      AcceptedWhenReadsWell(Record(ops[..i]), m, ops[i].now, ops[i].newId);
      assert ArrivesReadable(ops, i, m);
    }
    if i: nat :| ArrivesReadable(ops, i, m) {
      FreshPrefix(ops, i);
      LastIsAccepted(ops[..i], ops[i]);
      AcceptedGrows(ops[..i + 1], ops[i + 1..], m);
    }
  }

  /** `m` arrived, and every other event of its pull request that arrived is strictly older. */
  ghost predicate NewestArrival(ops: seq<Op>, m: Event) {
    && (exists i :: 0 <= i < |ops| && ops[i].AcceptOp? && ops[i].e == m)
    && (forall i | 0 <= i < |ops| && ops[i].AcceptOp? && ops[i].e.revision.pull == m.revision.pull ::
          ops[i].e == m || ops[i].e.updated < m.updated)
  }

  /** The pull request's current run carries the event's base, head, timestamp and narrative. */
  ghost predicate StandsOn(s: Store, m: Event) {
    && m.revision.pull in s.current && s.current[m.revision.pull] in s.runs
    && var run := s.runs[s.current[m.revision.pull]];
       run.state.Current? && run.revision == m.revision && run.headUpdated == m.updated && run.narrative == m.narrative
  }

  lemma StandsOnNewestAccepted(ops: seq<Op>, m: Event)
    requires NewestArrival(ops, m)
    ensures StandsOn(Replay(ops), m) <==> m in Record(ops).accepted
  {
    EveryHistory(ops);
    LedgerFollowsStore(ops);
    var l := Record(ops);
    var k := m.revision.pull;
    assert PointerOk(l.store, k) && StandsFor(l.store, l.accepted, l.newest, k);
    if m in l.accepted {
      assert NotNewer(l.store, m);
    }
    if k in l.newest {
      var j := AcceptedArrived(ops, l.newest[k]);
      assert ops[j].e == l.newest[k];
    }
  }

  /**
   * Convergence, exactly. Whatever the arrival order, the redeliveries, the other pull requests and the other
   * transactions in between, the pull request ends on a current run that carries its newest event if and only if some
   * arrival of that event found everything it reads valid.
   */
  lemma ConvergesExactly(ops: seq<Op>, m: Event)
    requires FreshIds(ops) && ConsistentDeliveries(ops) && NewestArrival(ops, m)
    ensures StandsOn(Replay(ops), m) <==> exists i: nat :: ArrivesReadable(ops, i, m)
  {
    StandsOnNewestAccepted(ops, m);
    AcceptedExactly(ops, m);
  }

  lemma {:induction false} PunctualPrefix(ops: seq<Op>, i: nat)
    requires i <= |ops| && Punctual(ops)
    ensures Punctual(ops[..i])
    decreases |ops|
  {
    if i < |ops| {
      PunctualPrefix(ops[..|ops| - 1], i);
      assert ops[..|ops| - 1][..i] == ops[..i];
    } else {
      assert ops[..i] == ops;
    }
  }

  lemma ArrivesPunctually(ops: seq<Op>, i: nat)
    requires FreshIds(ops) && ConsistentDeliveries(ops) && Punctual(ops) && i < |ops| && ops[i].AcceptOp?
    ensures ArrivesReadable(ops, i, ops[i].e)
  {
    PunctualPrefix(ops, i);
    ReadableExactly(ops[..i]);
    EveryHistory(ops[..i]);
    LedgerFollowsStore(ops[..i]);
    var l, e := Record(ops[..i]), ops[i].e;
    assert PointerOk(l.store, e.revision.pull) && RevisionOk(l.store, l.log, e.revision)
        && DeliveryOk(l.store, l.accepted, e.delivery);
  }

  /** In a punctual history no arrival is ever rejected. */
  lemma EveryArrivalIsAccepted(ops: seq<Op>, i: nat)
    requires FreshIds(ops) && ConsistentDeliveries(ops) && Punctual(ops)
    requires i < |ops| && ops[i].AcceptOp?
    ensures ops[i].e in Record(ops).accepted
  {
    ArrivesPunctually(ops, i);
    AcceptedExactly(ops, ops[i].e);
  }

  /** A punctual history converges to the newest event. */
  lemma ConvergesToNewest(ops: seq<Op>, m: Event)
    requires FreshIds(ops) && ConsistentDeliveries(ops) && Punctual(ops) && NewestArrival(ops, m)
    ensures StandsOn(Replay(ops), m)
  {
    var i :| 0 <= i < |ops| && ops[i].AcceptOp? && ops[i].e == m;
    ArrivesPunctually(ops, i);
    ConvergesExactly(ops, m);
  }

  ghost predicate Arrives(ops: seq<Op>, e: Event) {
    exists i :: 0 <= i < |ops| && ops[i].AcceptOp? && ops[i].e == e
  }

  /** Two punctual histories in which the same events arrive, in any orders, agree on where the pull request ends. */
  lemma OrderIndependence(left: seq<Op>, right: seq<Op>, m: Event)
    requires FreshIds(left) && ConsistentDeliveries(left) && Punctual(left) && NewestArrival(left, m)
    requires FreshIds(right) && ConsistentDeliveries(right) && Punctual(right)
    requires forall e :: Arrives(left, e) <==> Arrives(right, e)
    ensures StandsOn(Replay(left), m) && StandsOn(Replay(right), m)
  {
    assert NewestArrival(right, m) by {
      var i :| 0 <= i < |left| && left[i].AcceptOp? && left[i].e == m;
      assert Arrives(left, m);
      assert Arrives(right, m);
      forall j | 0 <= j < |right| && right[j].AcceptOp? && right[j].e.revision.pull == m.revision.pull
        ensures right[j].e == m || right[j].e.updated < m.updated
      {
        assert Arrives(right, right[j].e);
        assert Arrives(left, right[j].e);
      }
    }
    ConvergesToNewest(left, m);
    ConvergesToNewest(right, m);
  }

  // ---------------------------------------------------------------------------------------------
  // Clocks that are good enough
  // ---------------------------------------------------------------------------------------------

  /** The acceptances of each single pull request read a clock that does not run backwards. */
  ghost predicate ForwardClocks(ops: seq<Op>) {
    forall i, j | 0 <= i < j < |ops| && ops[i].AcceptOp? && ops[j].AcceptOp?
                  && ops[i].e.revision.pull == ops[j].e.revision.pull :: ops[i].now <= ops[j].now
  }

  /** A run was created by an acceptance of its pull request, at the clock it records. */
  ghost predicate CreatedBy(ops: seq<Op>, i: nat, run: Run) {
    i < |ops| && ops[i].AcceptOp? && ops[i].now == run.created && ops[i].e.revision.pull == run.revision.pull
  }

  lemma NewRunIsDated(l: Ledger, op: Op, id: RunId)
    requires Inv(l) && id !in l.store.runs && id in Step(l.store, op).runs
    ensures op.AcceptOp? && CreatedBy([op], 0, Step(l.store, op).runs[id])
  {
    var s := l.store;
    if op.AcceptOp? {
      var k := op.e.revision;
      AcceptForms(s, op.e, op.now, op.newId);
      assert RevisionOk(s, l.log, k) && PointerOk(s, k.pull);
      if k in s.revisions {
        assert RunOk(s, s.revisions[k]);
      }
      if k.pull in s.current {
        assert RunOk(s, s.current[k.pull]);
      }
    } else {
      OtherOpsKeepShape(s, op);
      SameKeys(s, Step(s, op));
    }
  }

  lemma OldRunStaysDated(front: seq<Op>, op: Op, id: RunId, i: nat)
    requires id in Replay(front).runs && CreatedBy(front, i, Replay(front).runs[id])
    ensures id in Replay(front + [op]).runs && CreatedBy(front + [op], i, Replay(front + [op]).runs[id])
  {
    OneMoreMovesForward(front, op, id);
  }

  lemma LastRunIsDated(front: seq<Op>, op: Op, id: RunId)
    requires id !in Replay(front).runs && id in Replay(front + [op]).runs
    ensures CreatedBy(front + [op], |front|, Replay(front + [op]).runs[id])
  {
    assert (front + [op])[..|front|] == front;
    EveryHistory(front);
    LedgerFollowsStore(front);
    NewRunIsDated(Record(front), op, id);
  }

  lemma {:induction false} RunsAreDated(ops: seq<Op>, id: RunId) returns (i: nat)
    requires id in Replay(ops).runs
    ensures CreatedBy(ops, i, Replay(ops).runs[id])
  {
    var front, op := ops[..|ops| - 1], ops[|ops| - 1];
    assert front + [op] == ops;
    if id in Replay(front).runs {
      i := RunsAreDated(front, id);
      OldRunStaysDated(front, op, id, i);
    } else {
      i := |front|;
      LastRunIsDated(front, op, id);
    }
  }

  lemma RewritesOwnPull(l: Ledger, op: Op, id: RunId)
    requires Inv(l) && Rewrites(l.store, op, id)
    ensures l.store.runs[id].revision.pull == op.e.revision.pull
  {
    assert RevisionOk(l.store, l.log, op.e.revision) && PointerOk(l.store, op.e.revision.pull);
  }

  /** A clock that does not run backwards within each pull request is enough; other transactions need none. */
  lemma {:induction false} ForwardClocksArePunctual(ops: seq<Op>)
    requires ForwardClocks(ops)
    ensures Punctual(ops)
  {
    if ops != [] {
      var front, op := ops[..|ops| - 1], ops[|ops| - 1];
      assert forall i | 0 <= i < |front| :: front[i] == ops[i];
      ForwardClocksArePunctual(front);
      EveryHistory(front);
      LedgerFollowsStore(front);
      forall id | Rewrites(Replay(front), op, id) ensures Replay(front).runs[id].created <= op.now {
        var i := RunsAreDated(front, id);
        RewritesOwnPull(Record(front), op, id);
        assert ops[i] == front[i];
      }
    }
  }

  // ---------------------------------------------------------------------------------------------
  // What a clock that falls behind does
  // ---------------------------------------------------------------------------------------------

  ghost predicate Stuck(s: Store, k: PullKey) {
    k in s.current && s.current[k] in s.runs && !Wellformed(s.runs[s.current[k]])
  }

  lemma StuckStep(l: Ledger, op: Op, k: PullKey)
    requires Inv(l) && Stuck(l.store, k)
    ensures Stuck(Step(l.store, op), k)
    ensures Step(l.store, op).current[k] == l.store.current[k]
    ensures Step(l.store, op).runs[l.store.current[k]] == l.store.runs[l.store.current[k]]
  {
    var s := l.store;
    assert PointerOk(s, k);
    if op.AcceptOp? {
      var r := op.e.revision;
      AcceptForms(s, op.e, op.now, op.newId);
      assert RevisionOk(s, l.log, r) && PointerOk(s, r.pull);
      if r in s.revisions {
        assert RunOk(s, s.revisions[r]);
      }
      if r.pull in s.current {
        assert RunOk(s, s.current[r.pull]);
      }
      if r.pull == k {
        StuckRejects(s, op.e, op.now, op.newId);
      }
    }
  }

  /** An event of a stuck pull request changes nothing; unless it is a redelivery, it is rejected. */
  lemma StuckRejects(s: Store, e: Event, now: Time, newId: RunId)
    requires Stuck(s, e.revision.pull)
    ensures Step(s, AcceptOp(e, now, newId)) == s
    ensures e.delivery !in s.deliveries ==> Accept(s, e, now, newId) == Err(InvalidDocument)
  {
  }

  /** The pull request is stuck, on the same unreadable run. */
  ghost predicate StillStuck(s: Store, t: Store, k: PullKey) {
    Stuck(s, k) && Stuck(t, k) && t.current[k] == s.current[k] && t.runs[t.current[k]] == s.runs[s.current[k]]
  }

  lemma StuckOneMore(ops: seq<Op>, op: Op, k: PullKey)
    requires Stuck(Replay(ops), k)
    ensures StillStuck(Replay(ops), Replay(ops + [op]), k)
  {
    assert (ops + [op])[..|ops|] == ops;
    EveryHistory(ops);
    LedgerFollowsStore(ops);
    StuckStep(Record(ops), op, k);
  }

  /** Once the current run of a pull request cannot be read back, no later history moves that pull request again. */
  lemma {:induction false} StuckForever(ops: seq<Op>, more: seq<Op>, k: PullKey)
    requires Stuck(Replay(ops), k)
    ensures StillStuck(Replay(ops), Replay(ops + more), k)
    decreases |more|
  {
    if more == [] {
      assert ops + more == ops;
    } else {
      var front, last := more[..|more| - 1], more[|more| - 1];
      StuckForever(ops, front, k);
      StuckOneMore(ops + front, last, k);
      assert ops + more == ops + front + [last];
    }
  }

  /** A concrete history whose second clock reading is behind the first leaves its pull request stuck. */
  lemma BackwardClockSticks(a: Event, b: Event, now: Time)
    requires a.revision == b.revision && a.delivery != b.delivery && a.updated < b.updated
    ensures Stuck(Replay([AcceptOp(a, now, 1), AcceptOp(b, now - 1, 2)]), a.revision.pull)
  {
    var first, second := AcceptOp(a, now, 1), AcceptOp(b, now - 1, 2);
    assert [first, second][..1] == [first] && [first][..0] == [];
    assert Replay([]) == EMPTY;
    var s := Step(EMPTY, first);
    assert Replay([first]) == s;
    assert s == Create(EMPTY, None, a, now, 1);
    assert Replay([first, second]) == Step(s, second);
    assert Step(s, second) == Absorb(s, s.runs[1], b, now - 1);
  }

  /**
   * Nothing need be stuck for convergence to fail. Retiring a run at a clock before its creation makes that run
   * unreadable; a newer event of its revision is then rejected, and the pull request stays on the run in between.
   */
  lemma RetiringBehindRejects(a: Event, b: Event, c: Event)
    requires a.revision != b.revision && a.revision == c.revision && a.revision.pull == b.revision.pull
    requires a.delivery != b.delivery && a.delivery != c.delivery && b.delivery != c.delivery
    requires a.updated < b.updated < c.updated
    ensures var s := Replay([AcceptOp(a, 10, 1), AcceptOp(b, 5, 2)]);
            && StandsOn(s, b) && !Stuck(s, a.revision.pull)
            && !OnTime(Replay([AcceptOp(a, 10, 1)]), AcceptOp(b, 5, 2))
            && Accept(s, c, 11, 3) == Err(InvalidDocument)
            && Replay([AcceptOp(a, 10, 1), AcceptOp(b, 5, 2), AcceptOp(c, 11, 3)]) == s
  {
    var x, y, z := AcceptOp(a, 10, 1), AcceptOp(b, 5, 2), AcceptOp(c, 11, 3);
    assert [x, y, z][..2] == [x, y] && [x, y][..1] == [x] && [x][..0] == [];
    assert Replay([]) == EMPTY;
    var s1 := Create(EMPTY, None, a, 10, 1);
    assert Replay([x]) == Step(EMPTY, x) == s1;
    var run := s1.runs[1];
    var s2 := Create(s1, Some(run), b, 5, 2);
    assert Accept(s1, b, 5, 2) == Ok((s2, Acceptance(Created, NewRun(Some(run), b, 5, 2))));
    assert Replay([x, y]) == Step(s1, y) == s2;
    assert Rewrites(s1, y, 1);
    assert s2.runs[1] == Retired(run, 2, 5) && s2.runs[2] == NewRun(Some(run), b, 5, 2);
    assert Replay([x, y, z]) == Step(s2, z);
  }
}
