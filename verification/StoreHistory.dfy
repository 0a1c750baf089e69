/**
 * Whole histories of the run store: any finite sequence of transactions, in any order, each of which commits or
 * raises. A ledger replays the history beside the store and remembers what the store itself forgets.
 */
module StoreHistory {
  import opened Prelude
  import opened Workflow
  import opened EvidenceWorkflow
  import opened CheckFormat
  import opened RunStore

  datatype Op =
    | AcceptOp(e: Event, now: Time, newId: RunId)
    | TransitionOp(id: RunId, expected: nat, t: Transition, now: Time)
    | FailOp(id: RunId, code: string, now: Time)
    | SaveOp(id: RunId, document: Report, sha: EvidenceSha)
    | BeginOp(id: RunId, payload: PayloadSha, now: Time)
    | SetCheckOp(id: RunId, check: int, now: Time)
    | ErrorOp(id: RunId, error: string, now: Time)

  function After<T>(s: Store, o: RunStore.Outcome<T>): Store { if o.Ok? then o.value.0 else s }

  function Step(s: Store, op: Op): Store {
    match op
    case AcceptOp(e, now, newId) => After(s, Accept(s, e, now, newId))
    case TransitionOp(id, expected, t, now) => After(s, TransitionRun(s, id, expected, t, now))
    case FailOp(id, code, now) => After(s, FailRun(s, id, code, now))
    case SaveOp(id, document, sha) => After(s, SaveEvidence(s, id, document, sha))
    case BeginOp(id, payload, now) => After(s, BeginPublication(s, id, payload, now))
    case SetCheckOp(id, check, now) => After(s, SetCheckId(s, id, check, now))
    case ErrorOp(id, error, now) => After(s, RecordError(s, id, error, now))
  }

  function Replay(ops: seq<Op>): Store {
    if ops == [] then EMPTY else Step(Replay(ops[..|ops| - 1]), ops[|ops| - 1])
  }

  // ---------------------------------------------------------------------------------------------
  // The ledger
  // ---------------------------------------------------------------------------------------------

  datatype Entry = Entry(id: RunId, revision: RevisionKey)

  /**
   * `log` lists runs in the order they were created, `accepted` the events whose first delivery was processed,
   * `newest` the accepted event each current run stands for, and `rank` the promotion order that supersession climbs.
   */
  datatype Ledger = Ledger(
    store: Store,
    log: seq<Entry>,
    accepted: seq<Event>,
    newest: map<PullKey, Event>,
    rank: map<RunId, nat>)

  const START := Ledger(EMPTY, [], [], map[], map[])

  function CurrentOf(s: Store, k: PullKey): Option<Run> {
    if k in s.current && s.current[k] in s.runs then Some(s.runs[s.current[k]]) else None
  }

  function RankOf(l: Ledger, id: RunId): nat { if id in l.rank then l.rank[id] else 0 }

  function Extend(l: Ledger, op: Op): Ledger {
    var store := Step(l.store, op);
    if !op.AcceptOp? then l.(store := store)
    else
      var e, id := op.e, op.newId;
      var k := e.revision.pull;
      match Accept(l.store, e, op.now, id)
      case Err(_) => l
      case Ok((_, Acceptance(DuplicateDelivery, _))) => l
      case Ok((_, Acceptance(DuplicateRevision, d))) =>
        l.(store := store, accepted := l.accepted + [e],
           newest := if k in l.store.current && l.store.current[k] == d.id && d.id in l.store.runs
                        && e.updated > l.store.runs[d.id].headUpdated
                     then l.newest[k := e] else l.newest)
      case Ok((_, Acceptance(StaleCreated, _))) =>
        Ledger(store, l.log + [Entry(id, e.revision)], l.accepted + [e], l.newest,
               l.rank[id := Max(0, RankOf(l, if k in l.store.current then l.store.current[k] else 0) - 1)])
      case Ok((_, Acceptance(Created, _))) =>
        Ledger(store, l.log + [Entry(id, e.revision)], l.accepted + [e], l.newest[k := e],
               l.rank[id := |l.store.runs| + 1])
  }

  function Record(ops: seq<Op>): Ledger {
    if ops == [] then START else Extend(Record(ops[..|ops| - 1]), ops[|ops| - 1])
  }

  lemma ExtendFollowsStore(l: Ledger, op: Op)
    ensures Extend(l, op).store == Step(l.store, op)
  {
  }

  /** The ledger is a commentary: its store is the replayed store. */
  lemma {:induction false} LedgerFollowsStore(ops: seq<Op>)
    ensures Record(ops).store == Replay(ops)
  {
    if ops != [] {
      LedgerFollowsStore(ops[..|ops| - 1]);
      ExtendFollowsStore(Record(ops[..|ops| - 1]), ops[|ops| - 1]);
    }
  }

  // ---------------------------------------------------------------------------------------------
  // The invariant
  // ---------------------------------------------------------------------------------------------

  /**
   * A run is stored under its own identifier, its pull request has a current pointer, and only the current run is
   * CURRENT.
   */
  ghost predicate RunOk(s: Store, id: RunId) {
    id in s.runs ==>
      && s.runs[id].id == id
      && s.runs[id].revision.pull in s.current
      && (s.runs[id].state.Current? ==> s.current[s.runs[id].revision.pull] == id)
  }

  /** A current pointer names a CURRENT run of its own pull request. */
  ghost predicate PointerOk(s: Store, k: PullKey) {
    k in s.current ==>
      && s.current[k] in s.runs
      && s.runs[s.current[k]].revision.pull == k
      && s.runs[s.current[k]].state.Current?
  }

  /**
   * The current pointer of a pull request names exactly its one CURRENT run, and every pull request with runs has one.
   */
  ghost predicate CurrentAgrees(s: Store) {
    && (forall k :: PointerOk(s, k))
    && (forall id :: RunOk(s, id))
  }

  function LastWith(log: seq<Entry>, k: RevisionKey): Option<RunId> {
    if log == [] then None
    else if log[|log| - 1].revision == k then Some(log[|log| - 1].id)
    else LastWith(log[..|log| - 1], k)
  }

  ghost predicate RevisionOk(s: Store, log: seq<Entry>, k: RevisionKey) {
    && LastWith(log, k) == (if k in s.revisions then Some(s.revisions[k]) else None)
    && (k in s.revisions ==> s.revisions[k] in s.runs && s.runs[s.revisions[k]].revision == k)
  }

  /** The log lists exactly the runs of the store, each with the revision it still has. */
  ghost predicate LoggedOk(s: Store, log: seq<Entry>, id: RunId) {
    forall k :: Entry(id, k) in log <==> (id in s.runs && s.runs[id].revision == k)
  }

  /** The revision index names the latest run created with exactly that repository, number, base and head. */
  ghost predicate RevisionsAgree(s: Store, log: seq<Entry>) {
    && (forall id :: LoggedOk(s, log, id))
    && (forall k :: RevisionOk(s, log, k))
  }

  ghost predicate EventBound(s: Store, e: Event) {
    && e.delivery in s.deliveries
    && s.deliveries[e.delivery] in s.runs
    && s.runs[s.deliveries[e.delivery]].revision == e.revision
  }

  ghost predicate DeliveryOk(s: Store, accepted: seq<Event>, d: string) {
    d in s.deliveries ==> s.deliveries[d] in s.runs && exists e :: e in accepted && e.delivery == d
  }

  /** Every delivery is bound to a run of the revision that its first event announced. */
  ghost predicate DeliveriesAgree(s: Store, accepted: seq<Event>) {
    && (forall e | e in accepted :: EventBound(s, e))
    && (forall d :: DeliveryOk(s, accepted, d))
    && (forall i, j | 0 <= i < j < |accepted| :: accepted[i].delivery != accepted[j].delivery)
  }

  ghost predicate StandsFor(s: Store, accepted: seq<Event>, newest: map<PullKey, Event>, k: PullKey) {
    && (k in s.current <==> k in newest)
    && (k in newest && k in s.current && s.current[k] in s.runs ==>
          && newest[k] in accepted
          && newest[k].revision == s.runs[s.current[k]].revision
          && newest[k].updated == s.runs[s.current[k]].headUpdated
          && newest[k].narrative == s.runs[s.current[k]].narrative)
  }

  ghost predicate NotNewer(s: Store, e: Event) {
    && e.revision.pull in s.current
    && s.current[e.revision.pull] in s.runs
    && e.updated <= s.runs[s.current[e.revision.pull]].headUpdated
  }

  /** The current run stands for an accepted event, and no accepted event of its pull request is newer. */
  ghost predicate NewestAgrees(s: Store, accepted: seq<Event>, newest: map<PullKey, Event>) {
    && (forall k :: StandsFor(s, accepted, newest, k))
    && (forall e | e in accepted :: NotNewer(s, e))
  }

  ghost predicate LinkOk(s: Store, rank: map<RunId, nat>, id: RunId) {
    && (id in s.runs <==> id in rank)
    && (id in s.runs && id in rank ==>
          && rank[id] <= |s.runs|
          && (s.runs[id].state.Current? ==> s.runs[id].supersededBy.None? && rank[id] >= 1)
          && (s.runs[id].state.Superseded? ==>
                && s.runs[id].lifecycle.Terminal?
                && s.runs[id].supersededBy.Some?
                && var next := s.runs[id].supersededBy.value;
                   && next in s.runs && next in rank
                   && s.runs[next].revision.pull == s.runs[id].revision.pull
                   && rank[id] < rank[next]))
  }

  /** Superseded runs are terminal, and each points at a run of the same pull request promoted later. */
  ghost predicate Chained(s: Store, rank: map<RunId, nat>) {
    forall id :: LinkOk(s, rank, id)
  }

  ghost predicate Inv(l: Ledger) {
    && CurrentAgrees(l.store)
    && RevisionsAgree(l.store, l.log)
    && DeliveriesAgree(l.store, l.accepted)
    && NewestAgrees(l.store, l.accepted, l.newest)
    && Chained(l.store, l.rank)
  }

  // --- Transactions that do not accept events ------------------------------------------------------

  ghost predicate SameRun(a: Store, b: Store, id: RunId) {
    && (id in a.runs <==> id in b.runs)
    && (id in a.runs && id in b.runs ==> SameIdentity(a.runs[id], b.runs[id]))
  }

  /** What every transaction except acceptance leaves alone. */
  ghost predicate SameShape(a: Store, b: Store) {
    && (forall id :: SameRun(a, b, id))
    && a.deliveries == b.deliveries && a.revisions == b.revisions && a.current == b.current
  }

  lemma UpdateKeepsShape(s: Store, id: RunId, next: Run)
    requires id in s.runs && SameIdentity(s.runs[id], next)
    ensures SameShape(s, s.(runs := s.runs[id := next]))
  {
  }

  lemma TransitionKeepsShape(s: Store, id: RunId, expected: nat, t: Transition, now: Time)
    ensures SameShape(s, After(s, TransitionRun(s, id, expected, t, now)))
  {
    var o := TransitionRun(s, id, expected, t, now);
    if o.Ok? {
      UpdateKeepsShape(s, id, o.value.1);
    }
  }

  lemma FailKeepsShape(s: Store, id: RunId, code: string, now: Time)
    ensures SameShape(s, After(s, FailRun(s, id, code, now)))
  {
    if id !in s.failures && id in s.runs && Wellformed(s.runs[id]) {
      var next := ApplyTransition(s.runs[id], FAIL, now);
      if next.Ok? {
        UpdateKeepsShape(s, id, next.value);
      }
    }
  }

  lemma RecordOpsKeepShape(s: Store, op: Op)
    requires op.SaveOp? || op.BeginOp? || op.SetCheckOp? || op.ErrorOp?
    ensures SameShape(s, Step(s, op))
  {
    var t := Step(s, op);
    assert t.runs == s.runs;
    forall id ensures SameRun(s, t, id) {
    }
  }

  lemma OtherOpsKeepShape(s: Store, op: Op)
    requires !op.AcceptOp?
    ensures SameShape(s, Step(s, op))
  {
    if op.TransitionOp? {
      TransitionKeepsShape(s, op.id, op.expected, op.t, op.now);
    } else if op.FailOp? {
      FailKeepsShape(s, op.id, op.code, op.now);
    } else {
      RecordOpsKeepShape(s, op);
    }
  }

  lemma SameKeys(a: Store, b: Store)
    requires SameShape(a, b)
    ensures a.runs.Keys == b.runs.Keys && |a.runs| == |b.runs|
  {
    forall id ensures id in a.runs <==> id in b.runs {
      assert SameRun(a, b, id);
    }
    assert a.runs.Keys == b.runs.Keys;
    assert |a.runs| == |a.runs.Keys| && |b.runs| == |b.runs.Keys|;
  }

  lemma ShapeKeepsCurrent(a: Store, b: Store)
    requires CurrentAgrees(a) && SameShape(a, b)
    ensures CurrentAgrees(b)
  {
    forall k ensures PointerOk(b, k) {
      assert PointerOk(a, k);
      if k in a.current {
        assert SameRun(a, b, a.current[k]);
      }
    }
    forall id ensures RunOk(b, id) {
      assert RunOk(a, id) && SameRun(a, b, id);
    }
  }

  lemma ShapeKeepsRevisions(a: Store, b: Store, log: seq<Entry>)
    requires RevisionsAgree(a, log) && SameShape(a, b)
    ensures RevisionsAgree(b, log)
  {
    forall id ensures LoggedOk(b, log, id) {
      assert LoggedOk(a, log, id) && SameRun(a, b, id);
    }
    forall k ensures RevisionOk(b, log, k) {
      assert RevisionOk(a, log, k);
      if k in a.revisions {
        assert SameRun(a, b, a.revisions[k]);
      }
    }
  }

  lemma ShapeKeepsDeliveries(a: Store, b: Store, accepted: seq<Event>)
    requires DeliveriesAgree(a, accepted) && SameShape(a, b)
    ensures DeliveriesAgree(b, accepted)
  {
    forall e | e in accepted ensures EventBound(b, e) {
      assert EventBound(a, e) && SameRun(a, b, a.deliveries[e.delivery]);
    }
    forall d ensures DeliveryOk(b, accepted, d) {
      assert DeliveryOk(a, accepted, d);
      if d in a.deliveries {
        assert SameRun(a, b, a.deliveries[d]);
      }
    }
  }

  lemma ShapeKeepsNewest(a: Store, b: Store, accepted: seq<Event>, newest: map<PullKey, Event>)
    requires CurrentAgrees(a) && NewestAgrees(a, accepted, newest) && SameShape(a, b)
    ensures NewestAgrees(b, accepted, newest)
  {
    forall k ensures StandsFor(b, accepted, newest, k) {
      assert StandsFor(a, accepted, newest, k);
      if k in a.current {
        assert SameRun(a, b, a.current[k]);
      }
    }
    forall e | e in accepted ensures NotNewer(b, e) {
      assert NotNewer(a, e) && SameRun(a, b, a.current[e.revision.pull]);
    }
  }

  lemma ShapeKeepsChain(a: Store, b: Store, rank: map<RunId, nat>)
    requires Chained(a, rank) && SameShape(a, b)
    ensures Chained(b, rank)
  {
    SameKeys(a, b);
    forall id ensures LinkOk(b, rank, id) {
      assert LinkOk(a, rank, id) && SameRun(a, b, id);
      if id in a.runs && a.runs[id].state.Superseded? {
        assert SameRun(a, b, a.runs[id].supersededBy.value);
      }
    }
  }

  lemma ShapeKeepsInv(l: Ledger, s: Store)
    requires Inv(l) && SameShape(l.store, s)
    ensures Inv(l.(store := s))
  {
    ShapeKeepsCurrent(l.store, s);
    ShapeKeepsRevisions(l.store, s, l.log);
    ShapeKeepsDeliveries(l.store, s, l.accepted);
    ShapeKeepsNewest(l.store, s, l.accepted, l.newest);
    ShapeKeepsChain(l.store, s, l.rank);
  }

  // --- Acceptance that refreshes a known revision ------------------------------------------------

  /** A run without what a refresh may change. */
  function Undated(r: Run): Run { r.(headUpdated := 0, narrative := Narrative("", "", "", None)) }

  ghost predicate RefreshedRun(s: Store, t: Store, e: Event, id: RunId, x: RunId) {
    && (x in s.runs <==> x in t.runs)
    && (x in s.runs && x in t.runs ==>
          && SameIdentity(Undated(s.runs[x]), Undated(t.runs[x]))
          && t.runs[x].headUpdated == (if x == id then Max(s.runs[x].headUpdated, e.updated) else s.runs[x].headUpdated)
          && t.runs[x].narrative ==
               if x == id && e.updated > s.runs[x].headUpdated then e.narrative else s.runs[x].narrative)
  }

  /** What absorbing event `e` into the known run `id` does. */
  ghost predicate Absorbed(s: Store, t: Store, e: Event, id: RunId) {
    && e.delivery !in s.deliveries
    && id in s.runs && s.runs[id].revision == e.revision
    && (e.revision.pull in s.current ==>
          && s.current[e.revision.pull] in s.runs
          && (s.current[e.revision.pull] == id || e.updated <= s.runs[s.current[e.revision.pull]].headUpdated))
    && (forall x :: RefreshedRun(s, t, e, id, x))
    && t.deliveries == s.deliveries[e.delivery := id]
    && t.revisions == s.revisions && t.current == s.current
  }

  /** Whether the absorbed event is the one its pull request now stands for. */
  ghost predicate Renews(s: Store, e: Event, id: RunId) {
    && e.revision.pull in s.current && s.current[e.revision.pull] == id
    && id in s.runs && e.updated > s.runs[id].headUpdated
  }

  lemma AcceptAbsorbs(l: Ledger, op: Op) returns (id: RunId)
    requires Inv(l) && op.AcceptOp?
    requires var o := Accept(l.store, op.e, op.now, op.newId); o.Ok? && o.value.1.kind == DuplicateRevision
    ensures var m := Extend(l, op);
            && Absorbed(l.store, m.store, op.e, id)
            && m == Ledger(m.store, l.log, l.accepted + [op.e],
                           if Renews(l.store, op.e, id) then l.newest[op.e.revision.pull := op.e] else l.newest, l.rank)
  {
    var s, e := l.store, op.e;
    id := s.revisions[e.revision];
    assert RevisionOk(s, l.log, e.revision);
    assert RunOk(s, id);
    assert PointerOk(s, e.revision.pull);
    if e.revision.pull in s.current {
      assert RunOk(s, s.current[e.revision.pull]);
    }
    var t := Absorb(s, s.runs[id], e, op.now);
    assert Extend(l, op).store == t;
    forall x ensures RefreshedRun(s, t, e, id, x) {
    }
  }

  lemma AbsorbKeepsNewest(s: Store, t: Store, e: Event, id: RunId, accepted: seq<Event>, newest: map<PullKey, Event>)
    requires CurrentAgrees(s) && NewestAgrees(s, accepted, newest) && Absorbed(s, t, e, id)
    ensures NewestAgrees(t, accepted + [e], if Renews(s, e, id) then newest[e.revision.pull := e] else newest)
  {
    var newest' := if Renews(s, e, id) then newest[e.revision.pull := e] else newest;
    assert RunOk(s, id);
    assert accepted <= accepted + [e];
    forall k ensures StandsFor(t, accepted + [e], newest', k) {
      assert StandsFor(s, accepted, newest, k) && PointerOk(s, k);
      if k in s.current {
        assert RefreshedRun(s, t, e, id, s.current[k]);
      }
    }
    forall f | f in accepted + [e] ensures NotNewer(t, f) {
      if f in accepted {
        assert NotNewer(s, f);
      }
      assert PointerOk(s, f.revision.pull);
      assert RefreshedRun(s, t, e, id, s.current[f.revision.pull]);
    }
  }

  lemma AbsorbKeepsDeliveries(s: Store, t: Store, e: Event, id: RunId, accepted: seq<Event>)
    requires DeliveriesAgree(s, accepted) && Absorbed(s, t, e, id)
    ensures DeliveriesAgree(t, accepted + [e])
  {
    forall f | f in accepted + [e] ensures EventBound(t, f) {
      if f in accepted {
        assert EventBound(s, f);
        assert RefreshedRun(s, t, e, id, s.deliveries[f.delivery]);
      }
      assert RefreshedRun(s, t, e, id, id);
    }
    forall d ensures DeliveryOk(t, accepted + [e], d) {
      DeliveryGrows(s, accepted, e, d);
      if d in s.deliveries {
        assert RefreshedRun(s, t, e, id, s.deliveries[d]);
      }
      assert RefreshedRun(s, t, e, id, id);
    }
    DeliveriesStayDistinct(s, accepted, e);
  }

  lemma DeliveryGrows(s: Store, accepted: seq<Event>, e: Event, d: string)
    requires DeliveryOk(s, accepted, d)
    ensures d in s.deliveries || d == e.delivery ==> exists f :: f in accepted + [e] && f.delivery == d
    ensures d in s.deliveries ==> s.deliveries[d] in s.runs
  {
    if d in s.deliveries {
      var f :| f in accepted && f.delivery == d;
      assert f in accepted + [e];
    } else if d == e.delivery {
      assert e in accepted + [e];
    }
  }

  lemma DeliveriesStayDistinct(s: Store, accepted: seq<Event>, e: Event)
    requires DeliveriesAgree(s, accepted) && e.delivery !in s.deliveries
    ensures forall i, j | 0 <= i < j < |accepted + [e]| :: (accepted + [e])[i].delivery != (accepted + [e])[j].delivery
  {
    forall i, j | 0 <= i < j < |accepted + [e]| ensures (accepted + [e])[i].delivery != (accepted + [e])[j].delivery {
      if j == |accepted| {
        assert accepted[i] in accepted;
        assert EventBound(s, accepted[i]);
      }
    }
  }

  lemma AbsorbKeepsRest(s: Store, t: Store, e: Event, id: RunId, log: seq<Entry>, rank: map<RunId, nat>)
    requires CurrentAgrees(s) && RevisionsAgree(s, log) && Chained(s, rank) && Absorbed(s, t, e, id)
    ensures CurrentAgrees(t) && RevisionsAgree(t, log) && Chained(t, rank)
  {
    // The refreshed store differs from a store of the same shape only in timestamps and deliveries.
    var u := s.(runs := map x | x in s.runs :: Undated(s.runs[x]));
    var v := t.(runs := map x | x in t.runs :: Undated(t.runs[x]), deliveries := s.deliveries);
    forall x ensures SameRun(u, v, x) {
      assert RefreshedRun(s, t, e, id, x);
    }
    UndatingIsInvisible(s, u, log, rank);
    ShapeKeepsCurrent(u, v);
    ShapeKeepsRevisions(u, v, log);
    ShapeKeepsChain(u, v, rank);
    UndatingIsInvisible(t, v, log, rank);
  }

  /** The pointer, index and chain conditions do not look at timestamps or deliveries. */
  lemma UndatingIsInvisible(s: Store, u: Store, log: seq<Entry>, rank: map<RunId, nat>)
    requires u.runs == map x | x in s.runs :: Undated(s.runs[x])
    requires u.revisions == s.revisions && u.current == s.current
    ensures CurrentAgrees(s) <==> CurrentAgrees(u)
    ensures RevisionsAgree(s, log) <==> RevisionsAgree(u, log)
    ensures Chained(s, rank) <==> Chained(u, rank)
  {
    assert u.runs.Keys == s.runs.Keys;
    assert |u.runs| == |u.runs.Keys| && |s.runs| == |s.runs.Keys|;
    forall k ensures PointerOk(s, k) <==> PointerOk(u, k) {
    }
    forall id ensures RunOk(s, id) <==> RunOk(u, id) {
    }
    forall k ensures RevisionOk(s, log, k) <==> RevisionOk(u, log, k) {
    }
    forall id ensures LoggedOk(s, log, id) <==> LoggedOk(u, log, id) {
    }
    forall id ensures LinkOk(s, rank, id) <==> LinkOk(u, rank, id) {
    }
  }

  lemma AbsorbKeepsInv(l: Ledger, op: Op)
    requires Inv(l) && op.AcceptOp?
    requires var o := Accept(l.store, op.e, op.now, op.newId); o.Ok? && o.value.1.kind == DuplicateRevision
    ensures Inv(Extend(l, op))
  {
    var id := AcceptAbsorbs(l, op);
    var m := Extend(l, op);
    AbsorbKeepsRest(l.store, m.store, op.e, id, l.log, l.rank);
    AbsorbKeepsDeliveries(l.store, m.store, op.e, id, l.accepted);
    AbsorbKeepsNewest(l.store, m.store, op.e, id, l.accepted, l.newest);
  }

  // --- Acceptance that creates a run -------------------------------------------------------------

  ghost predicate KeptRun(s: Store, t: Store, k: PullKey, id: RunId, stale: bool, x: RunId) {
    && (x in t.runs <==> x in s.runs || x == id)
    && (x in s.runs && x in t.runs ==>
          if !stale && k in s.current && s.current[k] == x
          then && t.runs[x].id == x && t.runs[x].revision == s.runs[x].revision && t.runs[x].state.Superseded?
               && t.runs[x].lifecycle.Terminal? && t.runs[x].supersededBy == Some(id)
          else t.runs[x] == s.runs[x])
  }

  /** What creating run `id` for `e` does: a stale run beside the current one, or a promotion over it. */
  ghost predicate Inserted(s: Store, t: Store, e: Event, id: RunId, stale: bool) {
    var k := e.revision.pull;
    && e.delivery !in s.deliveries
    && id !in s.runs && id in t.runs
    && (stale <==> k in s.current && s.current[k] in s.runs && e.updated <= s.runs[s.current[k]].headUpdated)
    && t.runs[id].id == id && t.runs[id].revision == e.revision && t.runs[id].headUpdated == e.updated
    && t.runs[id].narrative == e.narrative
    && (if stale
        then t.runs[id].state.Superseded? && t.runs[id].lifecycle.Terminal?
            && t.runs[id].supersededBy == Some(s.current[k])
        else t.runs[id].state.Current? && t.runs[id].supersededBy.None?)
    && (forall x :: KeptRun(s, t, k, id, stale, x))
    && t.deliveries == s.deliveries[e.delivery := id]
    && t.revisions == s.revisions[e.revision := id]
    && t.current == if stale then s.current else s.current[k := id]
  }

  lemma AcceptInserts(l: Ledger, op: Op)
    requires Inv(l) && op.AcceptOp?
    requires var o := Accept(l.store, op.e, op.now, op.newId); o.Ok? && o.value.1.kind in {Created, StaleCreated}
    ensures var stale := Accept(l.store, op.e, op.now, op.newId).value.1.kind == StaleCreated;
            var k := op.e.revision.pull;
            var m := Extend(l, op);
            && Inserted(l.store, m.store, op.e, op.newId, stale)
            && (stale ==> l.store.current[k] in l.rank && l.rank[l.store.current[k]] >= 1)
            && m == Ledger(m.store, l.log + [Entry(op.newId, op.e.revision)], l.accepted + [op.e],
                           if stale then l.newest else l.newest[k := op.e],
                           l.rank[op.newId := if stale then l.rank[l.store.current[k]] - 1 else |l.store.runs| + 1])
  {
    var s, e, id := l.store, op.e, op.newId;
    var k := e.revision.pull;
    assert PointerOk(s, k);
    var current: Option<Run> := if k in s.current then Some(s.runs[s.current[k]]) else None;
    if k in s.current {
      assert RunOk(s, s.current[k]) && LinkOk(s, l.rank, s.current[k]);
    }
    var t := Create(s, current, e, op.now, id);
    assert Extend(l, op).store == t;
    forall x ensures KeptRun(s, t, k, id, IsStale(current, e), x) {
    }
  }

  lemma LastWithAppend(log: seq<Entry>, x: Entry, k: RevisionKey)
    ensures LastWith(log + [x], k) == if x.revision == k then Some(x.id) else LastWith(log, k)
  {
    assert (log + [x])[..|log|] == log;
  }

  lemma InsertKeepsRevisions(s: Store, t: Store, e: Event, id: RunId, stale: bool, log: seq<Entry>)
    requires RevisionsAgree(s, log) && Inserted(s, t, e, id, stale)
    ensures RevisionsAgree(t, log + [Entry(id, e.revision)])
  {
    var x := Entry(id, e.revision);
    forall y ensures LoggedOk(t, log + [x], y) {
      assert LoggedOk(s, log, y) && KeptRun(s, t, e.revision.pull, id, stale, y);
    }
    forall k ensures RevisionOk(t, log + [x], k) {
      assert RevisionOk(s, log, k);
      LastWithAppend(log, x, k);
      if k in s.revisions {
        assert KeptRun(s, t, e.revision.pull, id, stale, s.revisions[k]);
      }
    }
  }

  lemma InsertKeepsCurrent(s: Store, t: Store, e: Event, id: RunId, stale: bool)
    requires CurrentAgrees(s) && Inserted(s, t, e, id, stale)
    ensures CurrentAgrees(t)
  {
    var p := e.revision.pull;
    assert PointerOk(s, p);
    forall k ensures PointerOk(t, k) {
      assert PointerOk(s, k);
      if k in s.current {
        assert KeptRun(s, t, p, id, stale, s.current[k]);
      }
    }
    forall x ensures RunOk(t, x) {
      assert RunOk(s, x) && KeptRun(s, t, p, id, stale, x);
    }
  }

  lemma InsertKeepsDeliveries(s: Store, t: Store, e: Event, id: RunId, stale: bool, accepted: seq<Event>)
    requires DeliveriesAgree(s, accepted) && Inserted(s, t, e, id, stale)
    ensures DeliveriesAgree(t, accepted + [e])
  {
    forall f | f in accepted + [e] ensures EventBound(t, f) {
      if f in accepted {
        assert EventBound(s, f) && KeptRun(s, t, e.revision.pull, id, stale, s.deliveries[f.delivery]);
      }
    }
    forall d ensures DeliveryOk(t, accepted + [e], d) {
      assert DeliveryOk(s, accepted, d);
      DeliveryGrows(s, accepted, e, d);
      if d in s.deliveries {
        assert KeptRun(s, t, e.revision.pull, id, stale, s.deliveries[d]);
      }
    }
    DeliveriesStayDistinct(s, accepted, e);
  }

  lemma InsertKeepsNewest(s: Store, t: Store, e: Event, id: RunId, stale: bool, accepted: seq<Event>,
      newest: map<PullKey, Event>)
    requires CurrentAgrees(s) && NewestAgrees(s, accepted, newest) && Inserted(s, t, e, id, stale)
    ensures NewestAgrees(t, accepted + [e], if stale then newest else newest[e.revision.pull := e])
  {
    var newest' := if stale then newest else newest[e.revision.pull := e];
    var p := e.revision.pull;
    assert PointerOk(s, p);
    forall k ensures StandsFor(t, accepted + [e], newest', k) {
      assert StandsFor(s, accepted, newest, k) && PointerOk(s, k);
      if k in s.current {
        assert KeptRun(s, t, p, id, stale, s.current[k]);
      }
    }
    forall f | f in accepted + [e] ensures NotNewer(t, f) {
      if f in accepted {
        assert NotNewer(s, f);
      }
      assert PointerOk(s, f.revision.pull);
      if f.revision.pull in s.current {
        assert KeptRun(s, t, p, id, stale, s.current[f.revision.pull]);
      }
    }
  }

  lemma InsertAddsOne(s: Store, t: Store, e: Event, id: RunId, stale: bool)
    requires Inserted(s, t, e, id, stale)
    ensures |t.runs| == |s.runs| + 1
  {
    forall x ensures x in t.runs <==> x in s.runs || x == id {
      assert KeptRun(s, t, e.revision.pull, id, stale, x);
    }
    assert t.runs.Keys == s.runs.Keys + {id};
    assert |t.runs| == |t.runs.Keys| && |s.runs| == |s.runs.Keys|;
  }

  lemma InsertKeepsLink(s: Store, t: Store, e: Event, id: RunId, stale: bool, rank: map<RunId, nat>, r: nat, x: RunId)
    requires CurrentAgrees(s) && Chained(s, rank) && Inserted(s, t, e, id, stale) && |t.runs| == |s.runs| + 1
    requires stale ==> s.current[e.revision.pull] in rank
    requires if stale then r + 1 == rank[s.current[e.revision.pull]] else r == |s.runs| + 1
    ensures LinkOk(t, rank[id := r], x)
  {
    var p := e.revision.pull;
    assert PointerOk(s, p);
    assert LinkOk(s, rank, x) && KeptRun(s, t, p, id, stale, x);
    if x in s.runs && s.runs[x].supersededBy.Some? {
      assert KeptRun(s, t, p, id, stale, s.runs[x].supersededBy.value);
    }
    if p in s.current {
      assert LinkOk(s, rank, s.current[p]) && KeptRun(s, t, p, id, stale, s.current[p]);
    }
  }

  lemma InsertKeepsChain(s: Store, t: Store, e: Event, id: RunId, stale: bool, rank: map<RunId, nat>, r: nat)
    requires CurrentAgrees(s) && Chained(s, rank) && Inserted(s, t, e, id, stale)
    requires stale ==> s.current[e.revision.pull] in rank
    requires if stale then r + 1 == rank[s.current[e.revision.pull]] else r == |s.runs| + 1
    ensures Chained(t, rank[id := r])
  {
    InsertAddsOne(s, t, e, id, stale);
    var rank' := rank[id := r];
    forall x ensures LinkOk(t, rank', x) {
      InsertKeepsLink(s, t, e, id, stale, rank, r, x);
    }
  }

  lemma CreateKeepsInv(l: Ledger, op: Op)
    requires Inv(l) && op.AcceptOp?
    requires var o := Accept(l.store, op.e, op.now, op.newId); o.Ok? && o.value.1.kind in {Created, StaleCreated}
    ensures Inv(Extend(l, op))
  {
    AcceptInserts(l, op);
    var stale := Accept(l.store, op.e, op.now, op.newId).value.1.kind == StaleCreated;
    var m := Extend(l, op);
    InsertKeepsRevisions(l.store, m.store, op.e, op.newId, stale, l.log);
    InsertKeepsCurrent(l.store, m.store, op.e, op.newId, stale);
    InsertKeepsDeliveries(l.store, m.store, op.e, op.newId, stale, l.accepted);
    InsertKeepsNewest(l.store, m.store, op.e, op.newId, stale, l.accepted, l.newest);
    InsertKeepsChain(l.store, m.store, op.e, op.newId, stale, l.rank, m.rank[op.newId]);
  }

  lemma ExtendKeepsInv(l: Ledger, op: Op)
    requires Inv(l)
    ensures Inv(Extend(l, op))
  {
    if !op.AcceptOp? {
      OtherOpsKeepShape(l.store, op);
      ShapeKeepsInv(l, Step(l.store, op));
    } else {
      match Accept(l.store, op.e, op.now, op.newId)
      case Err(_) =>
      case Ok((_, a)) =>
        match a.kind
        case DuplicateDelivery =>
        case DuplicateRevision => AbsorbKeepsInv(l, op);
        case StaleCreated => CreateKeepsInv(l, op);
        case Created => CreateKeepsInv(l, op);
    }
  }

  /** Every history of transactions satisfies the invariant. */
  lemma {:induction false} EveryHistory(ops: seq<Op>)
    ensures Inv(Record(ops))
  {
    if ops != [] {
      EveryHistory(ops[..|ops| - 1]);
      ExtendKeepsInv(Record(ops[..|ops| - 1]), ops[|ops| - 1]);
    }
  }
}
