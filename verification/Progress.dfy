/**
 * That publishing makes progress (`github_checks.py`, `publish`): from every reachable state in which a run may be
 * published, one undisturbed attempt publishes it; a transient failure leaves it retryable, a permanent one ends it.
 */
module Progress {
  import opened Prelude
  import opened Workflow
  import opened EvidenceWorkflow
  import opened CheckFormat
  import opened RunStore
  import opened StoreHistory
  import opened StoreTheorems
  import opened Publication
  import opened PageBound

  /** The run is completed and current, its evidence stored, and publishing it has not ended. */
  ghost predicate MayPublish(s: Store, r: RunId, now: Time) {
    && r in s.runs && Wellformed(s.runs[r]) && s.runs[r].changed <= now
    && s.runs[r].state.Current? && s.runs[r].lifecycle.Terminal? && s.runs[r].reason == Some(Completed)
    && s.runs[r].publication in {Pending, RetryableFailure}
    && r in s.evidence
  }

  /** The identifier recorded for the run's check, if any. */
  function Known(s: Store, r: RunId): Option<nat> { if r in s.publications then s.publications[r].check else None }

  /** The attempt's publication record is begun for this payload, and the run stands at `p`. */
  ghost predicate Begun(s: Store, r: RunId, payload: Payload, known: Option<nat>, p: PublicationState, t: Time) {
    && r in s.runs && Wellformed(s.runs[r]) && s.runs[r].changed <= t
    && s.runs[r].state.Current? && s.runs[r].lifecycle.Terminal? && s.runs[r].reason == Some(Completed)
    && s.runs[r].publication == p
    && r in s.evidence && payload == Format(s.evidence[r])
    && r in s.publications && s.publications[r].payload == PayloadSha(payload) && s.publications[r].check == known
  }

  lemma Starts(w: World, r: RunId, now: Time)
    requires MayPublish(w.store, r, now) && At(w, r).Idle?
    ensures Move1(w, Start(r)) == Goto(w, r, Checked(Format(w.store.evidence[r])))
  {
  }

  /**
   * An idle attempt starts exactly for a readable, current, completed run with stored evidence whose publication has
   * neither succeeded nor failed for good; otherwise nothing happens.
   */
  lemma StartsExactly(w: World, r: RunId)
    requires At(w, r).Idle?
    ensures Move1(w, Start(r)) != w <==>
            && r in w.store.runs && Wellformed(w.store.runs[r]) && r in w.store.evidence
            && w.store.runs[r].state.Current? && w.store.runs[r].lifecycle.Terminal?
            && w.store.runs[r].reason == Some(Completed)
            && !w.store.runs[r].publication.Published? && !w.store.runs[r].publication.TerminalFailure?
  {
    if r in w.store.evidence {
      assert At(Goto(w, r, Checked(Format(w.store.evidence[r]))), r) != At(w, r);
    }
  }

  lemma Begins(w: World, r: RunId, payload: Payload, t: Time, now: Time)
    requires MayPublish(w.store, r, now) && At(w, r) == Checked(payload) && payload == Format(w.store.evidence[r])
    requires r in w.store.publications ==> w.store.publications[r].payload == PayloadSha(payload)
    ensures var v := Move1(w, Begin(r, t));
            && v.remote == w.remote && v.store.evidence == w.store.evidence
            && At(v, r) == Publication.Begun(payload, Known(w.store, r))
            && Begun(v.store, r, payload, Known(w.store, r), w.store.runs[r].publication, now)
  {
  }

  lemma Resumes(w: World, r: RunId, payload: Payload, known: Option<nat>, now: Time)
    requires At(w, r) == Publication.Begun(payload, known)
    requires Begun(w.store, r, payload, known, Pending, now) || Begun(w.store, r, payload, known, RetryableFailure, now)
    ensures var v := Move1(w, Resume(r, now));
            && v.remote == w.remote && v.store.evidence == w.store.evidence
            && At(v, r) == Ready(payload, known) && Begun(v.store, r, payload, known, Pending, now)
  {
  }

  /** What every reachable state knows about a run's evidence and records. */
  lemma ReachedFacts(moves: seq<Move>, r: RunId)
    requires AllPossible(moves) && r in Exec(moves).store.evidence
    ensures var w := Exec(moves);
            var payload := Format(w.store.evidence[r]);
            && payload.external == r
            && (r in w.store.publications ==> w.store.publications[r].payload == PayloadSha(payload))
            && (Known(w.store, r).Some? ==> Owns(w.remote, Known(w.store, r).value, r))
  {
    EveryExecution(moves, false);
    assert RunOkay(Exec(moves), r, false);
  }

  lemma BeginsAttempt(moves: seq<Move>, w: World, r: RunId, begun: Time, now: Time) returns (v: World)
    requires Reached(moves, w) && MayPublish(w.store, r, now) && At(w, r).Idle?
    ensures Reached(moves + [Start(r)] + [Begin(r, begun)], v) && v.remote == w.remote
    ensures var payload := Format(w.store.evidence[r]);
            && At(v, r) == Publication.Begun(payload, Known(w.store, r))
            && Begun(v.store, r, payload, Known(w.store, r), w.store.runs[r].publication, now)
  {
    ReachedFacts(moves, r);
    ReachOn(moves, w, Start(r));
    Starts(w, r, now);
    v := Goto(w, r, Checked(Format(w.store.evidence[r])));
    ReachOn(moves + [Start(r)], v, Begin(r, begun));
    Begins(v, r, Format(w.store.evidence[r]), begun, now);
    v := Move1(v, Begin(r, begun));
  }

  /** The first three steps of an attempt lead to the listing, with the run PENDING. */
  lemma BecomesReady(moves: seq<Move>, w: World, r: RunId, begun: Time, resumed: Time)
      returns (more: seq<Move>, v: World)
    requires Reached(moves, w) && MayPublish(w.store, r, resumed) && At(w, r).Idle?
    ensures more == [Start(r)] + [Begin(r, begun)] + [Resume(r, resumed)]
    ensures Reached(moves + more, v) && v.remote == w.remote
    ensures var payload := Format(w.store.evidence[r]);
            && At(v, r) == Ready(payload, Known(w.store, r))
            && Begun(v.store, r, payload, Known(w.store, r), Pending, resumed)
  {
    v := BeginsAttempt(moves, w, r, begun, resumed);
    ReachOn(moves + [Start(r)] + [Begin(r, begun)], v, Resume(r, resumed));
    Resumes(v, r, Format(w.store.evidence[r]), Known(w.store, r), resumed);
    v := Move1(v, Resume(r, resumed));
    more := [Start(r)] + [Begin(r, begun)] + [Resume(r, resumed)];
    assert moves + more == moves + [Start(r)] + [Begin(r, begun)] + [Resume(r, resumed)];
  }

  /** The page a listing would return is a permitted one; with a recorded identifier nothing is listed. */
  ghost predicate PageOk(w: World, r: RunId, page: seq<nat>) {
    r in w.store.evidence && (Known(w.store, r).None? ==> IsPage(w.remote, Format(w.store.evidence[r]).head, page))
  }

  lemma Looks(w: World, r: RunId, payload: Payload, known: Option<nat>, page: seq<nat>)
    requires At(w, r) == Ready(payload, known) && payload.external == r
    requires known.Some? ==> Owns(w.remote, known.value, r)
    ensures var v := Move1(w, Lookup(r, Listed(page)));
            && v.store == w.store && v.remote == w.remote
            && ((exists id: nat :: At(v, r) == Found(payload, id) && Owns(w.remote, id, r)
                              && (known.Some? ==> known == Some(id)))
                || (known.None? && At(v, r) == Absent(payload)))
  {
    var v := Move1(w, Lookup(r, Listed(page)));
    if known.Some? {
      assert At(v, r) == Found(payload, known.value);
    } else {
      var found := FirstOwned(w.remote, page, r);
      assert found.Some? ==> At(v, r) == Found(payload, found.value);
    }
  }

  /** The check shows the payload. */
  ghost predicate Shows(remote: seq<Check>, id: nat, payload: Payload, r: RunId) {
    Owns(remote, id, r) && remote[id - 1].sameName && remote[id - 1].conclusion == payload.conclusion
  }

  lemma Delivers(w: World, r: RunId, payload: Payload) returns (id: nat)
    requires (At(w, r).Found? && At(w, r).payload == payload && Owns(w.remote, At(w, r).check, r))
          || At(w, r) == Absent(payload)
    requires payload.external == r
    ensures var v := Move1(w, Send(r, Delivered));
            v.store == w.store && At(v, r) == Obtained(id) && Shows(v.remote, id, payload, r)
    ensures At(w, r).Found? ==> id == At(w, r).check
  {
    id := if At(w, r).Found? then At(w, r).check else |w.remote| + 1;
  }

  lemma Records(w: World, r: RunId, payload: Payload, known: Option<nat>, id: nat, t: Time, now: Time)
    requires Begun(w.store, r, payload, known, Pending, now) && At(w, r) == Obtained(id) && id > 0
    requires known.Some? ==> known == Some(id)
    ensures var v := Move1(w, RecordId(r, t));
            && v.remote == w.remote && At(v, r) == Recorded
            && Begun(v.store, r, payload, Some(id), Pending, now)
  {
  }

  lemma Finishes(w: World, r: RunId, payload: Payload, id: nat, now: Time)
    requires Begun(w.store, r, payload, Some(id), Pending, now) && At(w, r) == Recorded
    ensures var v := Move1(w, Finish(r, now));
            v.remote == w.remote && At(v, r).Idle? && Begun(v.store, r, payload, Some(id), Published, now)
  {
  }

  /** An attempt that nothing disturbs. */
  function Attempting(r: RunId, page: seq<nat>, begun: Time, resumed: Time, recorded: Time, finished: Time): seq<Move> {
    [Start(r)] + [Begin(r, begun)] + [Resume(r, resumed)]
    + [Lookup(r, Listed(page))] + [Send(r, Delivered)] + [RecordId(r, recorded)] + [Finish(r, finished)]
  }

  lemma AttemptInParts(moves: seq<Move>, more: seq<Move>, r: RunId, page: seq<nat>,
                       begun: Time, resumed: Time, recorded: Time, finished: Time)
    requires more == [Start(r)] + [Begin(r, begun)] + [Resume(r, resumed)]
    ensures moves + Attempting(r, page, begun, resumed, recorded, finished)
         == moves + more + [Lookup(r, Listed(page))] + [Send(r, Delivered)] + [RecordId(r, recorded)]
            + [Finish(r, finished)]
  {
  }

  lemma FromReady(moves: seq<Move>, w: World, r: RunId, payload: Payload, known: Option<nat>, page: seq<nat>,
                  recorded: Time, finished: Time) returns (v: World, id: nat)
    requires Reached(moves, w) && At(w, r) == Ready(payload, known) && payload.external == r
    requires Begun(w.store, r, payload, known, Pending, finished)
    requires known.Some? ==> Owns(w.remote, known.value, r)
    requires known.None? ==> IsPage(w.remote, payload.head, page)
    ensures Reached(moves + [Lookup(r, Listed(page))] + [Send(r, Delivered)] + [RecordId(r, recorded)]
                    + [Finish(r, finished)], v)
    ensures At(v, r).Idle? && Begun(v.store, r, payload, Some(id), Published, finished)
    ensures Shows(v.remote, id, payload, r)
    ensures known.Some? ==> known == Some(id)
  {
    var m := moves;
    ReachesLookup(m, w, r, payload, known, page);
    Looks(w, r, payload, known, page);
    v := Move1(w, Lookup(r, Listed(page)));
    m := m + [Lookup(r, Listed(page))];
    ReachOn(m, v, Send(r, Delivered));
    id := Delivers(v, r, payload);
    v := Move1(v, Send(r, Delivered));
    m := m + [Send(r, Delivered)];
    ReachOn(m, v, RecordId(r, recorded));
    Records(v, r, payload, known, id, recorded, finished);
    v := Move1(v, RecordId(r, recorded));
    m := m + [RecordId(r, recorded)];
    ReachOn(m, v, Finish(r, finished));
    Finishes(v, r, payload, id, finished);
    v := Move1(v, Finish(r, finished));
  }

  lemma ReachesLookup(moves: seq<Move>, w: World, r: RunId, payload: Payload, known: Option<nat>, page: seq<nat>)
    requires Reached(moves, w) && At(w, r) == Ready(payload, known)
    requires known.None? ==> IsPage(w.remote, payload.head, page)
    ensures Reached(moves + [Lookup(r, Listed(page))], Move1(w, Lookup(r, Listed(page))))
  {
    ReachOn(moves, w, Lookup(r, Listed(page)));
  }

  /**
   * From every reachable state in which a run may be published and no attempt on it is under way, an undisturbed
   * attempt, at clocks that are not behind the run, ends with the run PUBLISHED and with the identifier recorded of a
   * check that carries the run's id and shows its evidence; a recorded identifier stays the one.
   */
  lemma UndisturbedAttemptPublishes(moves: seq<Move>, r: RunId, page: seq<nat>,
                                    begun: Time, resumed: Time, recorded: Time, finished: Time) returns (id: nat)
    requires AllPossible(moves) && resumed <= finished
    requires var w := Exec(moves); MayPublish(w.store, r, resumed) && At(w, r).Idle? && PageOk(w, r, page)
    ensures var all := moves + Attempting(r, page, begun, resumed, recorded, finished);
            var w, v := Exec(moves), Exec(all);
            && AllPossible(all) && At(v, r).Idle?
            && Begun(v.store, r, Format(w.store.evidence[r]), Some(id), Published, finished)
            && Shows(v.remote, id, Format(w.store.evidence[r]), r)
            && (Known(w.store, r).Some? ==> Known(w.store, r) == Some(id))
  {
    var w := Exec(moves);
    assert Reached(moves, w);
    ReachedFacts(moves, r);
    var payload, known := Format(w.store.evidence[r]), Known(w.store, r);
    var more, u := BecomesReady(moves, w, r, begun, resumed);
    var v;
    v, id := FromReady(moves + more, u, r, payload, known, page, recorded, finished);
    AttemptInParts(moves, more, r, page, begun, resumed, recorded, finished);
  }

  // ---------------------------------------------------------------------------------------------
  // Failures
  // ---------------------------------------------------------------------------------------------

  /** How an attempt that is ready to list fails at GitHub. */
  datatype Trouble =
    | ListingFails(kind: ErrorKind)
    | SendFails(page: seq<nat>, kind: ErrorKind)
    | ResponseLoses(page: seq<nat>)

  function KindOf(t: Trouble): ErrorKind { if t.ResponseLoses? then Transient else t.kind }

  function Requests(r: RunId, t: Trouble): seq<Move> {
    match t
    case ListingFails(kind) => [Lookup(r, ListFailed(kind))]
    case SendFails(page, kind) => [Lookup(r, Listed(page))] + [Send(r, NotDelivered(kind))]
    case ResponseLoses(page) => [Lookup(r, Listed(page))] + [Send(r, ResponseLost)]
  }

  /** The trouble can happen: only an attempt without a recorded identifier lists, and a listing is a permitted page. */
  ghost predicate TroubleOk(w: World, r: RunId, known: Option<nat>, head: string, t: Trouble) {
    match t
    case ListingFails(_) => known.None?
    case SendFails(page, _) => known.None? ==> IsPage(w.remote, head, page)
    case ResponseLoses(page) => known.None? ==> IsPage(w.remote, head, page)
  }

  lemma RequestFails(moves: seq<Move>, w: World, r: RunId, payload: Payload, known: Option<nat>, t: Trouble)
      returns (v: World)
    requires Reached(moves, w) && At(w, r) == Ready(payload, known) && payload.external == r
    requires known.Some? ==> Owns(w.remote, known.value, r)
    requires TroubleOk(w, r, known, payload.head, t)
    ensures Reached(moves + Requests(r, t), v) && v.store == w.store && At(v, r) == Failing(KindOf(t))
  {
    match t {
      case ListingFails(kind) =>
        ReachOn(moves, w, Lookup(r, ListFailed(kind)));
        v := Move1(w, Lookup(r, ListFailed(kind)));
      case SendFails(page, kind) =>
        v := SendGoesWrong(moves, w, r, payload, known, page, NotDelivered(kind));
      case ResponseLoses(page) =>
        v := SendGoesWrong(moves, w, r, payload, known, page, ResponseLost);
    }
  }

  lemma SendGoesWrong(moves: seq<Move>, w: World, r: RunId, payload: Payload, known: Option<nat>, page: seq<nat>,
                      reply: SendReply) returns (v: World)
    requires Reached(moves, w) && At(w, r) == Ready(payload, known) && payload.external == r && !reply.Delivered?
    requires known.Some? ==> Owns(w.remote, known.value, r)
    requires known.None? ==> IsPage(w.remote, payload.head, page)
    ensures Reached(moves + ([Lookup(r, Listed(page))] + [Send(r, reply)]), v) && v.store == w.store
    ensures At(v, r) == Failing(if reply.ResponseLost? then Transient else reply.kind)
  {
    ReachesLookup(moves, w, r, payload, known, page);
    Looks(w, r, payload, known, page);
    v := Move1(w, Lookup(r, Listed(page)));
    ReachOn(moves + [Lookup(r, Listed(page))], v, Send(r, reply));
    SendFailing(v, r, reply);
    v := Move1(v, Send(r, reply));
    assert moves + ([Lookup(r, Listed(page))] + [Send(r, reply)])
        == moves + [Lookup(r, Listed(page))] + [Send(r, reply)];
  }

  lemma SendFailing(w: World, r: RunId, reply: SendReply)
    requires !reply.Delivered? && (At(w, r).Absent? || (At(w, r).Found? && Owns(w.remote, At(w, r).check, r)))
    ensures var v := Move1(w, Send(r, reply));
            v.store == w.store && At(v, r) == Failing(if reply.ResponseLost? then Transient else reply.kind)
  {
  }

  lemma Notes(w: World, r: RunId, payload: Payload, known: Option<nat>, t: Time, now: Time)
    requires Begun(w.store, r, payload, known, Pending, now) && At(w, r).Failing?
    ensures var u := Move1(w, NoteError(r, t));
            && At(u, r) == Noted(At(w, r).kind) && Begun(u.store, r, payload, known, Pending, now)
            && u.store.publications[r].lastError.Some?
  {
  }

  lemma Marks(w: World, r: RunId, payload: Payload, known: Option<nat>, now: Time)
    requires Begun(w.store, r, payload, known, Pending, now) && At(w, r).Noted?
    requires w.store.publications[r].lastError.Some?
    ensures var v := Move1(w, MarkFailure(r, now));
            && At(v, r).Idle?
            && Begun(v.store, r, payload, known,
                     if At(w, r).kind == Transient then RetryableFailure else TerminalFailure, now)
            && v.store.publications[r].lastError.Some?
  {
  }

  /** An attempt that meets trouble at GitHub. */
  function Troubled(r: RunId, t: Trouble, begun: Time, resumed: Time, noted: Time, marked: Time): seq<Move> {
    [Start(r)] + [Begin(r, begun)] + [Resume(r, resumed)] + Requests(r, t)
    + [NoteError(r, noted)] + [MarkFailure(r, marked)]
  }

  lemma TroubleInParts(moves: seq<Move>, more: seq<Move>, r: RunId, t: Trouble,
                       begun: Time, resumed: Time, noted: Time, marked: Time)
    requires more == [Start(r)] + [Begin(r, begun)] + [Resume(r, resumed)]
    ensures moves + Troubled(r, t, begun, resumed, noted, marked)
         == moves + more + Requests(r, t) + [NoteError(r, noted)] + [MarkFailure(r, marked)]
  {
  }

  lemma FailsFromReady(moves: seq<Move>, u: World, r: RunId, payload: Payload, known: Option<nat>, t: Trouble,
                       noted: Time, marked: Time) returns (v: World)
    requires Reached(moves, u) && At(u, r) == Ready(payload, known) && payload.external == r
    requires Begun(u.store, r, payload, known, Pending, marked)
    requires known.Some? ==> Owns(u.remote, known.value, r)
    requires TroubleOk(u, r, known, payload.head, t)
    ensures Reached(moves + Requests(r, t) + [NoteError(r, noted)] + [MarkFailure(r, marked)], v)
    ensures At(v, r).Idle?
    ensures Begun(v.store, r, payload, known,
                  if KindOf(t) == Transient then RetryableFailure else TerminalFailure, marked)
    ensures v.store.publications[r].lastError.Some?
  {
    var failed := RequestFails(moves, u, r, payload, known, t);
    var m := moves + Requests(r, t);
    ReachOn(m, failed, NoteError(r, noted));
    ReachOn(m + [NoteError(r, noted)], Move1(failed, NoteError(r, noted)), MarkFailure(r, marked));
    Notes(failed, r, payload, known, noted, marked);
    Marks(Move1(failed, NoteError(r, noted)), r, payload, known, marked);
    v := Move1(Move1(failed, NoteError(r, noted)), MarkFailure(r, marked));
  }

  /**
   * From the same states, an attempt that meets a transient failure leaves the run RETRYABLE_FAILURE with the error
   * recorded, in a state from which an undisturbed attempt publishes it; a permanent one leaves it TERMINAL_FAILURE.
   */
  lemma TroubledAttemptFails(moves: seq<Move>, r: RunId, t: Trouble, begun: Time, resumed: Time, noted: Time,
      marked: Time)
    requires AllPossible(moves) && resumed <= marked
    requires var w := Exec(moves);
             && MayPublish(w.store, r, resumed) && At(w, r).Idle?
             && TroubleOk(w, r, Known(w.store, r), Format(w.store.evidence[r]).head, t)
    ensures var all := moves + Troubled(r, t, begun, resumed, noted, marked);
            var v := Exec(all);
            && AllPossible(all) && At(v, r).Idle?
            && r in v.store.publications && v.store.publications[r].lastError.Some?
            && r in v.store.runs
            && (KindOf(t) == Transient ==>
                  v.store.runs[r].publication.RetryableFailure? && MayPublish(v.store, r, marked))
            && (KindOf(t) == Permanent ==> v.store.runs[r].publication.TerminalFailure?)
  {
    var w := Exec(moves);
    assert Reached(moves, w);
    ReachedFacts(moves, r);
    var payload, known := Format(w.store.evidence[r]), Known(w.store, r);
    var more, u := BecomesReady(moves, w, r, begun, resumed);
    var v := FailsFromReady(moves + more, u, r, payload, known, t, noted, marked);
    TroubleInParts(moves, more, r, t, begun, resumed, noted, marked);
  }

  // --- Refused for ever ---------------------------------------------------------------------------------

  lemma MoveExtendsHistory(w: World, m: Move)
    ensures w.history <= Move1(w, m).history
  {
  }

  lemma Extends(a: seq<Op>, b: seq<Op>, c: seq<Op>)
    requires a <= b <= c
    ensures a <= c
  {
  }

  lemma {:induction false} HistorySince(all: seq<Move>, i: nat)
    requires i <= |all|
    ensures Exec(all[..i]).history <= Exec(all).history
    decreases |all|
  {
    if i == |all| {
      assert all[..i] == all;
    } else {
      var front := all[..|all| - 1];
      assert front[..i] == all[..i];
      HistorySince(front, i);
      MoveExtendsHistory(Exec(front), all[|all| - 1]);
      Extends(Exec(all[..i]).history, Exec(front).history, Exec(all).history);
    }
  }

  lemma HistoryGrows(moves: seq<Move>, more: seq<Move>)
    ensures Exec(moves).history <= Exec(moves + more).history
  {
    assert (moves + more)[..|moves|] == moves;
    HistorySince(moves + more, |moves|);
  }

  /** A run whose publication failed for good stays so, is never PUBLISHED, and every later attempt on it is refused. */
  lemma TerminalFailureIsFinal(moves: seq<Move>, more: seq<Move>, r: RunId)
    requires AllPossible(moves + more) && AllPossible(moves)
    requires r in Exec(moves).store.runs && Exec(moves).store.runs[r].publication.TerminalFailure?
    ensures var v := Exec(moves + more);
            && r in v.store.runs && v.store.runs[r].publication.TerminalFailure?
            && (At(v, r).Idle? ==> Move1(v, Start(r)) == v)
  {
    EveryExecution(moves, false);
    EveryExecution(moves + more, false);
    HistoryGrows(moves, more);
    var a, b := Exec(moves).history, Exec(moves + more).history;
    assert b == a + b[|a|..];
    RunsOnlyMoveForward(a, b[|a|..], r);
  }
}
