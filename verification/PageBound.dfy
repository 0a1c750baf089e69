/**
 * Why at most one check per run needs the page bound (`github_checks.py`, `_find_existing`): a complete history, from
 * the empty store, in which a lost response and a commit with more than a hundred same-named checks end in two.
 */
module PageBound {
  import opened Prelude
  import opened Workflow
  import opened Evidence
  import opened EvidenceWorkflow
  import opened CheckFormat
  import opened RunStore
  import opened StoreHistory
  import opened Publication

  ghost predicate Reached(moves: seq<Move>, w: World) { AllPossible(moves) && Exec(moves) == w }

  lemma ReachOn(moves: seq<Move>, w: World, m: Move)
    requires Reached(moves, w) && Possible(w, m)
    ensures Reached(moves + [m], Move1(w, m))
  {
    assert (moves + [m])[..|moves|] == moves;
  }

  /** The run may be published, and no check of it is recorded. */
  ghost predicate Publishable(s: Store, r: RunId) {
    && r in s.runs && Wellformed(s.runs[r]) && s.runs[r].state.Current?
    && s.runs[r].reason == Some(Completed) && s.runs[r].publication == Pending
    && r in s.evidence && s.evidence[r].run == r
    && (r in s.publications ==>
          s.publications[r].payload == PayloadSha(Format(s.evidence[r])) && s.publications[r].check.None?)
  }

  lemma BeginsAgain(w: World, r: RunId, payload: Payload)
    requires Publishable(w.store, r) && At(w, r) == Checked(payload) && payload == Format(w.store.evidence[r])
    ensures var w' := Move1(w, Begin(r, 0));
            && Publishable(w'.store, r) && w'.remote == w.remote && w'.store.evidence == w.store.evidence
            && At(w', r) == Begun(payload, None)
  {
  }

  lemma ResumesPending(w: World, r: RunId, payload: Payload)
    requires Publishable(w.store, r) && At(w, r) == Begun(payload, None)
    ensures Move1(w, Resume(r, 0)) == Goto(w, r, Ready(payload, None))
  {
  }

  /** An attempt on a publishable run gets as far as listing the commit's checks, whatever happened before. */
  lemma AttemptLists(moves: seq<Move>, w: World, r: RunId) returns (moves': seq<Move>, w': World)
    requires Reached(moves, w) && Publishable(w.store, r) && At(w, r).Idle?
    ensures Reached(moves', w') && Publishable(w'.store, r) && w'.remote == w.remote
    ensures r in w.store.evidence && w'.store.evidence == w.store.evidence
    ensures At(w', r) == Ready(Format(w.store.evidence[r]), None)
  {
    var payload := Format(w.store.evidence[r]);
    ReachOn(moves, w, Start(r));
    moves', w' := moves + [Start(r)], Goto(w, r, Checked(payload));
    BeginsAgain(w', r, payload);
    ReachOn(moves', w', Begin(r, 0));
    moves', w' := moves' + [Begin(r, 0)], Move1(w', Begin(r, 0));
    ResumesPending(w', r, payload);
    ReachOn(moves', w', Resume(r, 0));
    moves', w' := moves' + [Resume(r, 0)], Goto(w', r, Ready(payload, None));
  }

  lemma EmptyListing(w: World, r: RunId, payload: Payload)
    requires w.remote == [] && At(w, r) == Ready(payload, None)
    ensures Possible(w, Lookup(r, Listed([]))) && Move1(w, Lookup(r, Listed([]))) == Goto(w, r, Absent(payload))
  {
    assert Matching([], payload.head) == {};
  }

  lemma LosesResponse(w: World, r: RunId, payload: Payload)
    requires At(w, r) == Absent(payload)
    ensures Move1(w, Send(r, ResponseLost)) == Post(w, r, payload, false)
  {
  }

  /** With no check of the run on GitHub, the attempt creates one; the process dies before it can record which. */
  lemma CreatesAndDies(moves: seq<Move>, w: World, r: RunId, payload: Payload) returns (moves': seq<Move>, w': World)
    requires Reached(moves, w) && w.remote == [] && At(w, r) == Ready(payload, None) && payload.external == r
    ensures Reached(moves', w') && w'.store == w.store && At(w', r).Idle?
    ensures w'.remote == [Check(payload.head, true, Some(r), payload.conclusion)]
  {
    EmptyListing(w, r, payload);
    ReachOn(moves, w, Lookup(r, Listed([])));
    moves', w' := moves + [Lookup(r, Listed([]))], Goto(w, r, Absent(payload));
    LosesResponse(w', r, payload);
    ReachOn(moves', w', Send(r, ResponseLost));
    moves', w' := moves' + [Send(r, ResponseLost)], Post(w', r, payload, false);
    ReachOn(moves', w', Crash(r));
    moves', w' := moves' + [Crash(r)], Goto(w', r, Idle);
  }

  /** Other applications put `n` same-named checks on the commit. */
  lemma {:induction false} Crowd(moves: seq<Move>, w: World, head: string, n: nat)
      returns (moves': seq<Move>, w': World)
    requires Reached(moves, w)
    ensures Reached(moves', w') && w'.store == w.store && w'.attempts == w.attempts
    ensures |w'.remote| == |w.remote| + n && w.remote <= w'.remote
    ensures forall i | |w.remote| <= i < |w'.remote| :: w'.remote[i] == Check(head, true, None, Neutral)
  {
    if n == 0 {
      moves', w' := moves, w;
    } else {
      var before, v := Crowd(moves, w, head, n - 1);
      var m := ForeignCheck(Check(head, true, None, Neutral));
      ReachOn(before, v, m);
      moves', w' := before + [m], v.(remote := v.remote + [m.check]);
    }
  }

  lemma {:induction false} IntervalSize(s: set<nat>, n: nat)
    requires forall p: nat :: 1 <= p <= n ==> p in s
    ensures |s| >= n
  {
    if n > 0 {
      IntervalSize(s - {n}, n - 1);
      assert |s - {n}| == |s| - 1;
    }
  }

  lemma FirstAccept(e: Event)
    ensures var s := Step(EMPTY, AcceptOp(e, 0, 1));
            s == Create(EMPTY, None, e, 0, 1) && s.runs == map[1 := NewRun(None, e, 0, 1)]
  {
  }

  lemma FirstReport(w: World, run: Run)
    requires w.store.runs == map[1 := run] && Wellformed(run) && run.id == 1 && w.store.evidence == map[]
    ensures var report := Abstention(run, None, [], [], NonDiscriminating, None);
            && Move1(w, WorkerSaves(1, Behaviour(None, false, false, []))) ==
                Do(w, SaveOp(1, report, EvidenceSha(report)))
            && Step(w.store, SaveOp(1, report, EvidenceSha(report))) == w.store.(evidence := map[1 := report])
  {
  }

  /** A run is accepted, completed without a claim, and its report stored. */
  lemma FirstRun(e: Event) returns (moves: seq<Move>, w: World)
    ensures Reached(moves, w) && w.remote == [] && At(w, 1).Idle?
    ensures Publishable(w.store, 1)
  {
    var run := NewRun(None, e, 0, 1);
    assert Reached([], GENESIS);
    ReachOn([], GENESIS, Outside(AcceptOp(e, 0, 1)));
    FirstAccept(e);
    moves, w := [] + [Outside(AcceptOp(e, 0, 1))], Do(GENESIS, AcceptOp(e, 0, 1));
    var saved := WorkerSaves(1, Behaviour(None, false, false, []));
    var report := Abstention(run, None, [], [], NonDiscriminating, None);
    FirstReport(w, run);
    ReachOn(moves, w, saved);
    moves, w := moves + [saved], Do(w, SaveOp(1, report, EvidenceSha(report)));
    var done := Outside(TransitionOp(1, 1,
        Transition(Some(Terminal), None, Some(Completed), None, None, Some(Pending)), 0));
    ReachOn(moves, w, done);
    moves, w := moves + [done], Move1(w, done);
  }

  /** Without the page bound there is a history, with serial attempts only, that ends with two checks of one run. */
  lemma PageBoundIsNeeded(e: Event) returns (moves: seq<Move>)
    ensures AllPossible(moves) && !AtMostOne(Exec(moves).remote, 1)
  {
    var w;
    moves, w := FirstRun(e);
    moves, w := AttemptLists(moves, w, 1);
    var payload := Format(w.store.evidence[1]);
    moves, w := CreatesAndDies(moves, w, 1, payload);
    moves, w := Crowd(moves, w, payload.head, 100);
    moves, w := AttemptLists(moves, w, 1);
    var matching := Matching(w.remote, payload.head);
    forall p: nat | 1 <= p <= 101 ensures p in matching {
      assert ListedAt(w.remote, payload.head, p);
    }
    IntervalSize(matching, 101);
    var page := OverflowingPageDuplicates(w, 1, 1);
    var v := Move1(w, Lookup(1, Listed(page)));
    ReachOn(moves, w, Lookup(1, Listed(page)));
    ReachOn(moves + [Lookup(1, Listed(page))], v, Send(1, Delivered));
    moves := moves + [Lookup(1, Listed(page))] + [Send(1, Delivered)];
  }
}
