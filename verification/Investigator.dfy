/** The bounded investigation loop of `claim_investigator.py`, for every model and every answer of the indexes. */
module Investigator {
  import opened Prelude
  import opened Symbols
  import opened Toolbox

  /** The claim a concluding turn names, if any. */
  datatype Verdict = Abstain | Select(interface: Identity)

  /** One model response: too long, not a valid decision, one to four tool calls, or a conclusion. */
  datatype Reply = TooLong | Malformed | Investigate(calls: seq<Call>) | Conclude(verdict: Verdict)

  /** `InvestigatorDecision` admits one to four tool calls. */
  predicate ReplyOk(r: Reply) { r.Investigate? ==> 1 <= |r.calls| <= 4 }

  /** A model answers every turn; whatever it has seen, on one run that makes a reply for each turn number. */
  type Model = nat -> Reply

  ghost predicate ModelOk(model: Model) { forall n :: ReplyOk(model(n)) }

  datatype Result = Failed | Concluded(verdict: Verdict)

  /** Where a run stops: how many model calls it made, the toolbox it leaves, and every identity a tool returned. */
  datatype Ending = Ending(modelCalls: nat, tools: State, seen: set<Identity>, result: Result)

  function Identities(p: Payload): set<Identity> {
    if p.Refusal? then {} else set m | m in p.matches && m.symbol.Some? :: m.symbol.value
  }

  /** The tool calls of one turn, in order. */
  function DoCalls(b: Budget, s: State, seen: set<Identity>, calls: seq<Call>): (r: (State, set<Identity>))
    ensures r.0.turn == s.turn
  {
    if calls == [] then (s, seen)
    else
      var (t, found) := DoCalls(b, s, seen, calls[..|calls| - 1]);
      var (u, p) := CallTool(b, t, calls[|calls| - 1]);
      assert u.turn == t.turn by { CallIsRecorded(b, t, calls[|calls| - 1]); }
      (u, found + Identities(p))
  }

  function Decide(r: Reply): Result {
    match r
    case Conclude(v) => Concluded(v)
    case _ => Failed
  }

  /** The loop from its `n`-th model call on. */
  function Turns(b: Budget, model: Model, n: nat, s: State, seen: set<Identity>): (e: Ending)
    ensures e.modelCalls >= n
    decreases b.maxTurns - s.turn
  {
    var reply := model(n);
    if !reply.Investigate? then Ending(n, s, seen, Decide(reply))
    else
      var (t, found) := DoCalls(b, s, seen, reply.calls);
      // `begin_turn` advances even when the call budget then ends the loop.
      var began := t.turn < b.maxTurns;
      var u := if began then t.(turn := t.turn + 1) else t;
      if !began || Exhausted(b, u) then Ending(n + 1, u, found, Decide(model(n + 1)))
      else Turns(b, model, n + 1, u, found)
  }

  function Run(b: Budget, model: Model): (e: Ending)
    ensures e.modelCalls >= 1
  {
    Turns(b, model, 1, FRESH, {})
  }

  /** The source's own loop over the live toolbox. */
  method RunLoop(b: Budget, model: Model) returns (e: Ending)
    requires BudgetOk(b)
    ensures e == Run(b, model)
  {
    var toolbox := new InvestigationToolbox(b);
    var seen: set<Identity> := {};
    var turns := 0;
    while true
      invariant toolbox.budget == b && fresh(toolbox)
      invariant turns + 1 == toolbox.turn <= b.maxTurns
      invariant Run(b, model) == Turns(b, model, turns + 1, toolbox.Contents(), seen)
      decreases b.maxTurns - toolbox.turn
    {
      turns := turns + 1;
      var reply := model(turns);
      if !reply.Investigate? {
        return Ending(turns, State(toolbox.calls, toolbox.perTool, toolbox.sourceChars, toolbox.turn), seen,
            Decide(reply));
      }
      seen := CallAll(toolbox, seen, reply.calls);
      ghost var called := toolbox.Contents();
      var more := toolbox.BeginTurn();
      assert toolbox.Contents() == if more then called.(turn := called.turn + 1) else called;
      if !more || |toolbox.calls| >= b.maxTotalCalls {
        turns := turns + 1;
        return Ending(turns, State(toolbox.calls, toolbox.perTool, toolbox.sourceChars, toolbox.turn), seen,
            Decide(model(turns)));
      }
    }
  }

  method CallAll(toolbox: InvestigationToolbox, discovered: set<Identity>, calls: seq<Call>)
      returns (seen: set<Identity>)
    modifies toolbox
    ensures (toolbox.Contents(), seen) == DoCalls(toolbox.budget, old(toolbox.Contents()), discovered, calls)
  {
    ghost var start := toolbox.Contents();
    seen := discovered;
    for i := 0 to |calls|
      invariant (toolbox.Contents(), seen) == DoCalls(toolbox.budget, start, discovered, calls[..i])
    {
      assert calls[..i + 1][..i] == calls[..i];
      var payload := toolbox.Invoke(calls[i]);
      seen := seen + Identities(payload);
    }
    assert calls[..|calls|] == calls;
  }

  // --- Bounds --------------------------------------------------------------------------------------

  lemma NextTurnIsWithin(b: Budget, s: State)
    requires Within(b, s) && s.turn < b.maxTurns
    ensures Within(b, s.(turn := s.turn + 1))
  {
    var t := s.(turn := s.turn + 1);
    forall i: nat ensures RecordOk(b, t, i) {
      assert RecordOk(b, s, i);
    }
    forall x: Tool ensures ToolOk(b, t, x) {
      assert ToolOk(b, s, x);
    }
  }

  lemma {:induction false} CallsAreWithin(b: Budget, s: State, seen: set<Identity>, calls: seq<Call>)
    requires Within(b, s)
    ensures Within(b, DoCalls(b, s, seen, calls).0)
  {
    if calls != [] {
      CallsAreWithin(b, s, seen, calls[..|calls| - 1]);
      CallKeepsBudgets(b, DoCalls(b, s, seen, calls[..|calls| - 1]).0, calls[|calls| - 1]);
    }
  }

  lemma {:induction false} CallsAreRecorded(b: Budget, s: State, seen: set<Identity>, calls: seq<Call>)
    ensures |s.calls| <= |DoCalls(b, s, seen, calls).0.calls| <= |s.calls| + |calls|
    ensures (forall c | c in calls :: c.tool.Some?) ==> |DoCalls(b, s, seen, calls).0.calls| == |s.calls| + |calls|
  {
    if calls != [] {
      CallsAreRecorded(b, s, seen, calls[..|calls| - 1]);
      CallIsRecorded(b, DoCalls(b, s, seen, calls[..|calls| - 1]).0, calls[|calls| - 1]);
    }
  }

  lemma {:induction false} TurnsAreWithin(b: Budget, model: Model, n: nat, s: State, seen: set<Identity>)
    requires Within(b, s)
    ensures Within(b, Turns(b, model, n, s, seen).tools)
    decreases b.maxTurns - s.turn
  {
    if model(n).Investigate? {
      CallsAreWithin(b, s, seen, model(n).calls);
      var (t, found) := DoCalls(b, s, seen, model(n).calls);
      if t.turn < b.maxTurns {
        NextTurnIsWithin(b, t);
        TurnsAreWithin(b, model, n + 1, t.(turn := t.turn + 1), found);
      }
    }
  }

  // --- The turns of a run --------------------------------------------------------------------------

  /** Where the loop stands before model call `n`. */
  datatype Point = Point(n: nat, s: State, seen: set<Identity>)

  const OUTSET := Point(1, FRESH, {})

  function Rest(b: Budget, model: Model, p: Point): Ending { Turns(b, model, p.n, p.s, p.seen) }

  function AfterCalls(b: Budget, model: Model, p: Point): Point
    requires model(p.n).Investigate?
  {
    var (t, found) := DoCalls(b, p.s, p.seen, model(p.n).calls);
    Point(p.n + 1, t.(turn := p.s.turn + 1), found)
  }

  /** The loop goes round again after this model call. */
  predicate GoesOn(b: Budget, model: Model, p: Point) {
    model(p.n).Investigate? && p.s.turn < b.maxTurns && |AfterCalls(b, model, p).s.calls| < b.maxTotalCalls
  }

  /** Where the `n`-th turn starts, if the model investigates in all turns before it. */
  function PointAt(b: Budget, model: Model, n: nat): Point {
    if n <= 1 then OUTSET
    else
      var p := PointAt(b, model, n - 1);
      if model(p.n).Investigate? then AfterCalls(b, model, p) else p
  }

  /** The loop reaches its `n`-th turn. */
  predicate Plays(b: Budget, model: Model, n: nat) {
    n == 1 || (n > 1 && Plays(b, model, n - 1) && GoesOn(b, model, PointAt(b, model, n - 1)))
  }

  /** What holds before every model call the loop makes while the budgets are open. */
  predicate Open(b: Budget, p: Point) {
    1 <= p.n == p.s.turn <= b.maxTurns && |p.s.calls| <= 4 * (p.n - 1) && |p.s.calls| < b.maxTotalCalls
  }

  lemma TurnAddsFour(b: Budget, model: Model, p: Point)
    requires ModelOk(model) && model(p.n).Investigate?
    ensures |AfterCalls(b, model, p).s.calls| <= |p.s.calls| + 4
  {
    assert ReplyOk(model(p.n));
    CallsAreRecorded(b, p.s, p.seen, model(p.n).calls);
  }

  lemma RestGoesOn(b: Budget, model: Model, p: Point)
    requires GoesOn(b, model, p)
    ensures Rest(b, model, p) == Rest(b, model, AfterCalls(b, model, p))
  {
  }

  lemma {:induction false} PlaysRun(b: Budget, model: Model, n: nat)
    requires BudgetOk(b) && Plays(b, model, n)
    ensures PointAt(b, model, n).n == PointAt(b, model, n).s.turn == n <= b.maxTurns
    ensures Run(b, model) == Rest(b, model, PointAt(b, model, n))
  {
    if n > 1 {
      PlaysRun(b, model, n - 1);
      assert GoesOn(b, model, PointAt(b, model, n - 1));
      RestGoesOn(b, model, PointAt(b, model, n - 1));
    }
  }

  lemma StaysOpen(b: Budget, model: Model, p: Point)
    requires Open(b, p) && ModelOk(model) && GoesOn(b, model, p)
    ensures Open(b, AfterCalls(b, model, p))
  {
    TurnAddsFour(b, model, p);
  }

  lemma {:induction false} PlaysOpen(b: Budget, model: Model, n: nat)
    requires BudgetOk(b) && ModelOk(model) && Plays(b, model, n)
    ensures Open(b, PointAt(b, model, n))
  {
    if n > 1 {
      PlaysOpen(b, model, n - 1);
      StaysOpen(b, model, PointAt(b, model, n - 1));
    }
  }

  lemma {:induction false} PlaysBefore(b: Budget, model: Model, i: nat, n: nat)
    requires Plays(b, model, n) && 1 <= i <= n
    ensures Plays(b, model, i)
    decreases n
  {
    if i < n {
      PlaysBefore(b, model, i, n - 1);
    }
  }

  lemma PlaysOnlyUpTo(b: Budget, model: Model, i: nat, n: nat)
    requires Plays(b, model, n) && !GoesOn(b, model, PointAt(b, model, n)) && Plays(b, model, i)
    ensures i <= n
  {
    if i > n {
      PlaysBefore(b, model, n + 1, i);
    }
  }

  /** The last turn the loop reaches. */
  lemma {:induction false} LastTurnFrom(b: Budget, model: Model, m: nat) returns (n: nat)
    requires BudgetOk(b) && Plays(b, model, m)
    ensures Plays(b, model, n) && !GoesOn(b, model, PointAt(b, model, n))
    decreases b.maxTurns - m
  {
    PlaysRun(b, model, m);
    if GoesOn(b, model, PointAt(b, model, m)) {
      n := LastTurnFrom(b, model, m + 1);
    } else {
      n := m;
    }
  }

  lemma LastTurn(b: Budget, model: Model) returns (n: nat)
    requires BudgetOk(b)
    ensures Plays(b, model, n) && !GoesOn(b, model, PointAt(b, model, n)) && n <= b.maxTurns
    ensures PointAt(b, model, n).n == PointAt(b, model, n).s.turn == n
    ensures Run(b, model) == Rest(b, model, PointAt(b, model, n))
  {
    n := LastTurnFrom(b, model, 1);
    PlaysRun(b, model, n);
  }

  /** How a run ends in its last turn: concluding there, or with one final model call on what it has. */
  lemma RestEnds(b: Budget, model: Model, p: Point)
    requires !GoesOn(b, model, p)
    ensures var e := Rest(b, model, p);
            if model(p.n).Investigate?
            then e.modelCalls == p.n + 1 && e.tools.calls == AfterCalls(b, model, p).s.calls
                 && e.seen == AfterCalls(b, model, p).seen
            else e.modelCalls == p.n && e.tools.calls == p.s.calls && e.seen == p.seen
  {
  }

  /**
   * For every model: at most `maxTurns + 1` model calls, every budget kept, and at most `maxTotalCalls + 3` records
   * (refused calls are recorded too, up to four in a turn).
   */
  lemma InvestigationIsBounded(b: Budget, model: Model)
    requires BudgetOk(b) && ModelOk(model)
    ensures var e := Run(b, model);
            && Within(b, e.tools)
            && 1 <= e.modelCalls <= b.maxTurns + 1
            && |e.tools.calls| <= Min(4 * b.maxTurns, b.maxTotalCalls + 3)
  {
    FreshIsWithin(b);
    TurnsAreWithin(b, model, 1, FRESH, {});
    var n := LastTurn(b, model);
    PlaysOpen(b, model, n);
    RestEnds(b, model, PointAt(b, model, n));
    if model(n).Investigate? {
      TurnAddsFour(b, model, PointAt(b, model, n));
    }
  }

  /**
   * The model investigates in turn `i`, and unless that is the last turn, the records then stay below the call budget.
   */
  predicate InvestigatesAt(b: Budget, model: Model, i: nat) {
    model(i).Investigate? && (i < b.maxTurns ==> |PointAt(b, model, i + 1).s.calls| < b.maxTotalCalls)
  }

  ghost predicate InvestigatesThroughout(b: Budget, model: Model) {
    forall i: nat | 1 <= i <= b.maxTurns :: InvestigatesAt(b, model, i)
  }

  /** A turn that is reached leads on exactly if the model investigates in it and the records stay below the budget. */
  lemma ReachedGoesOn(b: Budget, model: Model, i: nat)
    requires BudgetOk(b) && Plays(b, model, i) && i < b.maxTurns
    ensures GoesOn(b, model, PointAt(b, model, i)) <==> InvestigatesAt(b, model, i)
  {
    PlaysRun(b, model, i);
    if model(i).Investigate? {
      assert PointAt(b, model, i + 1) == AfterCalls(b, model, PointAt(b, model, i));
    }
  }

  lemma {:induction false} ThroughoutPlays(b: Budget, model: Model, n: nat)
    requires BudgetOk(b) && InvestigatesThroughout(b, model) && 1 <= n <= b.maxTurns
    ensures Plays(b, model, n)
  {
    if n > 1 {
      ThroughoutPlays(b, model, n - 1);
      assert InvestigatesAt(b, model, n - 1);
      ReachedGoesOn(b, model, n - 1);
    }
  }

  lemma PlayedThroughout(b: Budget, model: Model, i: nat)
    requires BudgetOk(b) && Plays(b, model, b.maxTurns) && 1 <= i < b.maxTurns
    ensures InvestigatesAt(b, model, i)
  {
    PlaysBefore(b, model, i, b.maxTurns);
    PlaysBefore(b, model, i + 1, b.maxTurns);
    ReachedGoesOn(b, model, i);
  }

  lemma LastTurnCalls(b: Budget, model: Model) returns (n: nat)
    requires BudgetOk(b)
    ensures n <= b.maxTurns && Plays(b, model, n)
    ensures Run(b, model).modelCalls == if model(n).Investigate? then n + 1 else n
    ensures Plays(b, model, b.maxTurns) ==> n == b.maxTurns
  {
    n := LastTurn(b, model);
    RestEnds(b, model, PointAt(b, model, n));
    if Plays(b, model, b.maxTurns) {
      PlaysOnlyUpTo(b, model, b.maxTurns, n);
    }
  }

  /** The run overruns if and only if it reaches turn `maxTurns` and the model investigates in it. */
  lemma OverrunsInLastTurn(b: Budget, model: Model)
    requires BudgetOk(b)
    ensures Run(b, model).modelCalls == b.maxTurns + 1 <==>
            Plays(b, model, b.maxTurns) && model(b.maxTurns).Investigate?
  {
    var n := LastTurnCalls(b, model);
  }

  /**
   * A run makes `maxTurns + 1` model calls, one more than it documents, exactly for the models that never stop to
   * conclude.
   */
  lemma OverrunsExactly(b: Budget, model: Model)
    requires BudgetOk(b)
    ensures Run(b, model).modelCalls == b.maxTurns + 1 <==> InvestigatesThroughout(b, model)
  {
    OverrunsInLastTurn(b, model);
    if InvestigatesThroughout(b, model) {
      ThroughoutPlays(b, model, b.maxTurns);
      assert InvestigatesAt(b, model, b.maxTurns);
    }
    if Plays(b, model, b.maxTurns) && model(b.maxTurns).Investigate? {
      forall i: nat | 1 <= i <= b.maxTurns ensures InvestigatesAt(b, model, i) {
        if i < b.maxTurns {
          PlayedThroughout(b, model, i);
        }
      }
    }
  }

  /** A model that asks for a tool that does not exist, every turn. */
  function Lost(): Model { n => Investigate([Call(None, QueryRejected)]) }

  lemma {:induction false} LostRecordsNothing(b: Budget, n: nat)
    ensures PointAt(b, Lost(), n).s.calls == []
  {
    if n > 1 {
      LostRecordsNothing(b, n - 1);
      var p := PointAt(b, Lost(), n - 1);
      var calls := Lost()(p.n).calls;
      assert calls[..0] == [] && DoCalls(b, p.s, p.seen, calls[..0]).0 == p.s;
    }
  }

  /** Every admissible budget has a model that makes one model call more than `maxTurns`. */
  lemma EveryBudgetOverruns(b: Budget)
    requires BudgetOk(b)
    ensures ModelOk(Lost()) && Run(b, Lost()).modelCalls == b.maxTurns + 1
  {
    forall i: nat | 1 <= i <= b.maxTurns ensures InvestigatesAt(b, Lost(), i) {
      LostRecordsNothing(b, i + 1);
    }
    OverrunsExactly(b, Lost());
  }

  // --- The last reply --------------------------------------------------------------------------------

  lemma RestConcludes(b: Budget, model: Model, p: Point)
    requires !GoesOn(b, model, p)
    ensures var e := Rest(b, model, p);
            forall v :: e.result == Concluded(v) <==> model(e.modelCalls) == Conclude(v)
  {
  }

  /** A run concludes with exactly what the last reply it asked for concludes with, and fails if that reply does not. */
  lemma ConcludesWithLastReply(b: Budget, model: Model)
    requires BudgetOk(b)
    ensures var e := Run(b, model);
            forall v :: e.result == Concluded(v) <==> model(e.modelCalls) == Conclude(v)
  {
    var n := LastTurn(b, model);
    RestConcludes(b, model, PointAt(b, model, n));
  }

  // --- Discovery -----------------------------------------------------------------------------------

  /** Executing call `c` with the toolbox in state `s` is answered, is recorded as answered, and shows `id`. */
  predicate ReturnsAt(b: Budget, s: State, c: Call, id: Identity) {
    var (t, payload) := CallTool(b, s, c);
    && payload.Results? && id in Identities(payload)
    && |t.calls| == |s.calls| + 1 && t.calls[|s.calls|].status == Answered
  }

  lemma ShownIsRecorded(b: Budget, s: State, c: Call, id: Identity)
    ensures id in Identities(CallTool(b, s, c).1) <==> ReturnsAt(b, s, c, id)
  {
  }

  /** The state in which call `k` of a turn is executed. */
  function StateBefore(b: Budget, p: Point, calls: seq<Call>, k: nat): State
    requires k <= |calls|
  {
    DoCalls(b, p.s, p.seen, calls[..k]).0
  }

  ghost predicate SomeReturns(b: Budget, p: Point, calls: seq<Call>, id: Identity) {
    exists k: nat :: k < |calls| && ReturnsAt(b, StateBefore(b, p, calls, k), calls[k], id)
  }

  lemma SomeReturnsOneMore(b: Budget, p: Point, calls: seq<Call>, c: Call, id: Identity)
    ensures SomeReturns(b, p, calls + [c], id) <==>
            SomeReturns(b, p, calls, id) || ReturnsAt(b, StateBefore(b, p, calls, |calls|), c, id)
  {
    var all := calls + [c];
    forall k: nat | k <= |calls| ensures StateBefore(b, p, all, k) == StateBefore(b, p, calls, k) {
      assert all[..k] == calls[..k];
    }
    if SomeReturns(b, p, calls, id) {
      var k: nat :| k < |calls| && ReturnsAt(b, StateBefore(b, p, calls, k), calls[k], id);
      assert ReturnsAt(b, StateBefore(b, p, all, k), all[k], id);
    }
    if ReturnsAt(b, StateBefore(b, p, calls, |calls|), c, id) {
      assert ReturnsAt(b, StateBefore(b, p, all, |calls|), all[|calls|], id);
    }
  }

  lemma LastCallDiscovers(b: Budget, p: Point, front: seq<Call>, last: Call)
    ensures DoCalls(b, p.s, p.seen, front + [last]).1 ==
            DoCalls(b, p.s, p.seen, front).1 + Identities(CallTool(b, StateBefore(b, p, front, |front|), last).1)
  {
    var calls := front + [last];
    assert calls[..|calls| - 1] == front && front[..|front|] == front;
  }

  lemma {:induction false} CallsDiscover(b: Budget, p: Point, calls: seq<Call>, id: Identity)
    ensures id in DoCalls(b, p.s, p.seen, calls).1 <==> id in p.seen || SomeReturns(b, p, calls, id)
  {
    if calls != [] {
      var front, last := calls[..|calls| - 1], calls[|calls| - 1];
      CallsDiscover(b, p, front, id);
      SomeReturnsOneMore(b, p, front, last, id);
      assert front + [last] == calls;
      LastCallDiscovers(b, p, front, last);
      ShownIsRecorded(b, StateBefore(b, p, front, |front|), last, id);
    }
  }

  /** Some call of turn `n` was executed and returned `id`. */
  ghost predicate TurnReturns(b: Budget, model: Model, n: nat, id: Identity) {
    model(n).Investigate? && SomeReturns(b, PointAt(b, model, n), model(n).calls, id)
  }

  /** A tool call executed in some turn of this run returned `id`. */
  ghost predicate Returned(b: Budget, model: Model, id: Identity) {
    exists n: nat :: Plays(b, model, n) && TurnReturns(b, model, n, id)
  }

  ghost predicate ReturnedBefore(b: Budget, model: Model, n: nat, id: Identity) {
    exists i: nat :: 1 <= i < n && TurnReturns(b, model, i, id)
  }

  lemma ReturnedOneMore(b: Budget, model: Model, n: nat, id: Identity)
    requires 1 <= n
    ensures ReturnedBefore(b, model, n + 1, id) <==> ReturnedBefore(b, model, n, id) || TurnReturns(b, model, n, id)
  {
  }

  lemma {:induction false} SeenSoFar(b: Budget, model: Model, n: nat, id: Identity)
    requires BudgetOk(b) && Plays(b, model, n)
    ensures id in PointAt(b, model, n).seen <==> ReturnedBefore(b, model, n, id)
  {
    if n > 1 {
      PlaysRun(b, model, n - 1);
      SeenSoFar(b, model, n - 1, id);
      ReturnedOneMore(b, model, n - 1, id);
      TurnDiscovers(b, model, n - 1, id);
    }
  }

  lemma TurnDiscovers(b: Budget, model: Model, n: nat, id: Identity)
    requires BudgetOk(b) && Plays(b, model, n) && model(n).Investigate?
    ensures PointAt(b, model, n).n == n
    ensures id in AfterCalls(b, model, PointAt(b, model, n)).seen <==>
            id in PointAt(b, model, n).seen || TurnReturns(b, model, n, id)
  {
    PlaysRun(b, model, n);
    CallsDiscover(b, PointAt(b, model, n), model(n).calls, id);
  }

  lemma RunSaw(b: Budget, model: Model, n: nat, id: Identity)
    requires BudgetOk(b) && Plays(b, model, n) && !GoesOn(b, model, PointAt(b, model, n))
    ensures id in Run(b, model).seen <==> ReturnedBefore(b, model, n + 1, id)
  {
    PlaysRun(b, model, n);
    SeenSoFar(b, model, n, id);
    ReturnedOneMore(b, model, n, id);
    RestEnds(b, model, PointAt(b, model, n));
    if model(n).Investigate? {
      TurnDiscovers(b, model, n, id);
    }
  }

  /** What counts as discovered is exactly what an executed, answered tool call of this very run returned. */
  lemma DiscoveredExactly(b: Budget, model: Model, id: Identity)
    requires BudgetOk(b)
    ensures id in Run(b, model).seen <==> Returned(b, model, id)
  {
    var n := LastTurn(b, model);
    RunSaw(b, model, n, id);
    if ReturnedBefore(b, model, n + 1, id) {
      var i: nat :| 1 <= i <= n && TurnReturns(b, model, i, id);
      PlaysBefore(b, model, i, n);
    }
    if Returned(b, model, id) {
      var i: nat :| Plays(b, model, i) && TurnReturns(b, model, i, id);
      PlaysOnlyUpTo(b, model, i, n);
    }
  }

  /** A call the toolbox refuses returns nothing, whatever the indexes would have answered. */
  lemma RefusedReturnsNothing(b: Budget, s: State, c: Call, id: Identity)
    requires Exhausted(b, s) || c.tool.None? || UsedBy(s, c.tool.value) >= b.maxCallsPerTool
    ensures !ReturnsAt(b, s, c, id)
  {
  }

  // --- The transcript ------------------------------------------------------------------------------

  const TRANSCRIPT_LIMIT := 16

  /** `InvestigationTranscript` validates at most sixteen tool-call records. */
  predicate TranscriptFits(e: Ending) { |e.tools.calls| <= TRANSCRIPT_LIMIT }

  function Greedy(): Model {
    var call := Call(Some(InspectSymbol), QueryRejected);
    n => Investigate(if n == 1 then [call] else [call, call, call, call])
  }

  lemma {:induction false} GreedyOverflows(b: Budget, n: nat, s: State, seen: set<Identity>)
    requires b.maxTotalCalls >= 14 && b.maxTurns >= 5
    requires 1 <= n == s.turn <= 5 && |s.calls| == (if n == 1 then 0 else 4 * n - 7)
    ensures |Turns(b, Greedy(), n, s, seen).tools.calls| > TRANSCRIPT_LIMIT
    decreases 5 - n
  {
    var calls := Greedy()(n).calls;
    CallsAreRecorded(b, s, seen, calls);
    var (t, found) := DoCalls(b, s, seen, calls);
    var u := t.(turn := t.turn + 1);
    if n < 5 {
      GreedyOverflows(b, n + 1, u, found);
    } else if t.turn < b.maxTurns {
      TurnsKeepRecords(b, Greedy(), n + 1, u, found);
    }
  }

  lemma {:induction false} TurnsKeepRecords(b: Budget, model: Model, n: nat, s: State, seen: set<Identity>)
    ensures |s.calls| <= |Turns(b, model, n, s, seen).tools.calls|
    decreases b.maxTurns - s.turn
  {
    if model(n).Investigate? {
      CallsAreRecorded(b, s, seen, model(n).calls);
      var (t, found) := DoCalls(b, s, seen, model(n).calls);
      if t.turn < b.maxTurns {
        TurnsKeepRecords(b, model, n + 1, t.(turn := t.turn + 1), found);
      }
    }
  }

  /**
   * The transcript of every run passes its own validation exactly for the budgets that allow at most thirteen calls or
   * at most four turns; any larger budget has a model whose run ends in a rejected transcript.
   */
  lemma TranscriptFitsExactly(b: Budget)
    requires BudgetOk(b)
    ensures (forall model: Model :: ModelOk(model) ==> TranscriptFits(Run(b, model))) <==>
            (b.maxTotalCalls <= 13 || b.maxTurns <= 4)
  {
    if b.maxTotalCalls <= 13 || b.maxTurns <= 4 {
      forall model: Model | ModelOk(model) ensures TranscriptFits(Run(b, model)) {
        InvestigationIsBounded(b, model);
      }
    } else {
      GreedyOverflows(b, 1, FRESH, {});
      assert ModelOk(Greedy());
      assert !TranscriptFits(Run(b, Greedy()));
    }
  }
}
