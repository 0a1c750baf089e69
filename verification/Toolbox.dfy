/** The budgeted, recorded tool surface of `investigation_toolbox.py`. */
module Toolbox {
  import opened Prelude
  import opened Symbols

  datatype Tool = InspectSymbol | FindReferences | FindRelatedTests | InspectSourceWindow
  datatype Status = Answered | InvalidArguments | BudgetExhausted

  datatype Budget = Budget(maxTurns: nat, maxTotalCalls: nat, maxCallsPerTool: nat, maxSourceChars: nat)

  /** `ToolBudget.__post_init__`. */
  predicate BudgetOk(b: Budget) {
    && 1 <= b.maxTurns <= 8
    && 1 <= b.maxTotalCalls <= 16
    && 1 <= b.maxCallsPerTool <= 8
    && b.maxCallsPerTool <= b.maxTotalCalls
    && 1 <= b.maxSourceChars <= 64_000
  }

  datatype Match = Match(symbol: Option<Identity>, content: Option<string>)

  /** What the immutable indexes answer to one query; a query they reject raises. */
  datatype Answer = QueryRejected | QueryResult(matches: seq<Match>)

  /** One requested call: a tool name outside the four is None. */
  datatype Call = Call(tool: Option<Tool>, answer: Answer)

  datatype Record = Record(sequence: nat, turn: nat, tool: Tool, status: Status, sourceChars: nat)

  datatype Payload = Refusal(status: Status) | Results(matches: seq<Match>)

  datatype State = State(calls: seq<Record>, perTool: map<Tool, nat>, source: nat, turn: nat)

  const FRESH := State([],
      map[InspectSymbol := 0, FindReferences := 0, FindRelatedTests := 0, InspectSourceWindow := 0], 0, 1)

  predicate Exhausted(b: Budget, s: State) { |s.calls| >= b.maxTotalCalls }

  function UsedBy(s: State, t: Tool): nat { if t in s.perTool then s.perTool[t] else 0 }

  // --- Serialization under the aggregate source budget ---------------------------------------------

  function Length(m: Match): nat { if m.content.Some? then |m.content.value| else 0 }

  function TotalLength(ms: seq<Match>): nat {
    if ms == [] then 0 else TotalLength(ms[..|ms| - 1]) + Length(ms[|ms| - 1])
  }

  /** A match as it is shown when `allowance` characters of source are left. */
  function Shown(m: Match, allowance: int): Match {
    if m.content.None? then m
    else if allowance <= 0 then m.(content := None)
    else m.(content := Some(if allowance < |m.content.value| then m.content.value[..allowance] else m.content.value))
  }

  function ShownAll(ms: seq<Match>, remaining: nat): seq<Match> {
    if ms == [] then []
    else
      var front := ShownAll(ms[..|ms| - 1], remaining);
      front + [Shown(ms[|ms| - 1], remaining - TotalLength(front))]
  }

  /** Source is handed out greedily: exactly as much as there is, up to what remains. */
  lemma {:induction false} ShownSpendsExactly(ms: seq<Match>, remaining: nat)
    ensures TotalLength(ShownAll(ms, remaining)) == Min(TotalLength(ms), remaining)
    ensures |ShownAll(ms, remaining)| == |ms|
    ensures forall i | 0 <= i < |ms| :: ShownAll(ms, remaining)[i].symbol == ms[i].symbol
  {
    if ms != [] {
      var front := ms[..|ms| - 1];
      ShownSpendsExactly(front, remaining);
      var shown := ShownAll(ms, remaining);
      assert shown[..|shown| - 1] == ShownAll(front, remaining);
    }
  }

  function Source(m: Match): string { if m.content.Some? then m.content.value else "" }

  /** The source characters of the matches, one after the other. */
  function Sources(ms: seq<Match>): string {
    if ms == [] then "" else Sources(ms[..|ms| - 1]) + Source(ms[|ms| - 1])
  }

  lemma {:induction false} SourcesLength(ms: seq<Match>)
    ensures |Sources(ms)| == TotalLength(ms)
  {
    if ms != [] {
      SourcesLength(ms[..|ms| - 1]);
    }
  }

  /** What is shown of one match is a prefix of its source, as long as the allowance permits. */
  lemma ShownIsPrefix(m: Match, allowance: int)
    ensures var s := Shown(m, allowance);
            && s.symbol == m.symbol
            && Source(s) == Source(m)[..Min(|Source(m)|, Max(0, allowance))]
            && (s.content.Some? <==> m.content.Some? && allowance > 0)
  {
  }

  lemma SourcesOneMore(ms: seq<Match>, m: Match)
    ensures Sources(ms + [m]) == Sources(ms) + Source(m)
  {
    assert (ms + [m])[..|ms|] == ms;
  }

  lemma CutConcatenation(a: string, b: string, cut: string, n: nat)
    requires cut == b[..Min(|b|, Max(0, n - Min(|a|, n)))]
    ensures a[..Min(|a|, n)] + cut == (a + b)[..Min(|a + b|, n)]
  {
  }

  /** The characters shown are the first ones there are: a prefix of all the sources, as long as the budget permits. */
  lemma {:induction false} ShownCharacters(ms: seq<Match>, remaining: nat)
    ensures Sources(ShownAll(ms, remaining)) == Sources(ms)[..Min(|Sources(ms)|, remaining)]
  {
    if ms != [] {
      var front, last := ms[..|ms| - 1], ms[|ms| - 1];
      assert front + [last] == ms;
      ShownCharacters(front, remaining);
      ShownSpendsExactly(front, remaining);
      SourcesLength(front);
      var shown := ShownAll(front, remaining);
      var next := Shown(last, remaining - TotalLength(shown));
      ShownOneMore(front, last, remaining);
      SourcesOneMore(front, last);
      SourcesOneMore(shown, next);
      ShownIsPrefix(last, remaining - TotalLength(shown));
      CutConcatenation(Sources(front), Source(last), Source(next), remaining);
    }
  }

  lemma ShownOneMore(ms: seq<Match>, m: Match, remaining: nat)
    ensures ShownAll(ms + [m], remaining) ==
            ShownAll(ms, remaining) + [Shown(m, remaining - TotalLength(ShownAll(ms, remaining)))]
  {
    var all := ms + [m];
    assert all[..|all| - 1] == ms && all[|all| - 1] == m;
    var front := ShownAll(all[..|all| - 1], remaining);
    assert ShownAll(all, remaining) == front + [Shown(all[|all| - 1], remaining - TotalLength(front))];
  }

  lemma LengthOneMore(ms: seq<Match>, m: Match)
    ensures TotalLength(ms + [m]) == TotalLength(ms) + Length(m)
  {
    assert (ms + [m])[..|ms|] == ms;
  }

  ghost predicate ShownSoFar(entries: seq<Match>, used: nat, ms: seq<Match>, remaining: nat) {
    entries == ShownAll(ms, remaining) && used == TotalLength(entries)
  }

  lemma ShownMore(entries: seq<Match>, used: nat, ms: seq<Match>, m: Match, remaining: nat)
    requires ShownSoFar(entries, used, ms, remaining)
    ensures var entry := Shown(m, remaining - used);
            ShownSoFar(entries + [entry], used + Length(entry), ms + [m], remaining)
  {
    ShownOneMore(ms, m, remaining);
    LengthOneMore(entries, Shown(m, remaining - used));
  }

  // --- The calls -----------------------------------------------------------------------------------

  function Refuse(s: State, tool: Tool, status: Status): (State, Payload) {
    (s.(calls := s.calls + [Record(|s.calls| + 1, s.turn, tool, status, 0)]), Refusal(status))
  }

  function Accept(b: Budget, s: State, tool: Tool, matches: seq<Match>): (State, Payload) {
    var shown := ShownAll(matches, Max(0, b.maxSourceChars - s.source));
    var used := TotalLength(shown);
    (State(s.calls + [Record(|s.calls| + 1, s.turn, tool, Answered, used)],
           s.perTool[tool := UsedBy(s, tool) + 1], s.source + used, s.turn),
     Results(shown))
  }

  /** `InvestigationToolbox.call`. */
  function CallTool(b: Budget, s: State, c: Call): (State, Payload) {
    match c.tool
    case None => (s, Refusal(InvalidArguments))
    case Some(tool) =>
      if Exhausted(b, s) then Refuse(s, tool, BudgetExhausted)
      else if UsedBy(s, tool) >= b.maxCallsPerTool then Refuse(s, tool, BudgetExhausted)
      else
        match c.answer
        case QueryRejected => Refuse(s, tool, InvalidArguments)
        case QueryResult(matches) => Accept(b, s, tool, matches)
  }

  // --- What the toolbox keeps ----------------------------------------------------------------------

  function AnsweredBy(calls: seq<Record>, t: Tool): nat {
    if calls == [] then 0
    else
      var last := calls[|calls| - 1];
      AnsweredBy(calls[..|calls| - 1], t) + (if last.status == Answered && last.tool == t then 1 else 0)
  }

  function AnsweredIn(calls: seq<Record>): nat {
    if calls == [] then 0
    else AnsweredIn(calls[..|calls| - 1]) + (if calls[|calls| - 1].status == Answered then 1 else 0)
  }

  function SourceIn(calls: seq<Record>): nat {
    if calls == [] then 0 else SourceIn(calls[..|calls| - 1]) + calls[|calls| - 1].sourceChars
  }

  ghost predicate RecordOk(b: Budget, s: State, i: nat) {
    i < |s.calls| ==>
      && s.calls[i].sequence == i + 1
      && 1 <= s.calls[i].turn <= s.turn
      && (s.calls[i].status == Answered ==> i < b.maxTotalCalls)
      && (i > 0 ==> s.calls[i - 1].turn <= s.calls[i].turn)
  }

  ghost predicate ToolOk(b: Budget, s: State, t: Tool) {
    && t in s.perTool
    && s.perTool[t] == AnsweredBy(s.calls, t)
    && s.perTool[t] <= b.maxCallsPerTool
  }

  /** The counters are what the transcript says, and the transcript is within every budget. */
  ghost predicate Within(b: Budget, s: State) {
    && (forall i :: RecordOk(b, s, i))
    && (forall t :: ToolOk(b, s, t))
    && s.source == SourceIn(s.calls) <= b.maxSourceChars
    && AnsweredIn(s.calls) <= b.maxTotalCalls
    && AnsweredIn(s.calls) <= |s.calls|
    && 1 <= s.turn <= b.maxTurns
  }

  lemma AppendedRecord(calls: seq<Record>, r: Record)
    ensures AnsweredIn(calls + [r]) == AnsweredIn(calls) + (if r.status == Answered then 1 else 0)
    ensures SourceIn(calls + [r]) == SourceIn(calls) + r.sourceChars
    ensures forall t ::
              AnsweredBy(calls + [r], t) ==
              AnsweredBy(calls, t) + (if r.status == Answered && r.tool == t then 1 else 0)
  {
    assert (calls + [r])[..|calls|] == calls;
  }

  lemma AppendKeepsRecords(b: Budget, s: State, r: Record, t: State)
    requires forall i :: RecordOk(b, s, i)
    requires t.calls == s.calls + [r] && t.turn == s.turn && s.turn >= 1
    requires r.sequence == |s.calls| + 1 && r.turn == s.turn && (r.status == Answered ==> |s.calls| < b.maxTotalCalls)
    ensures forall i :: RecordOk(b, t, i)
  {
    forall i: nat ensures RecordOk(b, t, i) {
      assert RecordOk(b, s, i);
      if i > 0 {
        assert RecordOk(b, s, i - 1);
      }
    }
  }

  lemma RefuseKeeps(b: Budget, s: State, tool: Tool, status: Status)
    requires Within(b, s) && status != Answered
    ensures Within(b, Refuse(s, tool, status).0)
  {
    var r := Record(|s.calls| + 1, s.turn, tool, status, 0);
    var t := Refuse(s, tool, status).0;
    AppendedRecord(s.calls, r);
    AppendKeepsRecords(b, s, r, t);
    forall x ensures ToolOk(b, t, x) {
      assert ToolOk(b, s, x);
    }
  }

  lemma AcceptKeeps(b: Budget, s: State, tool: Tool, matches: seq<Match>)
    requires Within(b, s) && |s.calls| < b.maxTotalCalls && UsedBy(s, tool) < b.maxCallsPerTool
    ensures Within(b, Accept(b, s, tool, matches).0)
  {
    var t := Accept(b, s, tool, matches).0;
    var r := t.calls[|s.calls|];
    ShownSpendsExactly(matches, Max(0, b.maxSourceChars - s.source));
    AppendedRecord(s.calls, r);
    AppendKeepsRecords(b, s, r, t);
    forall x ensures ToolOk(b, t, x) {
      assert ToolOk(b, s, x);
    }
  }

  /** Every call keeps every budget, whatever the model asks for and whatever the indexes answer. */
  lemma CallKeepsBudgets(b: Budget, s: State, c: Call)
    requires Within(b, s)
    ensures Within(b, CallTool(b, s, c).0)
  {
    match c.tool
    case None =>
    case Some(tool) =>
      if Exhausted(b, s) || UsedBy(s, tool) >= b.maxCallsPerTool {
        RefuseKeeps(b, s, tool, BudgetExhausted);
      } else {
        match c.answer
        case QueryRejected => RefuseKeeps(b, s, tool, InvalidArguments);
        case QueryResult(matches) => AcceptKeeps(b, s, tool, matches);
      }
  }

  /**
   * A call is answered exactly if it names one of the four tools, neither the total nor that tool's budget is spent,
   * and the indexes accept the query; a budget refusal says so, and every other refusal says the arguments are
   * invalid.
   */
  lemma AnsweredExactly(b: Budget, s: State, c: Call)
    ensures var (t, p) := CallTool(b, s, c);
            var open := c.tool.Some? && |s.calls| < b.maxTotalCalls && UsedBy(s, c.tool.value) < b.maxCallsPerTool;
            && (p.Results? <==> open && c.answer.QueryResult?)
            && (p.Refusal? ==> p.status == (if c.tool.Some? && !open then BudgetExhausted else InvalidArguments))
            && (c.tool.Some? ==>
                  && t.calls == s.calls + [t.calls[|s.calls|]]
                  && var r := t.calls[|s.calls|];
                     && r.sequence == |s.calls| + 1 && r.turn == s.turn && r.tool == c.tool.value
                     && r.status == (if p.Results? then Answered else p.status)
                     && r.sourceChars == t.source - s.source
                     && (r.status != Answered ==> r.sourceChars == 0))
            && (c.tool.None? ==> t == s)
            && t.turn == s.turn
  {
  }

  /** A call of one of the four tools is recorded once, answered or not; an unknown name is not recorded. */
  lemma CallIsRecorded(b: Budget, s: State, c: Call)
    ensures |CallTool(b, s, c).0.calls| == |s.calls| + (if c.tool.Some? then 1 else 0)
    ensures CallTool(b, s, c).0.turn == s.turn
  {
  }

  lemma FreshIsWithin(b: Budget)
    requires BudgetOk(b)
    ensures Within(b, FRESH)
  {
    forall i: nat ensures RecordOk(b, FRESH, i) {
    }
    forall t: Tool ensures ToolOk(b, FRESH, t) {
      match t
      case InspectSymbol =>
      case FindReferences =>
      case FindRelatedTests =>
      case InspectSourceWindow =>
    }
  }

  // --- The object ----------------------------------------------------------------------------------

  class InvestigationToolbox {
    const budget: Budget
    var calls: seq<Record>
    var perTool: map<Tool, nat>
    var sourceChars: nat
    var turn: nat

    ghost function Contents(): State reads this { State(calls, perTool, sourceChars, turn) }

    constructor (b: Budget)
      ensures budget == b && Contents() == FRESH
    {
      budget := b;
      calls, sourceChars, turn := [], 0, 1;
      perTool := map[InspectSymbol := 0, FindReferences := 0, FindRelatedTests := 0, InspectSourceWindow := 0];
    }

    /** Advance to the next model turn; false when the turn budget is spent. */
    method BeginTurn() returns (more: bool)
      modifies this`turn
      ensures more == (old(turn) < budget.maxTurns)
      ensures turn == if more then old(turn) + 1 else old(turn)
    {
      if turn >= budget.maxTurns {
        return false;
      }
      turn := turn + 1;
      return true;
    }

    method Invoke(c: Call) returns (p: Payload)
      modifies this`calls, this`perTool, this`sourceChars
      ensures (Contents(), p) == CallTool(budget, old(Contents()), c)
    {
      if c.tool.None? {
        return Refusal(InvalidArguments);
      }
      var tool := c.tool.value;
      if |calls| >= budget.maxTotalCalls {
        p := RefuseCall(tool, BudgetExhausted);
        return;
      }
      var spent := if tool in perTool then perTool[tool] else 0;
      if spent >= budget.maxCallsPerTool {
        p := RefuseCall(tool, BudgetExhausted);
        return;
      }
      match c.answer
      case QueryRejected =>
        p := RefuseCall(tool, InvalidArguments);
      case QueryResult(matches) =>
        p := AcceptCall(tool, spent, matches);
    }

    /** `_accept`. */
    method AcceptCall(tool: Tool, spent: nat, matches: seq<Match>) returns (p: Payload)
      requires spent == UsedBy(Contents(), tool)
      modifies this`calls, this`perTool, this`sourceChars
      ensures (Contents(), p) == Accept(budget, old(Contents()), tool, matches)
    {
      ghost var before := Contents();
      var entries, used := Serialize(matches);
      ghost var after := Accept(budget, before, tool, matches);
      assert after.1 == Results(entries) && after.0.source == before.source + used;
      perTool := perTool[tool := spent + 1];
      sourceChars := sourceChars + used;
      calls := calls + [Record(|calls| + 1, turn, tool, Answered, used)];
      p := Results(entries);
      assert Contents() == after.0;
    }

    method RefuseCall(tool: Tool, status: Status) returns (p: Payload)
      modifies this`calls
      ensures (Contents(), p) == Refuse(old(Contents()), tool, status)
    {
      calls := calls + [Record(|calls| + 1, turn, tool, status, 0)];
      p := Refusal(status);
    }

    /** `_serialize`: hand out source until the aggregate budget is spent. */
    method Serialize(matches: seq<Match>) returns (entries: seq<Match>, used: nat)
      ensures entries == ShownAll(matches, Max(0, budget.maxSourceChars - sourceChars))
      ensures used == TotalLength(entries)
    {
      var remaining := Max(0, budget.maxSourceChars - sourceChars);
      entries, used := [], 0;
      for i := 0 to |matches|
        invariant ShownSoFar(entries, used, matches[..i], remaining)
      {
        var entry := Shown(matches[i], remaining - used);
        assert matches[..i + 1] == matches[..i] + [matches[i]];
        ShownMore(entries, used, matches[..i], matches[i], remaining);
        used := used + Length(entry);
        entries := entries + [entry];
      }
      assert matches[..|matches|] == matches;
    }
  }
}
