/**
 * The model-call budget of one declared live run: the one-retry wrappers (`model_reliability.py`), the bounded
 * candidate policy and the per-case call structure (`hard_mode.py`), against a provider that may answer or fail in any
 * way.
 */
module ProviderBudget {
  import opened Prelude
  import opened Workflow
  import opened Evidence
  import EvidenceWorkflow
  import Toolbox
  import Investigator

  type Body = nat

  /** What one provider request meets; `Crashed` is any exception that is not a `ModelInvocationFailure`. */
  datatype Reply = Answer(body: Body) | Failure(retryable: bool) | Crashed

  /** Reply number k of a run is `replies(k)`: an arbitrary provider. */
  type Replies = nat -> Reply

  datatype Invoked = Returned(body: Body, providerAttempts: nat) | Raised(retryable: bool) | RaisedOther

  // ---------------------------------------------------------------------------------------------
  // One logical call
  // ---------------------------------------------------------------------------------------------

  /** How many provider requests the logical call that starts at request `at` makes. */
  function AttemptsFrom(replies: Replies, at: nat): nat {
    if replies(at) == Failure(true) then 2 else 1
  }

  /** What that call returns or raises: the meaning of its last request. */
  function Meaning(reply: Reply, attempts: nat): Invoked {
    match reply
    case Answer(body) => Returned(body, attempts)
    case Failure(retryable) => Raised(retryable)
    case Crashed => RaisedOther
  }

  function Logical(replies: Replies, at: nat): Invoked {
    var n := AttemptsFrom(replies, at);
    Meaning(replies(at + n - 1), n)
  }

  class Provider {
    const replies: Replies
    var asked: nat

    constructor (replies: Replies)
      ensures this.replies == replies && asked == 0
    {
      this.replies := replies;
      asked := 0;
    }

    method Request() returns (reply: Reply)
      modifies this
      ensures asked == old(asked) + 1 && reply == replies(old(asked))
    {
      reply := replies(asked);
      asked := asked + 1;
    }
  }

  /** `BoundedRetryingModel.invoke` and `BoundedRetryingEvidenceAssessor.assess`: the same loop. */
  method Invoke(provider: Provider) returns (r: Invoked)
    modifies provider
    ensures r == Logical(provider.replies, old(provider.asked))
    ensures provider.asked == old(provider.asked) + AttemptsFrom(provider.replies, old(provider.asked))
    ensures r.Returned? ==> r.providerAttempts == provider.asked - old(provider.asked)
  {
    var attempts := 0;
    while true
      invariant attempts <= 1 && provider.asked == old(provider.asked) + attempts
      invariant attempts == 1 ==> provider.replies(old(provider.asked)) == Failure(true)
      decreases 2 - attempts
    {
      attempts := attempts + 1;
      var reply := provider.Request();
      match reply
      case Answer(body) => return Returned(body, attempts);
      case Crashed => return RaisedOther;
      case Failure(retryable) =>
        if !retryable || attempts >= 2 {
          return Raised(retryable);
        }
    }
  }

  // ---------------------------------------------------------------------------------------------
  // One case
  // ---------------------------------------------------------------------------------------------

  datatype Setup = EnvironmentReady | EnvironmentNotReady | SetupRaised

  datatype ClaimReading = InvalidOutput | NoClaim | Selected

  /** What becomes of a candidate: rejected, executed on BASE and HEAD, or an exception from the harness. */
  datatype Judgement = Rejected | Challenged(assessed: Assessed) | Broke

  /**
   * Everything about a case that the budget does not control. The candidate policies see every candidate answer so far;
   * `fits` says whether the next candidate request fits its character budget.
   */
  datatype Case = Case(
    setup: Setup,
    claimFits: bool,
    claim: Body -> ClaimReading,
    fits: seq<Body> -> bool,
    judge: seq<Body> -> Judgement,
    decision: Body -> EvidenceWorkflow.Decision)

  datatype Stage = ClaimStage | CandidateStage | AssessmentStage

  /** One logical call that was made, with the provider requests it cost. */
  datatype Call = Call(stage: Stage, attempts: nat)

  datatype Terminal =
    | NotReady | HarnessError | ClaimInvalidOutput | ClaimInvocationError | ClaimAbstained
    | InvocationError(stage: Stage, candidateCallsStarted: nat)
    | NoValidTest | Mechanical(status: MechanicalStatus) | Concluded(outcome: ClaimOutcome)

  datatype Ended = Ended(terminal: Terminal, calls: seq<Call>, asked: nat)

  function Assess(replies: Replies, c: Case, pattern: Pattern, bodies: seq<Body>, calls: seq<Call>, at: nat): Ended {
    var n := AttemptsFrom(replies, at);
    var made := calls + [Call(AssessmentStage, n)];
    match Logical(replies, at)
    case RaisedOther => Ended(HarnessError, made, at + n)
    case Raised(_) => Ended(InvocationError(AssessmentStage, |bodies|), made, at + n)
    case Returned(body, _) =>
      Ended(if EvidenceWorkflow.GateDecision(pattern, c.decision(body)).Some? then HarnessError
            else Concluded(c.decision(body).outcome), made, at + n)
  }

  /** Candidate call number |bodies| of the case, and all that follows it. */
  function Candidates(replies: Replies, c: Case, bodies: seq<Body>, calls: seq<Call>, at: nat): Ended
    requires |bodies| < EvidenceWorkflow.MAX_CANDIDATE_MODEL_CALLS
    decreases EvidenceWorkflow.MAX_CANDIDATE_MODEL_CALLS - |bodies|, 0
  {
    if !c.fits(bodies) then Ended(HarnessError, calls, at)
    else
      var n := AttemptsFrom(replies, at);
      var made := calls + [Call(CandidateStage, n)];
      match Logical(replies, at)
      case RaisedOther => Ended(HarnessError, made, at + n)
      case Raised(_) => Ended(InvocationError(CandidateStage, |bodies| + 1), made, at + n)
      case Returned(body, _) => Judged(replies, c, bodies + [body], made, at + n)
  }

  function Judged(replies: Replies, c: Case, bodies: seq<Body>, calls: seq<Call>, at: nat): Ended
    requires 0 < |bodies| <= EvidenceWorkflow.MAX_CANDIDATE_MODEL_CALLS
    decreases EvidenceWorkflow.MAX_CANDIDATE_MODEL_CALLS - |bodies|, 1
  {
    var last := |bodies| > EvidenceWorkflow.MAX_REPAIRS;
    match c.judge(bodies)
    case Broke => Ended(HarnessError, calls, at)
    case Rejected => if last then Ended(NoValidTest, calls, at) else Candidates(replies, c, bodies, calls, at)
    case Challenged(assessed) =>
      if assessed.mechanical == Discriminating then Assess(replies, c, assessed.pattern, bodies, calls, at)
      else if last then Ended(Mechanical(assessed.mechanical), calls, at)
      else Candidates(replies, c, bodies, calls, at)
  }

  function CaseFrom(replies: Replies, c: Case, at: nat): Ended {
    if c.setup == EnvironmentNotReady then Ended(NotReady, [], at)
    else if c.setup == SetupRaised || !c.claimFits then Ended(HarnessError, [], at)
    else
      var n := AttemptsFrom(replies, at);
      var made := [Call(ClaimStage, n)];
      match Logical(replies, at)
      case RaisedOther => Ended(HarnessError, made, at + n)
      case Raised(_) => Ended(ClaimInvocationError, made, at + n)
      case Returned(body, _) =>
        match c.claim(body)
        case InvalidOutput => Ended(ClaimInvalidOutput, made, at + n)
        case NoClaim => Ended(ClaimAbstained, made, at + n)
        case Selected => Candidates(replies, c, [], made, at + n)
  }

  /** `_run_ready_live_case` from the first candidate on, with `_bounded_candidate_challenges` inlined into its loop. */
  method RunCandidates(provider: Provider, c: Case, claimed: seq<Call>) returns (r: Ended)
    modifies provider
    ensures r == Candidates(provider.replies, c, [], claimed, old(provider.asked)) && provider.asked == r.asked
  {
    var challenge: Option<Assessed> := None;
    var bodies: seq<Body> := [];
    var calls := claimed;
    var number := 0;
    ghost var start := provider.asked;
    while true
      invariant number == |bodies| <= EvidenceWorkflow.MAX_REPAIRS
      invariant challenge.Some? ==> challenge.value.mechanical != Discriminating
      invariant Candidates(provider.replies, c, [], claimed, start)
        == Candidates(provider.replies, c, bodies, calls, provider.asked)
      decreases EvidenceWorkflow.MAX_REPAIRS - number
    {
      if !c.fits(bodies) {
        return Ended(HarnessError, calls, provider.asked);
      }
      var before := provider.asked;
      var candidate := Invoke(provider);
      calls := calls + [Call(CandidateStage, provider.asked - before)];
      if candidate.RaisedOther? {
        return Ended(HarnessError, calls, provider.asked);
      }
      if candidate.Raised? {
        return Ended(InvocationError(StageOf(challenge), number + 1), calls, provider.asked);
      }
      bodies := bodies + [candidate.body];
      challenge := None;
      match c.judge(bodies) {
        case Broke => return Ended(HarnessError, calls, provider.asked);
        case Rejected =>
        case Challenged(assessed) => challenge := Some(assessed);
      }
      if challenge.Some? && challenge.value.mechanical == Discriminating {
        before := provider.asked;
        var semantic := Invoke(provider);
        calls := calls + [Call(AssessmentStage, provider.asked - before)];
        match semantic {
          case RaisedOther => return Ended(HarnessError, calls, provider.asked);
          case Raised(_) => return Ended(InvocationError(StageOf(challenge), number + 1), calls, provider.asked);
          case Returned(body, _) =>
            var d := c.decision(body);
            var refused := EvidenceWorkflow.GateDecision(challenge.value.pattern, d);
            return Ended(if refused.Some? then HarnessError else Concluded(d.outcome), calls, provider.asked);
        }
      }
      if number >= EvidenceWorkflow.MAX_REPAIRS {
        return Ended(if challenge.Some? then Mechanical(challenge.value.mechanical) else NoValidTest, calls,
            provider.asked);
      }
      number := number + 1;
    }
  }

  /** How the error record names the stage: from the last challenge seen. */
  function StageOf(challenge: Option<Assessed>): Stage {
    if challenge.Some? && challenge.value.mechanical == Discriminating then AssessmentStage else CandidateStage
  }

  method RunCase(provider: Provider, c: Case) returns (r: Ended)
    modifies provider
    ensures r == CaseFrom(provider.replies, c, old(provider.asked)) && provider.asked == r.asked
  {
    if c.setup == EnvironmentNotReady {
      return Ended(NotReady, [], provider.asked);
    }
    if c.setup == SetupRaised || !c.claimFits {
      return Ended(HarnessError, [], provider.asked);
    }
    var before := provider.asked;
    var claim := Invoke(provider);
    var calls := [Call(ClaimStage, provider.asked - before)];
    match claim
    case RaisedOther => return Ended(HarnessError, calls, provider.asked);
    case Raised(_) => return Ended(ClaimInvocationError, calls, provider.asked);
    case Returned(body, _) =>
      match c.claim(body) {
        case InvalidOutput => return Ended(ClaimInvalidOutput, calls, provider.asked);
        case NoClaim => return Ended(ClaimAbstained, calls, provider.asked);
        case Selected =>
      }
      r := RunCandidates(provider, c, calls);
  }

  // ---------------------------------------------------------------------------------------------
  // The whole run
  // ---------------------------------------------------------------------------------------------

  /** The results of the cases, in order; a case that raises is recorded and the run goes on. */
  function Live(replies: Replies, cases: seq<Case>): (r: seq<Ended>)
    ensures |r| == |cases|
  {
    if cases == [] then []
    else
      var before := Live(replies, cases[..|cases| - 1]);
      before + [CaseFrom(replies, cases[|cases| - 1], AskedBy(before))]
  }

  /** The provider requests made once these cases have ended. */
  function AskedBy(ended: seq<Ended>): nat { if ended == [] then 0 else ended[|ended| - 1].asked }

  function ProviderCalls(replies: Replies, cases: seq<Case>): nat { AskedBy(Live(replies, cases)) }

  /** `run_live` after its preflight. */
  method RunLive(provider: Provider, cases: seq<Case>) returns (results: seq<Ended>)
    requires provider.asked == 0
    modifies provider
    ensures results == Live(provider.replies, cases)
    ensures provider.asked == ProviderCalls(provider.replies, cases)
  {
    results := [];
    for i := 0 to |cases|
      invariant results == Live(provider.replies, cases[..i]) && provider.asked == AskedBy(results)
    {
      assert cases[..i + 1][..i] == cases[..i];
      var ended := RunCase(provider, cases[i]);
      results := results + [ended];
    }
    assert cases[..|cases|] == cases;
  }

  // ---------------------------------------------------------------------------------------------
  // The declared budget
  // ---------------------------------------------------------------------------------------------

  /** The four call counts of `HardModeProtocol`, with the capacity the operator declares. */
  datatype Protocol = Protocol(claimCalls: nat, candidateCalls: nat, assessmentCalls: nat, retries: nat, available: nat)

  predicate Declarable(p: Protocol) {
    p.claimCalls == 1 && 2 <= p.candidateCalls <= 3 && p.assessmentCalls == 1 && p.retries <= 1
  }

  function MaximumLogicalCalls(p: Protocol, cases: nat): nat {
    cases * (p.claimCalls + p.candidateCalls + p.assessmentCalls)
  }

  function MaximumProviderCalls(p: Protocol, cases: nat): nat {
    MaximumLogicalCalls(p, cases) * (1 + p.retries)
  }

  /** `_model_call_budget_preflight`, with the declared maxima equal to the derived ones. */
  predicate Preflight(p: Protocol, cases: nat) {
    p.candidateCalls == EvidenceWorkflow.MAX_CANDIDATE_MODEL_CALLS && p.available >= MaximumProviderCalls(p, cases)
  }

  function Total(calls: seq<Call>): nat {
    if calls == [] then 0 else Total(calls[..|calls| - 1]) + calls[|calls| - 1].attempts
  }

  /**
   * The order of a case's calls: the claim call, then candidate calls, then at most one assessment, which is the last;
   * so at most one, three and one.
   */
  ghost predicate Ordered(calls: seq<Call>) {
    && |calls| <= 5
    && forall i :: 0 <= i < |calls| ==> InPlace(calls, i)
  }

  ghost predicate InPlace(calls: seq<Call>, i: nat)
    requires i < |calls|
  {
    && 1 <= calls[i].attempts <= 2
    && match calls[i].stage
       case ClaimStage => i == 0
       case CandidateStage => 1 <= i <= 3
       case AssessmentStage => 2 <= i == |calls| - 1
  }

  /** What the result says of a case agrees with the calls really made. */
  ghost predicate Truthful(r: Ended) {
    && (r.terminal.InvocationError? ==>
          && |r.calls| >= 2 && r.terminal.stage == r.calls[|r.calls| - 1].stage
          && r.terminal.candidateCallsStarted == |r.calls| - (if r.terminal.stage.AssessmentStage? then 2 else 1))
    && (r.terminal.Concluded? ==> |r.calls| >= 3 && r.calls[|r.calls| - 1].stage == AssessmentStage)
    && (r.terminal.Mechanical? ==> |r.calls| == 4 && r.terminal.status != Discriminating)
    && (r.terminal.NoValidTest? ==> |r.calls| == 4)
    && (r.terminal.ClaimInvocationError? || r.terminal.ClaimInvalidOutput? || r.terminal.ClaimAbstained? ==>
        |r.calls| == 1)
  }

  ghost predicate CaseOk(r: Ended, at: nat) {
    r.asked == at + Total(r.calls) && Ordered(r.calls) && Truthful(r)
  }

  ghost predicate SoFar(calls: seq<Call>, candidates: nat) {
    |calls| == candidates + 1 && Ordered(calls) && calls[|calls| - 1].stage != AssessmentStage
  }

  lemma TotalAppend(calls: seq<Call>, c: Call)
    ensures Total(calls + [c]) == Total(calls) + c.attempts
  {
    assert (calls + [c])[..|calls|] == calls;
  }

  lemma CallAppends(calls: seq<Call>, candidates: nat, c: Call)
    requires SoFar(calls, candidates) && 1 <= c.attempts <= 2
    requires if c.stage.AssessmentStage? then 1 <= candidates <= 3 else c.stage.CandidateStage? && candidates < 3
    ensures Ordered(calls + [c]) && Total(calls + [c]) == Total(calls) + c.attempts
  {
    TotalAppend(calls, c);
    var made := calls + [c];
    forall i | 0 <= i < |made| ensures InPlace(made, i) {
      if i < |calls| {
        assert InPlace(calls, i);
      }
    }
  }

  lemma {:induction false} CandidatesOk(replies: Replies, c: Case, bodies: seq<Body>, calls: seq<Call>, start: nat,
      at: nat)
    requires |bodies| < 3 && SoFar(calls, |bodies|) && at == start + Total(calls)
    ensures CaseOk(Candidates(replies, c, bodies, calls, at), start)
    decreases 3 - |bodies|, 0
  {
    var n := AttemptsFrom(replies, at);
    var made := calls + [Call(CandidateStage, n)];
    CallAppends(calls, |bodies|, Call(CandidateStage, n));
    var r := Candidates(replies, c, bodies, calls, at);
    if c.fits(bodies) && Logical(replies, at).Returned? {
      var answered := bodies + [Logical(replies, at).body];
      assert SoFar(made, |answered|);
      assert r == Judged(replies, c, answered, made, at + n);
      JudgedOk(replies, c, answered, made, start, at + n);
    } else if c.fits(bodies) {
      assert r.calls == made && r.asked == at + n;
    }
  }

  lemma AssessOk(replies: Replies, c: Case, pattern: Pattern, bodies: seq<Body>, calls: seq<Call>, start: nat, at: nat)
    requires 0 < |bodies| <= 3 && SoFar(calls, |bodies|) && at == start + Total(calls)
    ensures CaseOk(Assess(replies, c, pattern, bodies, calls, at), start)
  {
    CallAppends(calls, |bodies|, Call(AssessmentStage, AttemptsFrom(replies, at)));
  }

  lemma {:induction false} JudgedOk(replies: Replies, c: Case, bodies: seq<Body>, calls: seq<Call>, start: nat, at: nat)
    requires 0 < |bodies| <= 3 && SoFar(calls, |bodies|) && at == start + Total(calls)
    ensures CaseOk(Judged(replies, c, bodies, calls, at), start)
    decreases 3 - |bodies|, 1
  {
    var j := c.judge(bodies);
    if j.Challenged? && j.assessed.mechanical == Discriminating {
      AssessOk(replies, c, j.assessed.pattern, bodies, calls, start, at);
    } else if |bodies| < 3 && !j.Broke? {
      CandidatesOk(replies, c, bodies, calls, start, at);
    }
  }

  /** Every case, whatever the provider does: calls in order, each attempt accounted for, the result truthful. */
  lemma EveryCase(replies: Replies, c: Case, at: nat)
    ensures CaseOk(CaseFrom(replies, c, at), at)
  {
    var made := [Call(ClaimStage, AttemptsFrom(replies, at))];
    TotalAppend([], made[0]);
    assert [] + [made[0]] == made;
    assert InPlace(made, 0);
    if c.setup == EnvironmentReady && c.claimFits && Logical(replies, at).Returned? {
      CandidatesOk(replies, c, [], made, at, at + made[0].attempts);
    }
  }

  lemma {:induction false} TotalIsBounded(calls: seq<Call>)
    requires forall c | c in calls :: c.attempts <= 2
    ensures Total(calls) <= 2 * |calls|
  {
    if calls != [] {
      TotalIsBounded(calls[..|calls| - 1]);
    }
  }

  /** A whole run of any number of cases, against any provider, makes at most ten provider requests a case. */
  lemma {:induction false} TenPerCase(replies: Replies, cases: seq<Case>)
    ensures ProviderCalls(replies, cases) <= 10 * |cases|
  {
    if cases != [] {
      var before := cases[..|cases| - 1];
      TenPerCase(replies, before);
      var at := AskedBy(Live(replies, before));
      EveryCase(replies, cases[|cases| - 1], at);
      var calls := CaseFrom(replies, cases[|cases| - 1], at).calls;
      forall c | c in calls ensures c.attempts <= 2 {
        var i :| 0 <= i < |calls| && calls[i] == c;
        assert InPlace(calls, i);
      }
      TotalIsBounded(calls);
    }
  }

  // The worst provider fails transiently before every answer, and only the last repair discriminates.

  /** Answers the first `t` requests at once, and fails before every later answer. */
  function WorstAfter(t: nat): Replies {
    (k: nat) => if k < t then Answer(0) else if (k - t) % 2 == 0 then Failure(true) else Answer(0)
  }

  const WorstReply: Replies := WorstAfter(0)

  function WorstJudgement(bodies: seq<Body>): Judgement {
    if |bodies| < 3 then Rejected else Challenged(Assessed(Discriminating, BaseFailedHeadPassed))
  }

  function WorstCase(): Case {
    Case(EnvironmentReady, true, _ => Selected, _ => true, WorstJudgement,
         _ => EvidenceWorkflow.Decision(InsufficientEvidence, EvidenceWorkflow.Uncertain))
  }

  lemma {:induction false} WorstCandidatesCost(t: nat, bodies: seq<Body>, calls: seq<Call>, at: nat)
    requires |bodies| < 3 && at >= t && (at - t) % 2 == 0
    ensures Candidates(WorstAfter(t), WorstCase(), bodies, calls, at).asked == at + 2 * (4 - |bodies|)
    decreases 3 - |bodies|
  {
    var made := calls + [Call(CandidateStage, 2)];
    if |bodies| < 2 {
      WorstCandidatesCost(t, bodies + [0], made, at + 2);
    } else {
      assert Judged(WorstAfter(t), WorstCase(), bodies + [0], made, at + 2)
          == Assess(WorstAfter(t), WorstCase(), BaseFailedHeadPassed, bodies + [0], made, at + 2);
    }
  }

  lemma WorstCaseCosts(at: nat)
    requires at % 2 == 0
    ensures CaseFrom(WorstReply, WorstCase(), at).asked == at + 10
  {
    WorstCandidatesCost(0, [], [Call(ClaimStage, 2)], at + 2);
  }

  function WorstCases(n: nat): (cases: seq<Case>)
    ensures |cases| == n
  {
    if n == 0 then [] else WorstCases(n - 1) + [WorstCase()]
  }

  lemma OneMoreCase(replies: Replies, cases: seq<Case>, c: Case)
    ensures ProviderCalls(replies, cases + [c]) == CaseFrom(replies, c, ProviderCalls(replies, cases)).asked
  {
    assert (cases + [c])[..|cases|] == cases;
  }

  lemma WorstStep(cases: seq<Case>, n: nat)
    requires ProviderCalls(WorstReply, cases) == 10 * n
    ensures ProviderCalls(WorstReply, cases + [WorstCase()]) == 10 * (n + 1)
  {
    OneMoreCase(WorstReply, cases, WorstCase());
    WorstCaseCosts(10 * n);
  }

  lemma WorstRunCosts(n: nat)
    ensures ProviderCalls(WorstReply, WorstCases(n)) == 10 * n
  {
    for k := 0 to n
      invariant ProviderCalls(WorstReply, WorstCases(k)) == 10 * k
    {
      WorstStep(WorstCases(k), k);
    }
  }

  lemma DerivedValues(p: Protocol, n: nat)
    requires Declarable(p)
    ensures p.candidateCalls == 3 && p.retries == 1 ==> MaximumProviderCalls(p, n) == 10 * n
    ensures !(p.candidateCalls == 3 && p.retries == 1) ==> MaximumProviderCalls(p, n) <= 8 * n
  {
    var perCase := p.claimCalls + p.candidateCalls + p.assessmentCalls;
    assert perCase == if p.candidateCalls == 3 then 5 else 4;
    assert p.retries == 1 || p.retries == 0;
  }

  /** The derived maximum is never exceeded, whatever the provider and the `n` cases do. */
  ghost predicate Covers(p: Protocol, n: nat) {
    forall replies: Replies, cases: seq<Case> :: |cases| == n ==>
        ProviderCalls(replies, cases) <= MaximumProviderCalls(p, n)
  }

  /**
   * The derived maximum bounds every run exactly for the protocol that declares what the code does: three candidate
   * calls and the one retry. Declaring no retry is accepted by the protocol but does not stop the wrappers from
   * retrying.
   */
  lemma DerivedMaximumCoversExactly(p: Protocol, n: nat)
    requires Declarable(p) && n > 0
    ensures Covers(p, n) <==> p.candidateCalls == 3 && p.retries == 1
  {
    DerivedValues(p, n);
    if p.candidateCalls == 3 && p.retries == 1 {
      forall replies: Replies, cases: seq<Case> | |cases| == n
        ensures ProviderCalls(replies, cases) <= MaximumProviderCalls(p, n)
      {
        TenPerCase(replies, cases);
      }
    } else {
      var cases := WorstCases(n);
      WorstRunCosts(n);
      assert ProviderCalls(WorstReply, cases) > MaximumProviderCalls(p, n);
    }
  }

  /**
   * A run that passed the preflight stays within the declared capacity against every provider if and only if it
   * declares the retry or the capacity covers it anyway.
   */
  lemma PreflightedRunIsFunded(p: Protocol, n: nat)
    requires Declarable(p) && n > 0 && Preflight(p, n)
    ensures (forall replies: Replies, cases: seq<Case> :: |cases| == n ==> ProviderCalls(replies, cases) <= p.available)
       <==> p.retries == 1 || p.available >= 10 * n
  {
    DerivedValues(p, n);
    if p.retries == 1 || p.available >= 10 * n {
      forall replies: Replies, cases: seq<Case> | |cases| == n ensures ProviderCalls(replies, cases) <= p.available {
        TenPerCase(replies, cases);
      }
    } else {
      var cases := WorstCases(n);
      WorstRunCosts(n);
      assert ProviderCalls(WorstReply, cases) > p.available;
    }
  }

  // ---------------------------------------------------------------------------------------------
  // What a terminal status means
  // ---------------------------------------------------------------------------------------------

  /** The status of a case that got as far as candidates, by the last judgement and the last request's reply. */
  ghost predicate EndMeans(replies: Replies, c: Case, r: Ended, final: seq<Body>) {
    match r.terminal
    case NoValidTest => |final| == 3 && c.judge(final) == Rejected
    case Mechanical(status) =>
      |final| == 3 && c.judge(final).Challenged? && c.judge(final).assessed.mechanical == status
          && status != Discriminating
    case Concluded(outcome) =>
      && c.judge(final).Challenged? && c.judge(final).assessed.mechanical == Discriminating
      && r.asked > 0 && replies(r.asked - 1).Answer?
      && var d := c.decision(replies(r.asked - 1).body);
         && d.outcome == outcome
         && EvidenceWorkflow.GateDecision(c.judge(final).assessed.pattern, d).None?
    case InvocationError(stage, started) =>
      && r.asked > 0 && replies(r.asked - 1).Failure?
      && started == (if stage.AssessmentStage? then |final| else |final| + 1)
      && (stage.AssessmentStage? ==> c.judge(final).Challenged? && c.judge(final).assessed.mechanical == Discriminating)
    case HarnessError => true
    case _ => false
  }

  lemma LogicalMeans(replies: Replies, at: nat)
    ensures var n := AttemptsFrom(replies, at);
            && 1 <= n <= 2
            && (n == 2 <==> replies(at) == Failure(true))
            && (Logical(replies, at).Returned? <==> replies(at + n - 1).Answer?)
            && (Logical(replies, at).Raised? <==> replies(at + n - 1).Failure?)
            && (Logical(replies, at).Returned? ==>
                  Logical(replies, at).body == replies(at + n - 1).body && Logical(replies, at).providerAttempts == n)
  {
  }

  lemma AssessMeans(replies: Replies, c: Case, bodies: seq<Body>, calls: seq<Call>, at: nat)
    requires c.judge(bodies).Challenged? && c.judge(bodies).assessed.mechanical == Discriminating
    ensures EndMeans(replies, c, Assess(replies, c, c.judge(bodies).assessed.pattern, bodies, calls, at), bodies)
  {
    LogicalMeans(replies, at);
  }

  lemma {:induction false} CandidatesMean(replies: Replies, c: Case, bodies: seq<Body>, calls: seq<Call>, at: nat)
      returns (final: seq<Body>)
    requires |bodies| < 3
    ensures EndMeans(replies, c, Candidates(replies, c, bodies, calls, at), final)
    decreases 3 - |bodies|, 0
  {
    LogicalMeans(replies, at);
    final := bodies;
    if c.fits(bodies) && Logical(replies, at).Returned? {
      var n := AttemptsFrom(replies, at);
      var made := calls + [Call(CandidateStage, n)];
      final := JudgedMeans(replies, c, bodies + [Logical(replies, at).body], made, at + n);
    }
  }

  lemma {:induction false} JudgedMeans(replies: Replies, c: Case, bodies: seq<Body>, calls: seq<Call>, at: nat)
      returns (final: seq<Body>)
    requires 0 < |bodies| <= 3
    ensures EndMeans(replies, c, Judged(replies, c, bodies, calls, at), final)
    decreases 3 - |bodies|, 1
  {
    final := bodies;
    match c.judge(bodies)
    case Broke =>
    case Rejected =>
      if |bodies| < 3 {
        final := CandidatesMean(replies, c, bodies, calls, at);
      }
    case Challenged(assessed) =>
      if assessed.mechanical == Discriminating {
        AssessMeans(replies, c, bodies, calls, at);
      } else if |bodies| < 3 {
        final := CandidatesMean(replies, c, bodies, calls, at);
      }
  }

  /** What the terminal status of every case says about its set-up, its claim, its candidates and its last reply. */
  lemma StatusMeans(replies: Replies, c: Case, at: nat) returns (final: seq<Body>)
    ensures var r := CaseFrom(replies, c, at);
            && (r.terminal.NotReady? <==> c.setup == EnvironmentNotReady)
            && match r.terminal
               case NotReady => r.asked == at
               case ClaimInvalidOutput => r.asked > at && replies(r.asked - 1).Answer?
                                          && c.claim(replies(r.asked - 1).body) == InvalidOutput
               case ClaimAbstained => r.asked > at && replies(r.asked - 1).Answer?
                                      && c.claim(replies(r.asked - 1).body) == NoClaim
               case ClaimInvocationError => r.asked > at && replies(r.asked - 1).Failure?
               case _ => EndMeans(replies, c, r, final)
  {
    final := [];
    LogicalMeans(replies, at);
    if c.setup == EnvironmentReady && c.claimFits && Logical(replies, at).Returned? {
      var n := AttemptsFrom(replies, at);
      if c.claim(Logical(replies, at).body) == Selected {
        final := CandidatesMean(replies, c, [], [Call(ClaimStage, n)], at + n);
      }
    }
  }

  // ---------------------------------------------------------------------------------------------
  // The same case with an investigator
  // ---------------------------------------------------------------------------------------------

  /** The first of `n` requests from `at` on that does not answer; `at + n` if all do. No wrapper retries these. */
  function FirstFailure(replies: Replies, at: nat, n: nat): (k: nat)
    ensures at <= k <= at + n && (k < at + n ==> !replies(k).Answer?)
    ensures forall j | at <= j < k :: replies(j).Answer?
    decreases n
  {
    if n == 0 || !replies(at).Answer? then at else FirstFailure(replies, at + 1, n - 1)
  }

  /** `_run_ready_live_case` when the claim is investigated: every model call of the investigation is one request. */
  function InvestigatedCase(replies: Replies, c: Case, b: Toolbox.Budget, model: Investigator.Model, at: nat): Ended {
    if c.setup == EnvironmentNotReady then Ended(NotReady, [], at)
    else if c.setup == SetupRaised then Ended(HarnessError, [], at)
    else
      var n := Investigator.Run(b, model).modelCalls;
      var k := FirstFailure(replies, at, n);
      if k < at + n then
        Ended(if replies(k).Failure? then ClaimInvocationError else HarnessError,
            seq(k - at + 1, _ => Call(ClaimStage, 1)), k + 1)
      else
        var made := seq(n, _ => Call(ClaimStage, 1));
        match c.claim(replies(at + n - 1).body)
        case InvalidOutput => Ended(ClaimInvalidOutput, made, at + n)
        case NoClaim => Ended(ClaimAbstained, made, at + n)
        case Selected => Candidates(replies, c, [], made, at + n)
  }

  lemma {:induction false} CandidatesCost(replies: Replies, c: Case, bodies: seq<Body>, calls: seq<Call>, at: nat)
    requires |bodies| < 3
    ensures at <= Candidates(replies, c, bodies, calls, at).asked <= at + 2 * (4 - |bodies|)
    decreases 3 - |bodies|
  {
    var n := AttemptsFrom(replies, at);
    var made := calls + [Call(CandidateStage, n)];
    if c.fits(bodies) && Logical(replies, at).Returned? && |bodies| < 2 {
      CandidatesCost(replies, c, bodies + [Logical(replies, at).body], made, at + n);
    }
  }

  /** An investigated case makes at most `maxTurns + 9` provider requests, whatever the provider and the model do. */
  lemma InvestigatedCaseIsBounded(replies: Replies, c: Case, b: Toolbox.Budget, model: Investigator.Model, at: nat)
    requires Toolbox.BudgetOk(b) && Investigator.ModelOk(model)
    ensures InvestigatedCase(replies, c, b, model, at).asked <= at + b.maxTurns + 9
  {
    Investigator.InvestigationIsBounded(b, model);
    var n := Investigator.Run(b, model).modelCalls;
    CandidatesCost(replies, c, [], seq(n, _ => Call(ClaimStage, 1)), at + n);
  }

  lemma {:induction false} AllAnswered(t: nat, at: nat, n: nat)
    requires at + n <= t
    ensures FirstFailure(WorstAfter(t), at, n) == at + n
    decreases n
  {
    if n > 0 {
      AllAnswered(t, at + 1, n - 1);
    }
  }

  /**
   * For every budget the bound is attained, so the per-case maximum of ten covers an investigated case only for one
   * turn.
   */
  lemma InvestigatedCaseExactly(b: Toolbox.Budget)
    requires Toolbox.BudgetOk(b)
    ensures (forall replies: Replies, c: Case, model: Investigator.Model, at: nat | Investigator.ModelOk(model) ::
               InvestigatedCase(replies, c, b, model, at).asked <= at + 10) <==> b.maxTurns == 1
  {
    if b.maxTurns == 1 {
      forall replies: Replies, c: Case, model: Investigator.Model, at: nat | Investigator.ModelOk(model)
        ensures InvestigatedCase(replies, c, b, model, at).asked <= at + 10
      {
        InvestigatedCaseIsBounded(replies, c, b, model, at);
      }
    } else {
      var t := b.maxTurns + 1;
      var model := Investigator.Lost();
      Investigator.EveryBudgetOverruns(b);
      AllAnswered(t, 0, t);
      WorstCandidatesCost(t, [], seq(t, _ => Call(ClaimStage, 1)), t);
      assert InvestigatedCase(WorstAfter(t), WorstCase(), b, model, 0).asked == t + 8 > 0 + 10;
    }
  }
}
