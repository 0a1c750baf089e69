/**
 * Claim-scoped evidence orchestration (`evidence_workflow.py`): the bounded candidate/repair loop, the
 * semantic gate and the report it persists, for every behaviour of the models and of the tests.
 */
module EvidenceWorkflow {
  import opened Prelude
  import opened Workflow
  import opened Evidence

  const MAX_CANDIDATE_MODEL_CALLS := 3
  const MAX_REPAIRS := 2

  datatype Relation = Related | Uncertain
  datatype Decision = Decision(outcome: ClaimOutcome, relation: Relation)
  datatype Claim = Claim(summary: string)

  datatype Challenge = Challenge(artifact: Artifact, base: Execution, head: Execution, assessed: Assessed)

  datatype Evaluation = Evaluation(sequence: nat, challenge: Challenge)

  datatype Report = Report(
    run: RunId,
    head: string,
    claim: Option<Claim>,
    attempts: seq<Option<Artifact>>,
    evaluations: seq<Evaluation>,
    selected: Option<Sha256>,
    baseExecution: Option<Execution>,
    headExecution: Option<Execution>,
    mechanical: MechanicalStatus,
    pattern: Pattern,
    semantic: Option<Decision>,
    outcome: ClaimOutcome)

  /**
   * What one candidate slot meets: whether the generator call returned, the validated artifact if there is
   * one, what the two executions of it observed, and what the assessor answered (None when it raised).
   */
  datatype Slot = Slot(generated: bool, candidate: Option<Artifact>, base: Execution, head: Execution,
      decision: Option<Decision>)

  /** Everything outside the workflow's control during one execution. */
  datatype Behaviour = Behaviour(claim: Option<Claim>, counterfactual: bool, ready: bool, slots: seq<Slot>)

  datatype WorkflowError = GeneratorFailed | AssessorFailed | BadRoles | ContradictsEvidence | UnrelatedAssertion

  /** `EvidenceReport.validate_evidence_pair`. */
  predicate ValidatorAccepts(r: Report) {
    && (r.baseExecution.None? <==> r.headExecution.None?)
    && (r.mechanical == Discriminating ==> r.baseExecution.Some? && r.semantic.Some?)
    && (r.claim.None? ==> r.outcome == InsufficientEvidence)
  }

  /** `_validate_semantic_decision`. */
  function GateDecision(pattern: Pattern, d: Decision): Option<WorkflowError> {
    var allowed :=
      match pattern
      case BaseFailedHeadPassed => {InsufficientEvidence, ClaimSupported}
      case BasePassedHeadFailed => {InsufficientEvidence, PotentialRegression}
      case _ => {InsufficientEvidence};
    if d.outcome !in allowed then Some(ContradictsEvidence)
    else if d.outcome != InsufficientEvidence && d.relation != Related then Some(UnrelatedAssertion)
    else None
  }

  function Abstention(run: Run, claim: Option<Claim>, attempts: seq<Option<Artifact>>, evaluations: seq<Evaluation>,
                      status: MechanicalStatus, challenge: Option<Challenge>): Report {
    match challenge
    case None =>
      Report(run.id, run.revision.head, claim, attempts, evaluations, None, None, None, status, NotComparable,
             None, InsufficientEvidence)
    case Some(c) =>
      Report(run.id, run.revision.head, claim, attempts, evaluations, Some(Sha256(c.artifact.content)),
             Some(c.base), Some(c.head), status, c.assessed.pattern, None, InsufficientEvidence)
  }

  function CompletedReport(run: Run, claim: Claim, attempts: seq<Option<Artifact>>, evaluations: seq<Evaluation>,
                           challenge: Challenge, d: Decision): Report {
    Report(run.id, run.revision.head, Some(claim), attempts, evaluations, Some(Sha256(challenge.artifact.content)),
           Some(challenge.base), Some(challenge.head), challenge.assessed.mechanical, challenge.assessed.pattern,
               Some(d), d.outcome)
  }

  predicate SetupFailed(c: Challenge) {
    c.base.status == EnvironmentSetupFailed || c.head.status == EnvironmentSetupFailed
  }

  datatype Verdict =
    | Stop(result: Result<Report, WorkflowError>)
    | Repair(attempts: seq<Option<Artifact>>, evaluations: seq<Evaluation>)

  /** One candidate slot: either it ends the execution, or it asks for a repair. */
  function TrySlot(run: Run, claim: Claim, slot: Slot, n: nat,
                   attempts: seq<Option<Artifact>>, evaluations: seq<Evaluation>): Verdict {
    var tried := attempts + [slot.candidate];
    if !slot.generated then Stop(Err(GeneratorFailed))
    else if slot.candidate.None? then
      if n >= MAX_REPAIRS then Stop(Ok(Abstention(run, Some(claim), tried, evaluations, InvalidTest, None)))
      else Repair(tried, evaluations)
    else
      match Classify(slot.candidate.value, slot.base, slot.head)
      case Err(_) => Stop(Err(BadRoles))
      case Ok(assessed) =>
        var c := Challenge(slot.candidate.value, slot.base, slot.head, assessed);
        var evaluated := evaluations + [Evaluation(n + 1, c)];
        if SetupFailed(c) then Stop(Ok(Abstention(run, Some(claim), tried, evaluated, Environmental, Some(c))))
        else if assessed.mechanical == Discriminating then
          if slot.decision.None? then Stop(Err(AssessorFailed))
          else
            var gate := GateDecision(assessed.pattern, slot.decision.value);
            if gate.Some? then Stop(Err(gate.value))
            else Stop(Ok(CompletedReport(run, claim, tried, evaluated, c, slot.decision.value)))
        else if n >= MAX_REPAIRS then
          Stop(Ok(Abstention(run, Some(claim), tried, evaluated, assessed.mechanical, Some(c))))
        else Repair(tried, evaluated)
  }

  /** The outcome of candidate slot `n` and of every slot after it; the specification of the source's loop. */
  function FromSlot(run: Run, claim: Claim, slots: seq<Slot>, n: nat,
                    attempts: seq<Option<Artifact>>, evaluations: seq<Evaluation>): Result<Report, WorkflowError>
    requires n < MAX_CANDIDATE_MODEL_CALLS
    decreases MAX_CANDIDATE_MODEL_CALLS - n
  {
    if n >= |slots| then Err(GeneratorFailed)
    else
      match TrySlot(run, claim, slots[n], n, attempts, evaluations)
      case Stop(result) => result
      case Repair(tried, evaluated) => FromSlot(run, claim, slots, n + 1, tried, evaluated)
  }

  /** `EvidenceWorkflow.execute`: replay stored evidence, or compute the one report to persist. */
  function Outcome(run: Run, prior: Option<Report>, b: Behaviour): Result<Report, WorkflowError> {
    if prior.Some? then Ok(prior.value)
    else if b.claim.None? then
      Ok(Abstention(run, None, [], [],
                    if b.counterfactual then CounterfactualNotApplicable else NonDiscriminating, None))
    else if !b.ready then Ok(Abstention(run, b.claim, [], [], Environmental, None))
    else FromSlot(run, b.claim.value, b.slots, 0, [], [])
  }

  /** The source's own loop, with its variables; it computes `Outcome`. */
  method Execute(run: Run, prior: Option<Report>, b: Behaviour) returns (r: Result<Report, WorkflowError>)
    ensures r == Outcome(run, prior, b)
  {
    if prior.Some? {
      return Ok(prior.value);
    }
    if b.claim.None? {
      var status := if b.counterfactual then CounterfactualNotApplicable else NonDiscriminating;
      return Ok(Abstention(run, None, [], [], status, None));
    }
    if !b.ready {
      return Ok(Abstention(run, b.claim, [], [], Environmental, None));
    }
    var claim := b.claim.value;
    var challenge: Option<Challenge> := None;
    var evaluations: seq<Evaluation> := [];
    if |b.slots| == 0 || !b.slots[0].generated {
      return Err(GeneratorFailed);
    }
    var attempts := [b.slots[0].candidate];
    var n := 0;
    while n < MAX_CANDIDATE_MODEL_CALLS
      invariant 0 <= n < MAX_CANDIDATE_MODEL_CALLS
      invariant n < |b.slots| && b.slots[n].generated && challenge.None?
      invariant |attempts| == n + 1 && attempts[n] == b.slots[n].candidate
      invariant Outcome(run, prior, b) == FromSlot(run, claim, b.slots, n, attempts[..n], evaluations)
      decreases MAX_CANDIDATE_MODEL_CALLS - n
    {
      var slot := b.slots[n];
      assert attempts == attempts[..n] + [slot.candidate];
      if slot.candidate.Some? {
        var assessed := Classify(slot.candidate.value, slot.base, slot.head);
        if assessed.Err? {
          return Err(BadRoles);
        }
        var c := Challenge(slot.candidate.value, slot.base, slot.head, assessed.value);
        challenge := Some(c);
        evaluations := evaluations + [Evaluation(n + 1, c)];
        if SetupFailed(c) {
          return Ok(Abstention(run, Some(claim), attempts, evaluations, Environmental, challenge));
        }
        if assessed.value.mechanical == Discriminating {
          if slot.decision.None? {
            return Err(AssessorFailed);
          }
          var gate := GateDecision(assessed.value.pattern, slot.decision.value);
          if gate.Some? {
            return Err(gate.value);
          }
          return Ok(CompletedReport(run, claim, attempts, evaluations, c, slot.decision.value));
        }
      }
      if n >= MAX_REPAIRS {
        break;
      }
      // `_repair_feedback` asserts a challenge whenever the attempt was validated.
      assert slot.candidate.Some? ==> challenge.Some?;
      if n + 1 >= |b.slots| || !b.slots[n + 1].generated {
        return Err(GeneratorFailed);
      }
      ghost var before := attempts;
      attempts := attempts + [b.slots[n + 1].candidate];
      challenge := None;
      n := n + 1;
      assert attempts[..n] == before;
    }
    var status := if challenge.Some? then challenge.value.assessed.mechanical else InvalidTest;
    r := Ok(Abstention(run, Some(claim), attempts, evaluations, status, challenge));
  }

  // ---------------------------------------------------------------------------------------------
  // What an execution establishes
  // ---------------------------------------------------------------------------------------------

  /** A slot that consumes a candidate call and leaves the question open. */
  ghost predicate Unresolved(s: Slot) {
    && s.generated
    && (s.candidate.Some? ==>
          && s.base.role == BaseRole && s.head.role == HeadRole
          && s.base.status != EnvironmentSetupFailed && s.head.status != EnvironmentSetupFailed
          && !(SameBytesOnBothSides(s.candidate.value, s.base, s.head)
               && IsOrdinary(s.base.status) && IsOrdinary(s.head.status) && s.base.status != s.head.status))
  }

  /** Slot `k` is the first decisive one, with the given statuses on the same bytes and a related verdict. */
  ghost predicate DecidedAt(b: Behaviour, k: nat, base: TestStatus, head: TestStatus, outcome: ClaimOutcome) {
    && b.claim.Some? && b.ready
    && k < |b.slots| && k < MAX_CANDIDATE_MODEL_CALLS
    && (forall j :: 0 <= j < k ==> Unresolved(b.slots[j]))
    && b.slots[k].generated && b.slots[k].candidate.Some?
    && SameBytesOnBothSides(b.slots[k].candidate.value, b.slots[k].base, b.slots[k].head)
    && b.slots[k].base.status == base && b.slots[k].head.status == head
    && b.slots[k].decision == Some(Decision(outcome, Related))
  }

  /** What a conclusive report must carry: the pair it stands on, and the verdict that relates it to the claim. */
  ghost predicate Carries(r: Report, base: TestStatus, head: TestStatus) {
    && r.claim.Some? && r.baseExecution.Some? && r.headExecution.Some?
    && r.mechanical == Discriminating
    && r.semantic == Some(Decision(r.outcome, Related))
    && r.attempts != [] && r.attempts[|r.attempts| - 1].Some?
    && var a := r.attempts[|r.attempts| - 1].value;
       && r.selected == Some(Sha256(a.content))
       && SameBytesOnBothSides(a, r.baseExecution.value, r.headExecution.value)
       && r.baseExecution.value.status == base
       && r.headExecution.value.status == head
  }

  /** Every promise a stored report makes about itself. */
  ghost predicate Sound(r: Report) {
    && ValidatorAccepts(r)
    && |r.attempts| <= MAX_CANDIDATE_MODEL_CALLS
    && |r.evaluations| <= |r.attempts|
    && (r.outcome == ClaimSupported ==> Carries(r, AssertionFailed, Passed))
    && (r.outcome == PotentialRegression ==> Carries(r, Passed, AssertionFailed))
    && r.outcome != ClaimNotSupported
  }

  ghost predicate SoundFor(run: Run, r: Report) {
    Sound(r) && r.run == run.id && r.head == run.revision.head
  }

  lemma TrySlotSound(run: Run, claim: Claim, slot: Slot, n: nat,
                     attempts: seq<Option<Artifact>>, evaluations: seq<Evaluation>)
    requires n < MAX_CANDIDATE_MODEL_CALLS && |attempts| == n && |evaluations| <= n
    ensures match TrySlot(run, claim, slot, n, attempts, evaluations)
            case Stop(result) => result.Ok? ==> SoundFor(run, result.value)
            case Repair(tried, evaluated) => |tried| == n + 1 && |evaluated| <= n + 1
  {
    if slot.candidate.Some? {
      var assessed := Classify(slot.candidate.value, slot.base, slot.head);
      if assessed.Ok? && assessed.value.mechanical == Discriminating && slot.decision.Some? {
        var c := Challenge(slot.candidate.value, slot.base, slot.head, assessed.value);
        var evaluated := evaluations + [Evaluation(n + 1, c)];
        var tried := attempts + [slot.candidate];
        assert tried[|tried| - 1] == Some(c.artifact);
      }
    }
  }

  lemma {:induction false} FromSlotSound(run: Run, claim: Claim, slots: seq<Slot>, n: nat,
                        attempts: seq<Option<Artifact>>, evaluations: seq<Evaluation>)
    requires n < MAX_CANDIDATE_MODEL_CALLS && |attempts| == n && |evaluations| <= n
    ensures var r := FromSlot(run, claim, slots, n, attempts, evaluations);
            r.Ok? ==> SoundFor(run, r.value)
    decreases MAX_CANDIDATE_MODEL_CALLS - n
  {
    if n < |slots| {
      TrySlotSound(run, claim, slots[n], n, attempts, evaluations);
      match TrySlot(run, claim, slots[n], n, attempts, evaluations)
      case Stop(_) =>
      case Repair(tried, evaluated) => FromSlotSound(run, claim, slots, n + 1, tried, evaluated);
    }
  }

  /** Every report an execution builds is accepted by the validator and never claims more than the pair shows. */
  lemma ExecutionIsSound(run: Run, b: Behaviour)
    ensures var r := Outcome(run, None, b);
            r.Ok? ==> SoundFor(run, r.value)
  {
    if b.claim.Some? && b.ready {
      FromSlotSound(run, b.claim.value, b.slots, 0, [], []);
    }
  }

  ghost predicate DecidedFrom(b: Behaviour, n: nat, base: TestStatus, head: TestStatus, outcome: ClaimOutcome) {
    exists k :: n <= k && DecidedAt(b, k, base, head, outcome)
  }

  ghost predicate Conclusive(base: TestStatus, head: TestStatus, outcome: ClaimOutcome) {
    || (base == AssertionFailed && head == Passed && outcome == ClaimSupported)
    || (base == Passed && head == AssertionFailed && outcome == PotentialRegression)
  }

  lemma TrySlotExact(run: Run, claim: Claim, slot: Slot, n: nat,
                     attempts: seq<Option<Artifact>>, evaluations: seq<Evaluation>,
                     base: TestStatus, head: TestStatus, outcome: ClaimOutcome)
    requires n < MAX_CANDIDATE_MODEL_CALLS && Conclusive(base, head, outcome)
    ensures var v := TrySlot(run, claim, slot, n, attempts, evaluations);
            && (v.Repair? <==> Unresolved(slot) && n < MAX_REPAIRS)
            && ((v.Stop? && v.result.Ok? && v.result.value.outcome == outcome) <==>
                && slot.generated && slot.candidate.Some?
                && SameBytesOnBothSides(slot.candidate.value, slot.base, slot.head)
                && slot.base.status == base && slot.head.status == head
                && slot.decision == Some(Decision(outcome, Related)))
  {
  }

  lemma {:induction false} FromSlotExact(run: Run, b: Behaviour, n: nat,
                        attempts: seq<Option<Artifact>>, evaluations: seq<Evaluation>,
                        base: TestStatus, head: TestStatus, outcome: ClaimOutcome)
    requires b.claim.Some? && b.ready && n < MAX_CANDIDATE_MODEL_CALLS
    requires forall j :: 0 <= j < n ==> j < |b.slots| && Unresolved(b.slots[j])
    requires Conclusive(base, head, outcome)
    ensures var r := FromSlot(run, b.claim.value, b.slots, n, attempts, evaluations);
            (r.Ok? && r.value.outcome == outcome) <==> DecidedFrom(b, n, base, head, outcome)
    decreases MAX_CANDIDATE_MODEL_CALLS - n
  {
    if n < |b.slots| {
      TrySlotExact(run, b.claim.value, b.slots[n], n, attempts, evaluations, base, head, outcome);
      match TrySlot(run, b.claim.value, b.slots[n], n, attempts, evaluations)
      case Repair(tried, evaluated) =>
        assert !DecidedAt(b, n, base, head, outcome);
        FromSlotExact(run, b, n + 1, tried, evaluated, base, head, outcome);
      case Stop(result) =>
        assert forall k :: n < k ==> !DecidedAt(b, k, base, head, outcome);
        if result.Ok? && result.value.outcome == outcome {
          assert DecidedAt(b, n, base, head, outcome);
        }
    }
  }

  /**
   * Support, exactly: an execution reports support if and only if its first decisive candidate failed its
   * assertion on BASE, passed on HEAD, was the same bytes on both sides, and the assessor called the
   * assertion related and the claim supported. A potential regression is the same with the sides exchanged.
   */
  lemma SupportExactly(run: Run, b: Behaviour)
    ensures var r := Outcome(run, None, b);
            && ((r.Ok? && r.value.outcome == ClaimSupported) <==>
                DecidedFrom(b, 0, AssertionFailed, Passed, ClaimSupported))
            && ((r.Ok? && r.value.outcome == PotentialRegression) <==>
                DecidedFrom(b, 0, Passed, AssertionFailed, PotentialRegression))
  {
    if b.claim.Some? && b.ready {
      FromSlotExact(run, b, 0, [], [], AssertionFailed, Passed, ClaimSupported);
      FromSlotExact(run, b, 0, [], [], Passed, AssertionFailed, PotentialRegression);
    }
  }

  // ---------------------------------------------------------------------------------------------
  // What every report says
  // ---------------------------------------------------------------------------------------------

  /** The attempts of the first `n` slots, each with its validated artifact if it has one. */
  function Attempted(slots: seq<Slot>, n: nat): seq<Option<Artifact>>
    requires n <= |slots|
  {
    seq(n, i requires 0 <= i < n => slots[i].candidate)
  }

  /** The evaluation of the executed candidate of slot `i`. */
  ghost predicate Evaluates(e: Evaluation, slot: Slot, i: nat) {
    && e.sequence == i + 1 && slot.candidate == Some(e.challenge.artifact)
    && e.challenge.base == slot.base && e.challenge.head == slot.head
    && Classify(e.challenge.artifact, slot.base, slot.head) == Ok(e.challenge.assessed)
  }

  /** One evaluation for each of the first `n` slots with a validated candidate, in order. */
  ghost predicate EvaluatedInOrder(evaluations: seq<Evaluation>, slots: seq<Slot>, n: nat)
    requires n <= |slots|
    decreases n
  {
    if n == 0 then evaluations == []
    else if slots[n - 1].candidate.None? then EvaluatedInOrder(evaluations, slots, n - 1)
    else
      && evaluations != [] && Evaluates(evaluations[|evaluations| - 1], slots[n - 1], n - 1)
      && EvaluatedInOrder(evaluations[..|evaluations| - 1], slots, n - 1)
  }

  /** What a report says of the slot that ended the execution: its executions, their classification, the decision. */
  ghost predicate EndShows(r: Report, slot: Slot, k: nat) {
    match slot.candidate
    case None =>
      && k == MAX_REPAIRS && r.mechanical == InvalidTest && r.pattern == NotComparable
      && r.selected.None? && r.baseExecution.None? && r.headExecution.None?
      && r.semantic.None? && r.outcome == InsufficientEvidence
    case Some(a) =>
      && r.selected == Some(Sha256(a.content))
      && r.baseExecution == Some(slot.base) && r.headExecution == Some(slot.head)
      && Classify(a, slot.base, slot.head).Ok?
      && r.pattern == Classify(a, slot.base, slot.head).value.pattern
      && EndDecides(r, slot, Classify(a, slot.base, slot.head).value.mechanical, k)
  }

  ghost predicate EndDecides(r: Report, slot: Slot, mechanical: MechanicalStatus, k: nat) {
    if slot.base.status == EnvironmentSetupFailed || slot.head.status == EnvironmentSetupFailed
    then r.mechanical == Environmental && r.semantic.None? && r.outcome == InsufficientEvidence
    else
      && r.mechanical == mechanical
      && if mechanical == Discriminating
         then r.semantic.Some? && r.semantic == slot.decision && r.semantic.value.outcome == r.outcome
         else k == MAX_REPAIRS && r.semantic.None? && r.outcome == InsufficientEvidence
  }

  /**
   * The report an execution ends with at slot `k`: what was tried, what the last candidate showed, and what follows.
   */
  ghost predicate ReportsAt(r: Report, b: Behaviour, k: nat) {
    && k < |b.slots| && k <= MAX_REPAIRS
    && (forall j :: 0 <= j < k ==> Unresolved(b.slots[j]))
    && b.slots[k].generated
    && r.claim == b.claim && r.attempts == Attempted(b.slots, k + 1)
    && EvaluatedInOrder(r.evaluations, b.slots, k + 1)
    && EndShows(r, b.slots[k], k)
  }

  lemma SlotEndShows(run: Run, claim: Claim, slot: Slot, n: nat, attempts: seq<Option<Artifact>>,
                     evaluations: seq<Evaluation>)
    requires n <= MAX_REPAIRS
    ensures var v := TrySlot(run, claim, slot, n, attempts, evaluations);
            v.Stop? && v.result.Ok? ==> slot.generated && EndShows(v.result.value, slot, n)
  {
  }

  /** The attempts and evaluations after slot `n`, in the report or for the repair. */
  ghost predicate TriedInto(tried: seq<Option<Artifact>>, evaluated: seq<Evaluation>, slot: Slot, n: nat,
                            attempts: seq<Option<Artifact>>, evaluations: seq<Evaluation>) {
    && tried == attempts + [slot.candidate]
    && if slot.candidate.None? then evaluated == evaluations
       else
         && evaluated != [] && evaluated[..|evaluated| - 1] == evaluations
         && Evaluates(evaluated[|evaluated| - 1], slot, n)
  }

  lemma SlotTries(run: Run, claim: Claim, slot: Slot, n: nat, attempts: seq<Option<Artifact>>,
                  evaluations: seq<Evaluation>)
    requires n <= MAX_REPAIRS
    ensures match TrySlot(run, claim, slot, n, attempts, evaluations)
            case Stop(result) =>
              result.Ok? ==>
                && TriedInto(result.value.attempts, result.value.evaluations, slot, n, attempts, evaluations)
                && result.value.claim == Some(claim)
            case Repair(tried, evaluated) => TriedInto(tried, evaluated, slot, n, attempts, evaluations)
  {
    if slot.candidate.Some? && Classify(slot.candidate.value, slot.base, slot.head).Ok? {
      var c := Challenge(slot.candidate.value, slot.base, slot.head,
                         Classify(slot.candidate.value, slot.base, slot.head).value);
      var more := evaluations + [Evaluation(n + 1, c)];
      assert more[..|more| - 1] == evaluations;
    }
  }

  lemma TriedUpTo(tried: seq<Option<Artifact>>, evaluated: seq<Evaluation>, slots: seq<Slot>, n: nat,
                  attempts: seq<Option<Artifact>>, evaluations: seq<Evaluation>)
    requires n < |slots| && attempts == Attempted(slots, n) && EvaluatedInOrder(evaluations, slots, n)
    requires TriedInto(tried, evaluated, slots[n], n, attempts, evaluations)
    ensures tried == Attempted(slots, n + 1) && EvaluatedInOrder(evaluated, slots, n + 1)
  {
  }

  lemma TrySlotReports(run: Run, b: Behaviour, n: nat, attempts: seq<Option<Artifact>>, evaluations: seq<Evaluation>)
    requires b.claim.Some? && n <= MAX_REPAIRS && n < |b.slots|
    requires forall j :: 0 <= j < n ==> Unresolved(b.slots[j])
    requires attempts == Attempted(b.slots, n) && EvaluatedInOrder(evaluations, b.slots, n)
    ensures match TrySlot(run, b.claim.value, b.slots[n], n, attempts, evaluations)
            case Stop(result) => result.Ok? ==> ReportsAt(result.value, b, n)
            case Repair(tried, evaluated) =>
              tried == Attempted(b.slots, n + 1) && EvaluatedInOrder(evaluated, b.slots, n + 1)
  {
    SlotEndShows(run, b.claim.value, b.slots[n], n, attempts, evaluations);
    SlotTries(run, b.claim.value, b.slots[n], n, attempts, evaluations);
    match TrySlot(run, b.claim.value, b.slots[n], n, attempts, evaluations)
    case Stop(result) =>
      if result.Ok? {
        TriedUpTo(result.value.attempts, result.value.evaluations, b.slots, n, attempts, evaluations);
      }
    case Repair(tried, evaluated) => TriedUpTo(tried, evaluated, b.slots, n, attempts, evaluations);
  }

  lemma {:induction false} FromSlotReports(run: Run, b: Behaviour, n: nat, attempts: seq<Option<Artifact>>,
                                           evaluations: seq<Evaluation>) returns (k: nat)
    requires b.claim.Some? && n <= MAX_REPAIRS
    requires n <= |b.slots| && forall j :: 0 <= j < n ==> Unresolved(b.slots[j])
    requires attempts == Attempted(b.slots, n) && EvaluatedInOrder(evaluations, b.slots, n)
    ensures var r := FromSlot(run, b.claim.value, b.slots, n, attempts, evaluations);
            r.Ok? ==> ReportsAt(r.value, b, k)
    decreases MAX_REPAIRS - n
  {
    k := n;
    if n < |b.slots| {
      TrySlotReports(run, b, n, attempts, evaluations);
      TrySlotExact(run, b.claim.value, b.slots[n], n, attempts, evaluations, AssertionFailed, Passed, ClaimSupported);
      match TrySlot(run, b.claim.value, b.slots[n], n, attempts, evaluations)
      case Stop(_) =>
      case Repair(tried, evaluated) => k := FromSlotReports(run, b, n + 1, tried, evaluated);
    }
  }

  /**
   * Every report in full: without a claim, and without a ready environment, nothing was tried; otherwise it lists
   * every attempt and evaluation up to the slot that ended the execution, and carries that slot's executions,
   * classification and, for a discriminating pair, the assessor's decision.
   */
  lemma ReportSaysWhatHappened(run: Run, b: Behaviour) returns (k: nat)
    ensures var o := Outcome(run, None, b);
            o.Ok? ==>
              var r := o.value;
              && r.run == run.id && r.head == run.revision.head
              && (b.claim.None? || !b.ready ==>
                    && r.claim == b.claim && r.attempts == [] && r.evaluations == []
                    && r.selected.None? && r.baseExecution.None? && r.headExecution.None?
                    && r.pattern == NotComparable && r.semantic.None? && r.outcome == InsufficientEvidence
                    && r.mechanical == (if b.claim.Some? then Environmental
                                        else if b.counterfactual then CounterfactualNotApplicable
                                        else NonDiscriminating))
              && (b.claim.Some? && b.ready ==> ReportsAt(r, b, k))
  {
    k := 0;
    ExecutionIsSound(run, b);
    if b.claim.Some? && b.ready {
      k := FromSlotReports(run, b, 0, [], []);
    }
  }
}
