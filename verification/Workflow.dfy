/** Durable workflow-state records and the transition rules of `workflow.py`. */
module Workflow {
  import opened Prelude

  type RunId = nat
  type Time = int

  datatype Lifecycle = Accepted | Queued | Running | Terminal
  datatype Phase =
    | ContextPhase | ClaimPhase | TestGeneration | BaseExecution | HeadExecution | Assessment | PublicationPhase
  datatype TerminalReason = Completed | Failed | SupersededReason | Cancelled
  datatype PublicationState =
    | NotStarted | Pending | Published | RetryableFailure | TerminalFailure | NotApplicable
  datatype RevisionState = Current | Superseded

  datatype MechanicalStatus =
    | Discriminating | NonDiscriminating | InvalidTest | Environmental
    | UncaughtExceptionOnOneRevision | CounterfactualNotApplicable
  datatype ClaimOutcome =
    | ClaimSupported | ClaimNotSupported | PotentialRegression | InsufficientEvidence

  /** Mutable narrative facts that a redelivered revision may refresh. */
  datatype Narrative = Narrative(action: string, title: string, body: string, installation: Option<nat>)

  datatype PullKey = PullKey(repository: string, number: nat)
  datatype RevisionKey = RevisionKey(pull: PullKey, base: string, head: string)

  datatype Event = Event(delivery: string, revision: RevisionKey, updated: Time, narrative: Narrative)

  datatype Run = Run(
    id: RunId,
    delivery: string,
    revision: RevisionKey,
    headUpdated: Time,
    narrative: Narrative,
    lifecycle: Lifecycle,
    phase: Phase,
    reason: Option<TerminalReason>,
    mechanical: Option<MechanicalStatus>,
    outcome: Option<ClaimOutcome>,
    publication: PublicationState,
    state: RevisionState,
    supersededBy: Option<RunId>,
    created: Time,
    changed: Time,
    version: nat)

  /** `VerificationRun.validate_dimensions`: every document read back from the store must pass it. */
  predicate Wellformed(r: Run) {
    && (r.lifecycle.Terminal? <==> r.reason.Some?)
    && (r.state.Current? <==> r.supersededBy.None?)
    && r.created <= r.changed
  }

  datatype Transition = Transition(
    lifecycle: Option<Lifecycle>,
    phase: Option<Phase>,
    reason: Option<TerminalReason>,
    mechanical: Option<MechanicalStatus>,
    outcome: Option<ClaimOutcome>,
    publication: Option<PublicationState>)

  predicate LifecycleMay(a: Lifecycle, b: Lifecycle) {
    match a
    case Accepted => b in {Accepted, Queued, Terminal}
    case Queued => b in {Queued, Running, Terminal}
    case Running => b in {Running, Terminal}
    case Terminal => b == Terminal
  }

  function PhaseOrder(p: Phase): nat {
    match p
    case ContextPhase => 0
    case ClaimPhase => 1
    case TestGeneration => 2
    case BaseExecution => 3
    case HeadExecution => 4
    case Assessment => 5
    case PublicationPhase => 6
  }

  predicate PublicationMay(a: PublicationState, b: PublicationState) {
    match a
    case NotStarted => b in {NotStarted, Pending}
    case Pending => b in {Pending, Published, RetryableFailure, TerminalFailure, NotApplicable}
    case RetryableFailure => b in {RetryableFailure, Pending, Published, TerminalFailure}
    case Published => b == Published
    case TerminalFailure => b == TerminalFailure
    case NotApplicable => b == NotApplicable
  }

  datatype TransitionError =
    | ClockMovedBackward | RunIsSuperseded | BadLifecycle | PhaseMovedBackward | BadPublication
    | ReasonMissing | ReasonWithoutTerminal | ReasonImmutable | MechanicalImmutable | OutcomeImmutable | NoChange

  function Keep<T>(requested: Option<T>, current: Option<T>): Option<T> {
    if requested.Some? then requested else current
  }

  /**
   * `apply_run_transition`. The contract says what no accepted transition can do: move any dimension
   * backwards, rewrite a recorded fact, touch a superseded run, or build a record the reader would reject.
   */
  function ApplyTransition(r: Run, t: Transition, now: Time): (res: Result<Run, TransitionError>)
    ensures res.Ok? ==>
      && r.state.Current?
      && (Wellformed(r) ==> Wellformed(res.value))
      && res.value.changed == now >= r.changed
      && res.value.version == r.version + 1
      && SameIdentity(r, res.value)
      && LifecycleMay(r.lifecycle, res.value.lifecycle)
      && PublicationMay(r.publication, res.value.publication)
      && (r.reason.Some? ==> res.value.reason == r.reason)
      && (r.mechanical.Some? ==> res.value.mechanical == r.mechanical)
      && (r.outcome.Some? ==> res.value.outcome == r.outcome)
      && PhaseOrder(r.phase) <= PhaseOrder(res.value.phase)
  {
    var lifecycle := OrElse(t.lifecycle, r.lifecycle);
    var phase := OrElse(t.phase, r.phase);
    var publication := OrElse(t.publication, r.publication);
    var reason := Keep(t.reason, r.reason);
    var mechanical := Keep(t.mechanical, r.mechanical);
    var outcome := Keep(t.outcome, r.outcome);
    if now < r.changed then Err(ClockMovedBackward)
    else if r.state.Superseded? then Err(RunIsSuperseded)
    else if !LifecycleMay(r.lifecycle, lifecycle) then Err(BadLifecycle)
    else if PhaseOrder(phase) < PhaseOrder(r.phase) then Err(PhaseMovedBackward)
    else if !PublicationMay(r.publication, publication) then Err(BadPublication)
    else if lifecycle.Terminal? && reason.None? then Err(ReasonMissing)
    else if !lifecycle.Terminal? && reason.Some? then Err(ReasonWithoutTerminal)
    else if r.reason.Some? && reason != r.reason then Err(ReasonImmutable)
    else if r.mechanical.Some? && mechanical != r.mechanical then Err(MechanicalImmutable)
    else if r.outcome.Some? && outcome != r.outcome then Err(OutcomeImmutable)
    else
      var next := r.(lifecycle := lifecycle, phase := phase, reason := reason, mechanical := mechanical,
                     outcome := outcome, publication := publication);
      if next == r then Err(NoChange) else Ok(next.(changed := now, version := r.version + 1))
  }

  /** What a transition or a refresh never alters about a run. */
  predicate SameIdentity(a: Run, b: Run) {
    && a.id == b.id
    && a.revision == b.revision
    && a.headUpdated == b.headUpdated
    && a.narrative == b.narrative
    && a.state == b.state
    && a.supersededBy == b.supersededBy
    && a.created == b.created
    && (a.lifecycle.Terminal? ==> b.lifecycle.Terminal?)
  }

  // --- What the transition tables allow ------------------------------------------------------------------

  function LifecycleOrder(l: Lifecycle): nat {
    match l case Accepted => 0 case Queued => 1 case Running => 2 case Terminal => 3
  }

  /** A run stays, moves on by one step, or ends; it never moves back, skips a step or resumes. */
  lemma LifecycleMoves(a: Lifecycle, b: Lifecycle)
    ensures LifecycleMay(a, b) <==> b == a || b.Terminal? || LifecycleOrder(b) == LifecycleOrder(a) + 1
  {
  }

  /**
   * Publishing starts as PENDING; what is published, failed for good or not applicable stays so; a failure can be
   * retried.
   */
  lemma PublicationMoves(a: PublicationState, b: PublicationState)
    requires a != b
    ensures a in {Published, TerminalFailure, NotApplicable} || b.NotStarted? ==> !PublicationMay(a, b)
    ensures a.NotStarted? ==> (PublicationMay(a, b) <==> b.Pending?)
    ensures a.Pending? && !b.NotStarted? ==> PublicationMay(a, b)
    ensures a.RetryableFailure? && !b.NotStarted? ==> (PublicationMay(a, b) <==> !b.NotApplicable?)
  {
  }

  /** What a transition asks for, a field at a time: the requested value, or the one the run has. */
  predicate Installs<T(==)>(requested: Option<T>, before: T, after: T) {
    after == if requested.Some? then requested.value else before
  }

  predicate Records<T(==)>(requested: Option<T>, before: Option<T>, after: Option<T>) {
    after == if requested.Some? then requested else before
  }

  /** An accepted transition installs exactly what it asks for and leaves every other field of the run alone. */
  lemma AppliedExactly(r: Run, t: Transition, now: Time)
    requires ApplyTransition(r, t, now).Ok?
    ensures var s := ApplyTransition(r, t, now).value;
            && Installs(t.lifecycle, r.lifecycle, s.lifecycle) && Installs(t.phase, r.phase, s.phase)
            && Installs(t.publication, r.publication, s.publication)
            && Records(t.reason, r.reason, s.reason)
            && Records(t.mechanical, r.mechanical, s.mechanical) && Records(t.outcome, r.outcome, s.outcome)
            && s.changed == now && s.version == r.version + 1
            && s.id == r.id && s.delivery == r.delivery && s.revision == r.revision && s.headUpdated == r.headUpdated
            && s.narrative == r.narrative && s.state == r.state && s.supersededBy == r.supersededBy
            && s.created == r.created
  {
  }

  /** When a transition of a stored run is accepted, request by request. */
  lemma AcceptedExactly(r: Run, t: Transition, now: Time)
    requires Wellformed(r)
    ensures ApplyTransition(r, t, now).Ok? <==>
            && r.changed <= now && r.state.Current?
            && LifecycleMay(r.lifecycle, if t.lifecycle.Some? then t.lifecycle.value else r.lifecycle)
            && PhaseOrder(r.phase) <= PhaseOrder(if t.phase.Some? then t.phase.value else r.phase)
            && PublicationMay(r.publication, if t.publication.Some? then t.publication.value else r.publication)
            && (t.reason.Some? ==>
                r.reason in {None, t.reason} && (t.lifecycle == Some(Terminal) || r.lifecycle.Terminal?))
            && (t.lifecycle == Some(Terminal) ==> t.reason.Some? || r.reason.Some?)
            && (t.mechanical.Some? ==> r.mechanical in {None, t.mechanical})
            && (t.outcome.Some? ==> r.outcome in {None, t.outcome})
            && AsksForChange(r, t)
  {
  }

  /** The transition asks for some value the run does not have. */
  predicate AsksForChange(r: Run, t: Transition) {
    || (t.lifecycle.Some? && t.lifecycle.value != r.lifecycle) || (t.phase.Some? && t.phase.value != r.phase)
    || (t.publication.Some? && t.publication.value != r.publication)
    || (t.reason.Some? && t.reason != r.reason)
    || (t.mechanical.Some? && t.mechanical != r.mechanical) || (t.outcome.Some? && t.outcome != r.outcome)
  }
}
