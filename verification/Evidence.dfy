/** Mechanical classification of one BASE/HEAD pair (`evidence.py`, `challenge.py`). */
module Evidence {
  import opened Prelude
  import opened Workflow

  datatype TestStatus =
    | Passed | AssertionFailed | TestError | CollectionError | NotCollected | MultipleTestsCollected
    | Skipped | Xfailed | Xpassed | InvalidArtifact | TimedOut | EnvironmentSetupFailed | ProcessError

  datatype Role = BaseRole | HeadRole

  /** SHA-256 is treated as injective: a digest is its preimage, wrapped. */
  datatype Sha256 = Sha256(content: string)

  datatype Artifact = Artifact(node: string, content: string)

  datatype Execution = Execution(
    role: Role,
    node: string,
    expected: Sha256,
    before: Option<Sha256>,
    after: Option<Sha256>,
    status: TestStatus)

  datatype Pattern =
    | BaseFailedHeadPassed | BasePassedHeadFailed | BothPassed | BothFailed | NotComparable

  datatype Assessed = Assessed(mechanical: MechanicalStatus, pattern: Pattern)

  predicate IsInvalidTest(s: TestStatus) {
    s in {InvalidArtifact, NotCollected, MultipleTestsCollected, Skipped, Xfailed, Xpassed}
  }

  predicate IsEnvironmental(s: TestStatus) {
    s in {CollectionError, TestError, TimedOut, EnvironmentSetupFailed, ProcessError}
  }

  predicate IsOrdinary(s: TestStatus) { s in {Passed, AssertionFailed} }

  predicate Unchanged(e: Execution) { e.before == Some(e.expected) && e.after == Some(e.expected) }

  predicate OneSidedException(base: TestStatus, head: TestStatus) {
    || (base == TestError && IsOrdinary(head))
    || (head == TestError && IsOrdinary(base))
  }

  predicate DeclaresArtifact(a: Artifact, e: Execution) {
    e.node == a.node && e.expected == Sha256(a.content)
  }

  /**
   * The pair is evidence about one artifact: both sides ran that node, and the very bytes of the artifact
   * were on disk before and after each execution. Stated without reference to the classifier's branches.
   */
  ghost predicate SameBytesOnBothSides(a: Artifact, base: Execution, head: Execution) {
    && base.role == BaseRole && head.role == HeadRole
    && forall e <- {base, head} ::
         e.node == a.node
         && e.expected == Sha256(a.content)
         && e.before == Some(Sha256(a.content)) == e.after
  }

  datatype ClassifyError = WrongRoles

  /** `MechanicalEvidenceClassifier.classify`, branch for branch. */
  function Classify(a: Artifact, base: Execution, head: Execution): (r: Result<Assessed, ClassifyError>)
    ensures r.Err? <==> !(base.role == BaseRole && head.role == HeadRole)
    ensures r == Ok(Assessed(Discriminating, BaseFailedHeadPassed)) <==>
            SameBytesOnBothSides(a, base, head) && base.status == AssertionFailed && head.status == Passed
    ensures r == Ok(Assessed(Discriminating, BasePassedHeadFailed)) <==>
            SameBytesOnBothSides(a, base, head) && base.status == Passed && head.status == AssertionFailed
    ensures r.Ok? ==>
            (r.value.mechanical == Discriminating <==> r.value.pattern in {BaseFailedHeadPassed, BasePassedHeadFailed})
    ensures r.Ok? && (base.status == EnvironmentSetupFailed || head.status == EnvironmentSetupFailed) ==>
            r.value.mechanical != Discriminating
  {
    if base.role != BaseRole || head.role != HeadRole then Err(WrongRoles)
    else Ok(
      if !DeclaresArtifact(a, base) || !DeclaresArtifact(a, head) then Assessed(InvalidTest, NotComparable)
      else if IsInvalidTest(base.status) || IsInvalidTest(head.status) then Assessed(InvalidTest, NotComparable)
      else if OneSidedException(base.status, head.status) then
        Assessed(UncaughtExceptionOnOneRevision, NotComparable)
      else if IsEnvironmental(base.status) || IsEnvironmental(head.status) then
        Assessed(Environmental, NotComparable)
      else if !Unchanged(base) || !Unchanged(head) then Assessed(InvalidTest, NotComparable)
      else if !IsOrdinary(base.status) || !IsOrdinary(head.status) then Assessed(Environmental, NotComparable)
      else if base.status == Passed && head.status == Passed then Assessed(NonDiscriminating, BothPassed)
      else if base.status == AssertionFailed && head.status == AssertionFailed then
        Assessed(NonDiscriminating, BothFailed)
      else if base.status == AssertionFailed && head.status == Passed then
        Assessed(Discriminating, BaseFailedHeadPassed)
      else Assessed(Discriminating, BasePassedHeadFailed))
  }

  // --- What the other classifications mean ---------------------------------------------------------------

  ghost predicate BothDeclare(a: Artifact, base: Execution, head: Execution) {
    && base.role == BaseRole && head.role == HeadRole
    && base.node == a.node == head.node && base.expected == Sha256(a.content) == head.expected
  }

  /** The status belongs to no test that ran as collected: nothing was asserted, and nothing escaped. */
  predicate NeverRan(s: TestStatus) {
    s != Passed && s != AssertionFailed && s != TestError && s != CollectionError && s != TimedOut
    && s != EnvironmentSetupFailed && s != ProcessError
  }

  /** Non-discriminating: the same bytes, ordinary outcomes, and the same one on both sides. */
  lemma NonDiscriminatingExactly(a: Artifact, base: Execution, head: Execution)
    ensures Classify(a, base, head) == Ok(Assessed(NonDiscriminating, BothPassed)) <==>
            SameBytesOnBothSides(a, base, head) && base.status == Passed && head.status == Passed
    ensures Classify(a, base, head) == Ok(Assessed(NonDiscriminating, BothFailed)) <==>
            SameBytesOnBothSides(a, base, head) && base.status == AssertionFailed && head.status == AssertionFailed
    ensures Classify(a, base, head).Ok? && Classify(a, base, head).value.mechanical == NonDiscriminating ==>
            Classify(a, base, head).value.pattern in {BothPassed, BothFailed}
  {
  }

  /** An exception escaped on exactly one side, against an ordinary outcome, whatever happened to the bytes. */
  lemma OneSidedExceptionExactly(a: Artifact, base: Execution, head: Execution)
    ensures Classify(a, base, head) == Ok(Assessed(UncaughtExceptionOnOneRevision, NotComparable)) <==>
            && BothDeclare(a, base, head)
            && (|| (base.status == TestError && head.status in {Passed, AssertionFailed})
                || (head.status == TestError && base.status in {Passed, AssertionFailed}))
  {
  }

  /** Environmental: neither side failed to run as a test, and some side did not end ordinarily for another reason. */
  lemma EnvironmentalExactly(a: Artifact, base: Execution, head: Execution)
    ensures Classify(a, base, head) == Ok(Assessed(Environmental, NotComparable)) <==>
            && BothDeclare(a, base, head) && !NeverRan(base.status) && !NeverRan(head.status)
            && !(base.status in {Passed, AssertionFailed} && head.status in {Passed, AssertionFailed})
            && !(|| (base.status == TestError && head.status in {Passed, AssertionFailed})
                 || (head.status == TestError && base.status in {Passed, AssertionFailed}))
  {
  }

  /**
   * Invalid: another test or other bytes were declared, a side did not run as a test, or the bytes changed under it.
   */
  lemma InvalidExactly(a: Artifact, base: Execution, head: Execution)
    requires base.role == BaseRole && head.role == HeadRole
    ensures Classify(a, base, head) == Ok(Assessed(InvalidTest, NotComparable)) <==>
            || !BothDeclare(a, base, head) || NeverRan(base.status) || NeverRan(head.status)
            || (&& base.status in {Passed, AssertionFailed} && head.status in {Passed, AssertionFailed}
                && !SameBytesOnBothSides(a, base, head))
  {
  }
}
