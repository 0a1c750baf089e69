# PatchProof: a verified model of its deterministic cores

PatchProof decides whether a pull request does what it claims. A model proposes a claim and a test; everything that
makes the answer trustworthy is deterministic code around the model. This project models that code in Dafny and proves
what it guarantees for every model output, every arrival order, every crash and every provider failure.

`dafny verify dfyconfig.toml` checks everything.

| file | component |
|---|---|
| `Workflow.dfy`, `RunStore.dfy` | run lifecycle and the Firestore run store: one function per transaction, and the class whose methods perform them |
| `Lifecycle.dfy` | where an accepted run starts, that it can be executed to its end, and what happens to runs nobody executes |
| `StoreHistory.dfy`, `StoreTheorems.dfy`, `Convergence.dfy` | histories of transactions, the store invariant and what it implies, and when a pull request converges |
| `CheckFormat.dfy`, `Publication.dfy`, `Progress.dfy`, `PageBound.dfy` | check formatting, and the retry protocol against GitHub as a state machine with crashes and lost responses |
| `Evidence.dfy`, `EvidenceWorkflow.dfy`, `Completion.dfy` | mechanical classification, the candidate/repair loop, the semantic gate, and completing the run |
| `Symbols.dfy`, `Relevance.dfy`, `Priority.dfy` | cross-revision comparison, dependency graph and relevance closure, fair prioritization |
| `Toolbox.dfy`, `Investigator.dfy`, `Grounding.dfy` | the budgeted tools, the investigation loop, and the claim gate |
| `BoundedOutput.dfy`, `ContextFit.dfy`, `DiffBudget.dfy`, `NameStatus.dfy` | bounded data transforms |
| `ProviderBudget.dfy`, `SealedRun.dfy`, `SealedOutcomes.dfy` | provider-call budgets and exactly-once evaluation |

How the model is set up:

- SHA-256 is injective: a digest is modelled by the document it was computed from. `uuid4` draws an arbitrary identifier;
  creating a run under a taken identifier fails, as the transaction's `create` does.
- A language model, a tool answer, a test execution, a provider reply or an interleaving is an arbitrary input.
- Firestore transactions are atomic. An aborted or retried one changes nothing.
- Publish attempts of one run are serial; attempts of different runs, workers, webhooks and other applications' checks
  interleave freely. Only the publisher marks a run PUBLISHED. A request the client gave up on either took effect before
  the attempt's next step or never does, and checks are not deleted on GitHub.

Where the code does not do what it is documented or intended to do, the code is modelled as it is, with an input that
shows it and the exact condition under which it does:

- A pull request converges to its newest event exactly when some arrival of that event reads only documents that still
  validate (`ConvergesExactly`). A stored run stops validating exactly when an acceptance refreshes or retires it at a
  clock before its creation (`ReadableExactly`), and an arrival is rejected exactly when it reads such a run
  (`RejectedExactly`). `BackwardClockSticks` (a refresh) and `RetiringBehindRejects` (a retirement, which leaves nothing
  stuck) are the two failing histories; `StuckForever` says the first never recovers. A clock that does not run backwards
  within each pull request is enough (`ForwardClocksArePunctual`).
- At most one check per run: the next listing can end in a second check exactly when it must find an unrecorded check
  among more than 100 same-named ones of the commit (`DuplicatesExactly`); `PageBoundIsNeeded` is a whole history.
- The method text of the investigator says at most `max_turns` model turns. A run makes `max_turns + 1` model calls
  exactly when the model investigates in every turn and the records stay below the call budget until the last one
  (`OverrunsExactly`), and every budget has such a model (`EveryBudgetOverruns`). The transcript holds sixteen records,
  which some admissible budgets overflow (`TranscriptFitsExactly`).
- The diff budget is described as a hard limit, but line breaks between sections are not charged to it
  (`TotalIsKeptExactly`); with the default budget a diff of 14 079 characters is attained (`DefaultBudgetOverflows`).
- A protocol may declare zero transient retries, but the wrappers retry once regardless, so the derived provider-call
  maximum is then too small (`DerivedMaximumCoversExactly`). It covers a case whose claim is investigated only for a
  one-turn budget (`InvestigatedCaseExactly`).
- Replacing fences in quoted text leaves a fence behind exactly for runs of 5, 8, 11, ... backticks
  (`FencingIsCompleteExactly`).
- After RUN has sealed a document, the public document can still be replaced exactly when a PREPARE that passed its
  check before the seal is in flight and can compute a different document (`PublicChangesExactly`;
  `LatePrepareReplacesPublic` is a history). Executed cases and stored results are unaffected, but once the public
  document differs and nothing is in flight, scoring is refused for ever (`ReplacementBlocksScoring`). PREPARE computes
  the document from frozen source, integrity-checked files and pinned commits; if every PREPARE computes the same one, it
  is never replaced (`SameDocumentStays`).

## Model

| member | source | states |
|---|---|---|
| Workflow.ApplyTransition | src/patchproof/workflow.py:246-306 | an accepted transition bumps the version, leaves a valid run, and preserves the run's identity, revision, timestamp of its head and supersession link |
| Workflow.AcceptedExactly | src/patchproof/workflow.py:246-306 | a transition of a valid run is accepted if and only if the clock is not behind, the run is current, each requested move is allowed, reasons and results are not rewritten, a terminal run has a reason, and something changes |
| Workflow.AppliedExactly | src/patchproof/workflow.py:286-306 | an accepted transition installs exactly the requested values and leaves every other field alone |
| Workflow.LifecycleMoves | src/patchproof/workflow.py:204-213 | a run stays, moves on by one lifecycle step, or ends |
| Workflow.PublicationMoves | src/patchproof/workflow.py:215-239 | publishing starts as PENDING; published, failed for good and not applicable are final; a retryable failure can go on |
| RunStore.FirestoreRunStore.AcceptPullRequest | src/patchproof/firestore_store.py:60-180 | the transaction, with its reads and writes in order, commits exactly the specified new store and result, or raises the specified error and changes nothing |
| Lifecycle.CreatedExactly | src/patchproof/firestore_store.py:124-178 | after every history, a creating acceptance stores an untouched run under the drawn identifier, current or superseded by the current one, and a run it replaces becomes terminal, for the reason SUPERSEDED unless it had ended |
| Lifecycle.KindExactly | src/patchproof/firestore_store.py:64-178 | after every history, exactly when an arrival is a redelivery, a refresh, a stale run or a new current run |
| Lifecycle.RefreshExactly | src/patchproof/firestore_store.py:93-122 | a refresh takes a newer event's timestamp and narrative and raises the version, and otherwise writes only the delivery |
| Lifecycle.AnswersWithBoundRun | src/patchproof/firestore_store.py:64-178 | every acceptance answers with the stored run its delivery is bound to |
| Lifecycle.UntouchedRuns | src/patchproof/firestore_store.py:146-167 | after every history every run carries the delivery and revision of an accepted event, and at version 1 is ACCEPTED in the first phase, or stale and terminal as SUPERSEDED, with nothing recorded |
| Lifecycle.CreatedRunExecutes | src/patchproof/workflow.py:246-306 | after every history a created run can be queued, set running, taken through every phase in order and completed, at any clocks that do not run backwards |
| RunStore.FirestoreRunStore.Transition | src/patchproof/firestore_store.py:210-225 | optimistic transition: a version conflict or illegal move changes nothing |
| Lifecycle.OneWriterPerVersion | src/patchproof/firestore_store.py:210-225 | of two writers that read the same version of a run at most one is ever accepted, whatever happens in between |
| RunStore.FirestoreRunStore.Save | src/patchproof/firestore_store.py:227-250 | evidence is written once; the same document again is accepted, a different one is a conflict |
| RunStore.FirestoreRunStore.Begin | src/patchproof/firestore_store.py:256-290 | starts or retries a publication under the same payload hash only |
| Lifecycle.AttemptsAreCounted | src/patchproof/firestore_store.py:256-290 | after every history the attempt count of a publication is the number of times it was begun |
| RunStore.FirestoreRunStore.UpdatePublication | src/patchproof/firestore_store.py:307-339 | a check id is set once and never replaced by another; recording an error keeps it |
| RunStore.FirestoreRunStore.Fail | src/patchproof/firestore_store.py:341-388 | records one failure and terminates the run in one transaction; repeating it returns the first record |
| Lifecycle.FailureRecordsPhase | src/patchproof/firestore_store.py:341-388 | the first failure records the phase it happened in and terminates the run as FAILED; a later one changes nothing |
| StoreHistory.EveryHistory | src/patchproof/firestore_store.py:60-388 | the whole store invariant (current pointers, revision index, deliveries, newest event, successor ranks) holds after every sequence of transactions |
| StoreTheorems.IndexesAgreeWithScans | src/patchproof/firestore_store.py:73-123 | after every history the current pointer names exactly the one CURRENT run of its pull request; the revision index has exactly the revisions some run has and names the latest; a known revision without a current run is unreachable |
| StoreTheorems.DeliveryBoundForever | src/patchproof/firestore_store.py:65-71 | a delivery stays bound to one run of the revision its first event announced, under every continuation |
| StoreTheorems.SupersessionReachesCurrent | src/patchproof/firestore_store.py:126-178 | every superseded run is TERMINAL, and following successor links from any run reaches the one CURRENT run of its pull request within as many steps as there are runs |
| StoreTheorems.TimestampIsMaximum | src/patchproof/firestore_store.py:93-114 | with no assumption on clocks or identifiers, the current run's timestamp is the maximum of the pull request's accepted events, belongs with the run's narrative to an accepted event of that revision, and never decreases |
| Convergence.ReadableExactly | src/patchproof/firestore_store.py:93-144 | after every history every stored run validates when read back if and only if each acceptance that refreshed or retired a run had a clock not before that run's creation |
| Convergence.RejectedExactly | src/patchproof/firestore_store.py:65-92 | with new run identifiers, after every history an arrival is rejected if and only if some document it reads does not validate |
| Convergence.ConvergesExactly | src/patchproof/firestore_store.py:60-180 | with new identifiers and consistent deliveries, whatever the order, redeliveries and transactions in between, the pull request ends on a CURRENT run with the newest event's base, head, timestamp and narrative if and only if some arrival of that event read only valid documents |
| Convergence.EveryArrivalIsAccepted | src/patchproof/firestore_store.py:60-180 | if no refreshing or retiring write fell behind its run's creation, every arriving event is accepted |
| Convergence.ForwardClocksArePunctual | src/patchproof/firestore_store.py:60-180 | a clock that does not run backwards among the acceptances of each single pull request satisfies that condition |
| Convergence.ConvergesToNewest | src/patchproof/firestore_store.py:60-180 | under the same condition the pull request ends on the newest event |
| Convergence.OrderIndependence | src/patchproof/firestore_store.py:60-180 | under the same condition two histories with the same arrivals in any orders end on the same revision, timestamp and narrative |
| Convergence.StuckForever | src/patchproof/firestore_store.py:76-80 | once the current run of a pull request cannot be read back, no later history moves that pull request or changes that run |
| Convergence.BackwardClockSticks | src/patchproof/firestore_store.py:99-114 | a two-event history with a backward clock reaches the stuck state |
| Convergence.RetiringBehindRejects | src/patchproof/firestore_store.py:126-144 | retiring a run at a clock before its creation makes a newer event of its revision rejected, with nothing stuck: the pull request stays on the run in between |
| StoreTheorems.RunsOnlyMoveForward | src/patchproof/firestore_store.py:93-225 | under every continuation a stored run keeps its identity, successor, terminal reason, recorded results and published mark, never goes back in lifecycle, phase or timestamp, and changes only under a higher version |
| StoreTheorems.RecordsAreWriteOnce | src/patchproof/firestore_store.py:227-339 | no continuation of a history changes stored evidence, the payload hash of a publication, or a recorded check id |
| Evidence.Classify | src/patchproof/evidence.py:35-146 | each discriminating pattern is reported if and only if both sides ran the artifact's node on its unchanged bytes with exactly those statuses |
| Evidence.NonDiscriminatingExactly | src/patchproof/evidence.py:112-126 | non-discriminating means the same bytes with the same ordinary outcome on both sides |
| Evidence.OneSidedExceptionExactly | src/patchproof/evidence.py:67-82 | an uncaught exception on one revision means one side's test error against an ordinary outcome |
| Evidence.EnvironmentalExactly | src/patchproof/evidence.py:83-91 | environmental means both sides ran a test and some side did not end ordinarily otherwise |
| Evidence.InvalidExactly | src/patchproof/evidence.py:50-66 | invalid means other declarations, a side that never ran as a test, or bytes that changed |
| EvidenceWorkflow.Execute | src/patchproof/evidence_workflow.py:375-530 | the claim and candidate loop with its variables computes the specified report or error for every behaviour of the models and of the tests |
| EvidenceWorkflow.ExecutionIsSound | src/patchproof/evidence_workflow.py:269-279 | every report an execution builds passes the report validator, has at most three attempts, never states more than its pair shows, and carries the run's identity and head |
| EvidenceWorkflow.SupportExactly | src/patchproof/evidence_workflow.py:442-530 | CLAIM_SUPPORTED is reported if and only if the first decisive candidate failed its assertion on BASE and passed on HEAD with the same bytes and a related, supporting verdict; POTENTIAL_REGRESSION dually |
| EvidenceWorkflow.ReportSaysWhatHappened | src/patchproof/evidence_workflow.py:378-530 | every report in full: attempts and evaluations of every slot up to the last, that slot's executions, classification and decision, or why nothing was tried |
| Completion.PersistTerminal | src/patchproof/evidence_workflow.py:532-550 | saving the report and completing the run succeeds exactly when the run is current, its clock has not run back and nothing recorded contradicts the report; otherwise at most the evidence was saved |
| Completion.CompletedMatchesEvidence | src/patchproof/evidence_workflow.py:532-550 | after every history in which only this step completes runs, a recorded mechanical status or outcome is that of the stored evidence, and a COMPLETED run records both |
| CheckFormat.FencingIsCompleteExactly | src/patchproof/github_checks.py:137-138 | quoted text keeps a fence exactly when it has a maximal run of 5, 8, 11, ... backticks |
| CheckFormat.FenceShows | src/patchproof/github_checks.py:137-138 | the fence predicate used above is the occurrence of three consecutive backticks |
| CheckFormat.FormatMeans | src/patchproof/github_checks.py:63-134 | the check is about the report's commit and run and succeeds, fails or stays neutral by the claim's outcome alone |
| Publication.EveryExecution | src/patchproof/github_checks.py:367-432 | every interleaving of publish attempts, crashes, lost responses, webhooks and workers keeps the protocol invariant; exclusivity too, if no listing missed a check |
| Progress.UndisturbedAttemptPublishes | src/patchproof/github_checks.py:367-432 | from every reachable state in which a run may be published and no attempt is under way, an undisturbed attempt ends with it PUBLISHED and the identifier recorded of a check that shows its evidence |
| Progress.TroubledAttemptFails | src/patchproof/github_checks.py:400-425 | from the same states a transient failure ends RETRYABLE_FAILURE, where an undisturbed attempt publishes, and a permanent one TERMINAL_FAILURE, with the error recorded |
| Progress.TerminalFailureIsFinal | src/patchproof/github_checks.py:389-390 | a run whose publication failed for good stays so under every continuation, and every later attempt is refused |
| Progress.StartsExactly | src/patchproof/github_checks.py:369-390 | an attempt starts exactly for a current, completed run with stored evidence whose publication neither succeeded nor failed for good |
| Publication.AtMostOneCheck | src/patchproof/github_checks.py:274-340 | GitHub never holds two checks with one run's external id, provided that whenever an unrecorded check must be found the listing fits one page |
| Publication.PublishedMeansPublished | src/patchproof/github_checks.py:392-432 | a PUBLISHED run has a recorded check, the hash of its formatted evidence, and that check on its commit with its conclusion; and only that one if no listing missed a check |
| Publication.SuccessCheckIsBacked | src/patchproof/github_checks.py:63-134 | a remote check that says success (failure) exists only for stored evidence of the exact BASE/HEAD pattern |
| Publication.PayloadNeverConflicts | src/patchproof/firestore_store.py:256-290 | in every reachable state a retry never meets a payload conflict |
| Publication.RetriesNeverConflict | src/patchproof/firestore_store.py:296-339 | if no listing missed a check, recording the check id an attempt obtained always succeeds |
| Publication.DuplicatesExactly | src/patchproof/github_checks.py:291-340 | the next listing of a reachable state can end in a second check if and only if an unrecorded check must be found among more than 100 same-named ones |
| Publication.OverflowingPageDuplicates | src/patchproof/github_checks.py:319-340 | with more than 100 same-named checks a permitted listing omits the run's unrecorded check and the retry creates a second one |
| PageBound.PageBoundIsNeeded | src/patchproof/github_checks.py:319-340 | a complete history from the empty store, with serial attempts, one lost response and more than 100 same-named checks, ends with two checks of one run |
| Publication.FullPageIsComplete | src/patchproof/github_checks.py:327-340 | a page of a commit with at most 100 same-named checks lists all of them |
| Symbols.Comparisons | src/patchproof/investigation_tools.py:642-683 | one comparison per identity selected on either side, sorted by identity, each what looking both sides up gives |
| Symbols.ComparisonMeans | src/patchproof/investigation_tools.py:655-683 | each comparison says on which revision its symbol exists, and a shared symbol is unchanged exactly if source, kind, definition kinds and definition count agree |
| Symbols.FoundUnderBothNames | src/patchproof/investigation_tools.py:1058-1060 | a query finds a symbol of the path under its own name and under its module's name, and under no other |
| Symbols.LookupFinds | src/patchproof/investigation_tools.py:645-663 | the dictionary lookup finds a selected symbol of that identity if and only if there is one |
| Relevance.DependencyGraph | src/patchproof/investigation_tools.py:752-786 | the graph built through the three lookup tables is the naive graph over all symbol, reference and target triples |
| Relevance.RelevanceIdentities | src/patchproof/investigation_tools.py:732-798 | an identity is returned if and only if it is a changed or new seed or reaches one along at most the given number of edges |
| Relevance.SelfResolves | src/patchproof/investigation_tools.py:801-818 | `self.x` and `cls.x` resolve to the sibling of the enclosing class, and to the class's own member inside a class |
| Relevance.BareNameResolves | src/patchproof/investigation_tools.py:809-810 | an expression without a dot resolves to its name |
| Relevance.OtherReceiverResolvesToNothing | src/patchproof/investigation_tools.py:811-813 | an attribute of any other receiver resolves to nothing |
| Relevance.ImportedUnder | src/patchproof/investigation_tools.py:759-761 | a symbol is imported under its module's name, or without `src.` for a module below `src/` |
| Relevance.SiblingIsRelevant | src/patchproof/investigation_tools.py:732-798 | a shared method that refers to a changed or new sibling through `self` or `cls` is relevant from one hop on |
| Relevance.BareCallerIsRelevant | src/patchproof/investigation_tools.py:732-798 | so is a shared symbol that refers to a changed or new symbol of its file by its bare name |
| Relevance.ImporterIsRelevant | src/patchproof/investigation_tools.py:732-798 | so is one that refers to a changed or new symbol of any file through its import |
| Relevance.NothingInsideDependsOnNothing | src/patchproof/investigation_tools.py:775-786 | a symbol whose lines hold no reference of its file depends on nothing |
| Relevance.FixpointIsFinal | src/patchproof/investigation_tools.py:788-798 | once a hop adds nothing no later hop would, so the early exit loses no identity |
| Priority.Prioritize | src/patchproof/investigation_tools.py:685-718 | the loops compute the specified interleaving of the sorted groups over the exact relevance closure |
| Priority.GroupsAreSorted | src/patchproof/investigation_tools.py:821-830 | each group is sorted by the observable priority key |
| Priority.GroupOrderMeans | src/patchproof/investigation_tools.py:821-830 | in a group public symbols come before private ones, then symbols in `__all__` before others, then smaller identities first |
| Priority.InterleavingPermutes | src/patchproof/investigation_tools.py:685-718 | the prioritized list is a permutation of the comparisons |
| Priority.UnrelatedComeLast | src/patchproof/investigation_tools.py:685-718 | after an unrelated comparison only unrelated ones follow |
| Priority.FairPrefix | src/patchproof/investigation_tools.py:706-718 | every prefix of length n holds the first min(size, n div 4) items of each high-signal group |
| Priority.CompareObservables | src/patchproof/investigation_tools.py:322-349 | the first `limit` prioritized comparisons are split by presence, in order, with nothing lost or duplicated; the flag is set exactly when more existed |
| Priority.TruncationIsFair | src/patchproof/investigation_tools.py:322-349 | truncation to `limit` keeps at least min(size, limit div 4) of each change kind |
| Toolbox.InvestigationToolbox.Invoke | src/patchproof/investigation_toolbox.py:173-230 | one tool call steps the object's whole state and answer as specified, refusals included |
| Toolbox.InvestigationToolbox.Serialize | src/patchproof/investigation_toolbox.py:335-392 | the loop hands out source greedily under the aggregate budget |
| Toolbox.ShownSpendsExactly | src/patchproof/investigation_toolbox.py:335-392 | the characters shown are exactly the minimum of what was asked and what remains, and no match is dropped or reordered |
| Toolbox.ShownCharacters | src/patchproof/investigation_toolbox.py:335-392 | the characters shown are the first ones of all the sources, as many as the budget permits |
| Toolbox.AnsweredExactly | src/patchproof/investigation_toolbox.py:173-230 | a call is answered exactly if it names a tool, neither budget is spent and the indexes accept it; otherwise the refusal says which, and the record says the same |
| Toolbox.CallKeepsBudgets | src/patchproof/investigation_toolbox.py:173-419 | every call keeps every budget, and the counters equal what the transcript says; sequence numbers are contiguous |
| Investigator.RunLoop | src/patchproof/claim_investigator.py:352-450 | the loop over the live toolbox computes the specified run, for every model |
| Investigator.ConcludesWithLastReply | src/patchproof/claim_investigator.py:388-450 | a run concludes with exactly what the last reply it asked for concludes with |
| Investigator.InvestigationIsBounded | src/patchproof/claim_investigator.py:334-450 | for every model at most max_turns + 1 model calls, all tool budgets kept, and at most min(4 * max_turns, max_total_calls + 3) records |
| Investigator.OverrunsExactly | src/patchproof/claim_investigator.py:352-450 | a run makes max_turns + 1 model calls if and only if the model investigates in each of the first max_turns turns and the records stay below max_total_calls after each but the last |
| Investigator.EveryBudgetOverruns | src/patchproof/claim_investigator.py:334-450 | every admissible budget has a model that makes max_turns + 1 model calls |
| Investigator.DiscoveredExactly | src/patchproof/claim_investigator.py:391-397 | an identity counts as discovered if and only if a tool call of some turn of this run was executed, recorded as answered, and returned it |
| Investigator.RefusedReturnsNothing | src/patchproof/investigation_toolbox.py:173-210 | a call refused for budget or an unknown tool returns no identity, whatever the indexes would have answered |
| Investigator.TranscriptFitsExactly | src/patchproof/claim_investigator.py:272-280 | every model's transcript validates if and only if max_total_calls is at most 13 or max_turns at most 4 |
| Grounding.TextIdentifies | src/patchproof/claim_investigation.py:149-151 | whatever path and name a model makes up, its text is that of an indexed symbol and its name has no colon exactly when it is that symbol |
| Grounding.FindCallers | src/patchproof/investigation_tools.py:385-402 | at most the asked number of matching calls, best first: a location is left out only when that many are returned and none of them sorts later |
| Grounding.CallersOf | src/patchproof/claim_investigation.py:492-512 | the enclosing symbols of HEAD calls that may target a symbol: all of them, unless there are as many places as the maximum |
| Grounding.CallRankMeans | src/patchproof/investigation_tools.py:832-900 | a call ranks by an import expansion that ends with the query, then by the query itself |
| Grounding.LeafCallsRankLast | src/patchproof/investigation_tools.py:832-900 | and last exactly if its name is the query's last part |
| Grounding.RankMeans | src/patchproof/claim_investigation.py:304-328 | private symbols rank last, exported ones first, and an excluded one as public only as a member of a visible parent |
| Grounding.Build | src/patchproof/claim_investigation.py:343-490 | every shared observable offered is on both revisions and changed, in the closure, or a traced caller of a HEAD-only symbol; the offer is sorted, and of the selected comparisons each that changed, is in the closure or calls a traced symbol is offered unless the offer is full of observables that sort no later; the first HEAD-only symbols are listed |
| Grounding.Admit | src/patchproof/claim_investigator.py:536-687 | an interface is admitted if and only if the starting context offers it, or a tool returned it, it is not HEAD-only, its name is a valid query, and the indexes, which give each path one module, show it shared and changed or in the closure |
| Grounding.SameComparisons | src/patchproof/investigation_tools.py:642-683 | the comparison list is uniquely determined by the two indexes |
| Grounding.SelectClaim | src/patchproof/claim_investigator.py:334-687 | for every model, tool history and pair of indexes, exactly the interface of the model's last reply is chosen, if and only if the context offers it or it is admissible; a chosen one is grounded, and if not offered was returned by an executed tool call of this run; it abstains exactly if the last reply does |
| BoundedOutput.BoundedCollector.Drain | src/patchproof/execution_runtime.py:130-144 | whatever the chunking, the collector ends with the batch head, tail and byte count of the stream |
| BoundedOutput.OneChunk | src/patchproof/execution_runtime.py:130-144 | absorbing one more chunk commutes with the batch definition |
| BoundedOutput.ChunkingIsIrrelevant | src/patchproof/execution_runtime.py:130-144 | two chunkings of the same bytes leave the collector with the same head, tail and count |
| BoundedOutput.WholeStreamWhenItFits | src/patchproof/execution_runtime.py:121-128 | head plus tail is the whole stream if and only if it fits the byte budget |
| BoundedOutput.RenderingFitsExactly | src/patchproof/execution_runtime.py:46-154 | rendered text stays within its budget if and only if the budget is larger than the marker |
| BoundedOutput.LongStreamKeepsEnds | src/patchproof/execution_runtime.py:146-154 | an overflowing stream keeps the beginning of its head and the end of its tail around the marker |
| BoundedOutput.LongTextKeepsEnds | src/patchproof/execution_runtime.py:46-55 | a text that is too long keeps its beginning and end around the marker |
| BoundedOutput.RunnerOutputFits | src/patchproof/execution_runtime.py:157-230 | the runner's collectors always render within its output budget |
| ContextFit.FitJsonBudget | src/patchproof/context_retrieval.py:1278-1295 | terminates for any serializer; stops at the first round that fits, fails only when the minimum context is too long, and otherwise returns the original with trailing parts dropped and flagged |
| ContextFit.RoundsKeepShape | src/patchproof/context_retrieval.py:1278-1295 | after any number of rounds snippets and files are prefixes and the diff is the original or an original prefix and exactly one marker |
| ContextFit.ShrinkMeans | src/patchproof/context_retrieval.py:1278-1295 | a round cuts a long diff by up to two thousand characters, then drops the last snippet, then the last file but one |
| ContextFit.TruncateAgain | src/patchproof/context_retrieval.py:1350-1355 | truncating an already marked prefix cuts the old marker off and leaves one marker |
| DiffBudget.BoundedDiff | src/patchproof/context_retrieval.py:936-962 | the loop computes the joined cut sections and the truncation flag |
| DiffBudget.ShownFollowsSections | src/patchproof/context_retrieval.py:936-962 | the parts shown are the non-empty sections in order, whole or cut, without gaps |
| DiffBudget.CutMeans | src/patchproof/context_retrieval.py:1350-1355 | a cut part is the section, a prefix of it and the marker, or the marker's start |
| DiffBudget.UnflaggedExactlyWhenWhole | src/patchproof/context_retrieval.py:936-962 | the truncation flag is clear if and only if every section fits whole with more than a marker of budget left, and then all are shown |
| DiffBudget.TotalIsKeptExactly | src/patchproof/context_retrieval.py:927-962 | for every header that sections start with, every pull request of at most `files` files stays within max_diff_chars if and only if the longest attainable diff does |
| DiffBudget.LongestAttained | src/patchproof/context_retrieval.py:927-962 | the stated longest length is attained by some pull request whose sections start with the header |
| DiffBudget.DefaultBudgetOverflows | src/patchproof/context_retrieval.py:251-253 | with the defaults and any header of at most 176 characters, some pull request's diff has 14 079 characters |
| NameStatus.ChangedFiles | src/patchproof/context_retrieval.py:893-925 | the token loop computes the specified parse, errors included |
| NameStatus.ParseInvertsPrint | src/patchproof/context_retrieval.py:893-925 | parsing inverts printing for every list of well-formed records, consuming every token |
| NameStatus.StatusMeans | src/patchproof/context_retrieval.py:1318-1327 | the status is decided by the first letter, each letter by one status |
| NameStatus.RecordMeans | src/patchproof/context_retrieval.py:1341-1347 | a record carries its path and status and says whether the path is Python and a test |
| NameStatus.SplitMeans | src/patchproof/context_retrieval.py:893-904 | splitting cuts at every separator and nowhere else |
| NameStatus.ParsedIsValid | src/patchproof/context_retrieval.py:905-925 | only valid paths are returned, with a previous one exactly for renames and copies |
| NameStatus.CutShortIsRejected | src/patchproof/context_retrieval.py:905-925 | output cut after any number of tokens is accepted if and only if the cut falls between two records |
| ProviderBudget.Invoke | src/patchproof/model_reliability.py:84-127 | the retry loop makes a second request exactly after a transient first failure, returns or raises what the last request did, and records the true attempt count |
| ProviderBudget.RunCandidates | src/patchproof/hard_mode.py:870-894 | the candidate and repair loop, with its assessment, computes the specified end of the case and provider count |
| ProviderBudget.RunCase | src/patchproof/hard_mode.py:1028-1169 | one case's call structure computes the specified terminal status and calls |
| ProviderBudget.InvestigatedCaseExactly | src/patchproof/hard_mode.py:1051-1057 | a case whose claim is investigated stays within ten requests for every provider and model if and only if the investigation budget has one turn |
| ProviderBudget.InvestigatedCaseIsBounded | src/patchproof/hard_mode.py:1028-1169 | a case whose claim is investigated makes at most max_turns + 9 requests |
| ProviderBudget.RunLive | src/patchproof/hard_mode.py:1244-1286 | the loop over the cases records every case, failing ones included, and continues |
| ProviderBudget.EveryCase | src/patchproof/hard_mode.py:1028-1169 | for every provider: one claim call, then at most three candidate calls, then at most one assessment, last; every request is accounted for by one call; the error record names the true stage and candidate count |
| ProviderBudget.StatusMeans | src/patchproof/hard_mode.py:1028-1169 | what every terminal status says about the set-up, the claim, the last judgement and the last reply |
| ProviderBudget.TenPerCase | src/patchproof/hard_mode.py:1178-1286 | a whole run makes at most ten provider requests a case |
| ProviderBudget.DerivedMaximumCoversExactly | src/patchproof/hard_mode.py:155-173 | the derived maximum bounds every run if and only if the protocol declares three candidate calls and the one retry |
| ProviderBudget.PreflightedRunIsFunded | src/patchproof/hard_mode.py:299-346 | a preflighted run stays within the declared capacity against every provider if and only if it declares the retry or the capacity covers ten requests a case |
| SealedRun.EveryInterleaving | tools/run_fresh_eval_v1.py:340-603 | every interleaving of PREPARE, RUN and SCORE processes with crashes keeps the harness invariant |
| SealedRun.EachCaseAtMostOnce | tools/run_fresh_eval_v1.py:443-603 | each declared case is started and executed at most once, in the declared order, and executed only after its start was journalled |
| SealedRun.StoredResultsArePrefix | tools/run_fresh_eval_v1.py:588-603 | stored results are always those of a prefix of the sealed cases |
| SealedOutcomes.OutcomesAreRecorded | tools/run_fresh_eval_v1.py:572-594 | after every interleaving stored result k, the k-th CASE_COMPLETED line and the scored results carry the outcome of the very step that executed case k |
| SealedOutcomes.UndisturbedEvaluationScores | tools/run_fresh_eval_v1.py:340-841 | PREPARE, RUN and SCORE, undisturbed, end with every declared case scored with the outcome its execution met |
| SealedRun.ScoresAreComplete | tools/run_fresh_eval_v1.py:783-841 | scores exist only for a complete run of the sealed document and list each case's stored result once, in order |
| SealedRun.SealIsFinal | tools/run_fresh_eval_v1.py:182-188 | after every history, the document a run was sealed on is that of every continuation |
| SealedRun.PublicChangesExactly | tools/run_fresh_eval_v1.py:348-407 | after the seal some continuation replaces the public document if and only if a PREPARE that passed its check before is in flight and a PREPARE may compute a different document |
| SealedRun.SameDocumentStays | tools/run_fresh_eval_v1.py:351-407 | if every PREPARE computes the same document, that is the one sealed and the public document stays it |
| SealedRun.ReplacementBlocksScoring | tools/run_fresh_eval_v1.py:783-811 | once the public document differs from the sealed one, with no PREPARE and no scorer of the sealed document in flight, no continuation ever scores |
| SealedRun.LatePrepareReplacesPublic | tools/run_fresh_eval_v1.py:348-406 | a history from the start in which a PREPARE replaces the public document after the seal |

## Left out

- Publication.AtMostOneCheck: assumes serial attempts of one run, because the code does not serialize publishers of the
  same run; a POST the client abandoned that takes effect only after the next listing is not covered either.
- EvidenceWorkflow.Execute: computes the report; the phase transitions and supersession checks between the model calls
  are left out. They only advance the run's phase or raise; what a completed run records is `Completion`'s subject.
- SealedRun.ScoresAreComplete: hidden labels and classification of results are data, so a score is the list of results.
- SealedRun.PublicChangesExactly: what PREPARE computes is an arbitrary set of documents, because retrieval from pinned
  commits is not modelled.
- Relevance.RelevanceIdentities: the result is a set; the sorted tuple the code returns from it is not modelled.
- BoundedOutput.BoundedCollector.Text: decodes head and tail separately for an arbitrary decoder, as the code does; that
  a character split between them decodes differently is not analysed.
- DiffBudget.BoundedDiff: takes the per-file diffs in priority order; the sort of the files and git itself are inputs.
- The prose of checks and reports, Markdown, JSON serialization and pydantic field bounds: presentation and single-branch
  validation.
- Model adapters, prompts, git worktrees, subprocesses, dependency installation, HTTP routes, tokens, dashboard, CLI.
- Python AST and regular expressions: symbols, references, import expansions and which names are dotted identifiers are
  inputs.
- `find_references`, `find_related_tests` and `inspect_source_window` queries: their answers are arbitrary tool answers.
- `list_runs` and `list_recent_runs` queries, summary counting, install plans and benchmark data: easy members only.
