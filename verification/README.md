# Audit engine verification

RemedyGraph compiles the corrective actions of an incident into requirements and checks, retrieves and
checks evidence in a repository, gives each action a conservative verdict, builds an evidence graph and
stores every stage as one validated snapshot. This project models that engine and proves what its
stages, its store and its bounded resources promise.

The files follow the program. `Contracts` holds the record types; `Compiler`, `Checks`, `Verifier` and
`EvidenceGraph` are the components of a run; `Snapshot` is the validator and `Database` the tables with
their keys, foreign keys and statements. `Pipeline` gives the stages as functions, `Engine` the workflow
nodes with everything that can go wrong around them, and `Workflow` the class that runs them against the
store in `Storage`. `PipelineValidity`, `PipelineVerdicts`, `Runs`, `Completion`, `RunPrefix` and `Endings`
prove what holds of every run; `Persistence`, `IncidentTables` and `Reloading` what holds of the store.
`Budget`, `BudgetProtocol` and `Services` cover model calls, `GuardTables`, `Guards`, `GuardService` and
`Previews` the guard lifecycle with `FailedWrites`, `Text` and `Chunking` the chunker, and `Ranking`,
`Indexing`, `Retrieval` and `RepositoryWalk` the repository index. `LoadOrder` is about the order in which
actions load, and `Marking` about storing a loaded snapshot with one more event.

Assumptions that the theorems state:

- A derived identifier is a constructor of its kind applied to its parts, so it is injective and tagged;
  a content hash is likewise the content itself.
- A run starts on an incident with distinct actions and a budget that can be built
  (`Services.StartingBudgetIff`); that its snapshots pass the validator needs no more. That they are stored
  also needs kind-tagged incident and action identifiers, as `IncidentService.create` makes them
  (`Services.CreatedIncidentStarts`), and that no other writer changes the incident or the run meanwhile.
- The database compares identifier texts by one fixed order, the parameter `position`.
- Incidents, projects and retrieved chunks, the matches of the text patterns, scans, provider answers,
  failures of storage, processes and files are arbitrary parameters of the theorems.

Some promises hold only under a condition, which is proved exact. A stored run with a graph reloads after
its incident was stored again if and only if no action identifier was added or removed
(`Reloading.ReloadIff`). A chunk respects the limit but for one overlong line or an empty line followed by
a line that fills it (`Chunking.GreedySizes`, with `Chunking.EmptyLineDefeatsLimit` as the example). The
unique key on record identifiers is stricter than the validator; it is safe with kind-tagged identifiers
and only then in general (`Persistence.SaveOutcome`, `Reloading.UntaggedIdsTripSchema`). A failed artifact
write restores the earlier store if and only if taking the approval back does not fail as well
(`FailedWrites.FailedWrite`, with `FailedWrites.FailingRestoreKeepsApproval` as the example). A failing run
marks its own last snapshot unless it committed nothing under an identifier already in use; then it marks
the earlier run's (`Endings.FailedRunKeepsLast`, `Endings.ReusedRunMarksEarlier`). A preview cut off half-way
is never completed (`Previews.CutPreviewSticks`).

## Model

| member | source | states |
|---|---|---|
| `Runs.NoSnapshotRefused` | backend/app/audit/workflow.py:123-360 | no snapshot that any stage of a run stores, mid-loop ones included, is ever refused by the validator or the schema, whatever retrieval and the checks answer |
| `Runs.EverySnapshotFits` | backend/app/audit/workflow.py:123-360 | every snapshot of every run over distinct actions passes the validator, numbers its events and derives kind-tagged identifiers |
| `Runs.SavedTwice` | backend/app/storage.py:446-544 | storing a later snapshot of a run leaves exactly what storing it alone would: stages are never mixed |
| `Runs.FitIsStored` | backend/app/storage.py:446-544 | an accepted snapshot commits and leaves a store that can take the next one of the run |
| `PipelineValidity.CompiledRequirements` | backend/app/audit/workflow.py:139-152 | compiled requirements are distinct and belong to the run's actions |
| `PipelineValidity.CompiledSpecs` | backend/app/audit/workflow.py:139-152 | compiled specifications are distinct and belong to compiled requirements |
| `PipelineValidity.RoundReserved` | backend/app/audit/workflow.py:196-200 | the round a search reserves is the requirement's first and is always available |
| `PipelineValidity.TurnEvidence` | backend/app/audit/workflow.py:208-238 | evidence collected by retrieval never repeats an identifier, although it is appended across requirements |
| `PipelineValidity.TurnsSound` | backend/app/audit/workflow.py:188-238 | after any number of requirements exactly the searched ones have used one round, and all evidence is owned by its requirement |
| `PipelineValidity.TurnSnapshotsSound` | backend/app/audit/workflow.py:200-207 | each snapshot stored inside the retrieval loop is consistent |
| `PipelineValidity.TurnSnapshotCount` | backend/app/audit/workflow.py:188-207 | one snapshot is stored inside the loop for each requirement with a supported specification |
| `PipelineValidity.RetrieveSound` | backend/app/audit/workflow.py:154-253 | the snapshot after retrieval is consistent and accounts for its rounds and events |
| `PipelineValidity.RetrievedOnly` | backend/app/audit/workflow.py:221-241 | retrieval keeps each record once, and only as supporting context |
| `PipelineValidity.ExecutionSound` | backend/app/audit/workflow.py:267-275 | what a check reports belongs to its specification, requirement, action and run |
| `PipelineValidity.CitedIsKept` | backend/app/audit/workflow.py:274-276 | evidence a result cites survives de-duplication and is about the result's requirement |
| `PipelineValidity.InvestigateSound` | backend/app/audit/workflow.py:255-290 | the snapshot after the checks is consistent |
| `PipelineValidity.VerdictOwned` | backend/app/audit/workflow.py:292-305 | a verdict lists only its action's requirements and cites only its action's evidence, verbatim |
| `PipelineValidity.VerifySound` | backend/app/audit/workflow.py:292-323 | the snapshot with verdicts is consistent |
| `PipelineValidity.RecordsOwnersKnown` | backend/app/audit/workflow.py:325-335 | every record of a consistent snapshot has its owner in it, so building the graph never misses one |
| `PipelineValidity.GraphAccepted` | backend/app/audit/workflow.py:325-344 | the graph built for a consistent snapshot validates |
| `PipelineVerdicts.VerdictMeaning` | backend/app/audit/verifier.py:74-107 | on a run's records a verdict is VERIFIED iff all its checks passed; MISSING iff a required check failed or found nothing, or was unassessable with no test found; UNVERIFIABLE iff none was assessable; PARTIAL otherwise |
| `PipelineVerdicts.VerdictsDecided` | backend/app/audit/workflow.py:292-305 | verdicts depend on check outcomes alone; retrieved and de-duplicated evidence never changes them |
| `PipelineVerdicts.SingleDecides` | backend/app/audit/verifier.py:74-107 | the verdict over a single check follows from its outcome |
| `PipelineVerdicts.PairDecides` | backend/app/audit/verifier.py:74-107 | the verdict over a required check and a regression check follows from their outcomes |
| `PipelineVerdicts.RunLooksNamed` | backend/app/audit/checks.py:46-360 | the identifier of a check's evidence determines its kind and role |
| `PipelineVerdicts.CollectedSameLook` | backend/app/audit/workflow.py:264-276 | records of a run that share an identifier look the same to a verdict |
| `PipelineVerdicts.ActionResultsOwn` | backend/app/audit/verifier.py:38-40 | the results that count for an action are exactly those of its own specifications |
| `Completion.CompleteRun` | backend/app/audit/workflow.py:292-360 | at completion: one verdict per action in order, counts adding up to the actions, one check and result per specification, one round for exactly the supported requirements, events numbered 0 to 11 + s |
| `Completion.FinalVerdicts` | backend/app/audit/workflow.py:292-305 | verdicts stand in action order and are each decided by their action's outcomes |
| `Completion.SameActionsSameCount` | backend/app/storage.py:563-567 | two lists of the same distinct actions are equally long, so the total of the initial state is right |
| `RunPrefix.RunCommitsPrefix` | backend/app/audit/workflow.py:68-121 | whatever raises or is cut off, a run commits a prefix of its snapshots in order, the store holds exactly the last one, and the run succeeds iff all of them were committed |
| `Endings.QuietRunCompletes` | backend/app/audit/workflow.py:90-93 | a run without outside failures completes and leaves its last snapshot |
| `Endings.FailedRunKeepsLast` | backend/app/audit/workflow.py:94-121 | a failing run ends FAILED in its last committed snapshot, unless storing that failure is cut off too, when the store keeps that snapshot; a run that committed nothing ends so in what the store holds under its identifier, or in its initial state |
| `Endings.ReusedRunMarksEarlier` | backend/app/audit/workflow.py:69-121 | a run under an identifier in use whose first save fails marks the earlier run's snapshot; that is stored iff nothing cuts it off, no guard pins the run and neither its node records nor the new event number repeat |
| `Endings.FailureChangesMarks` | backend/app/audit/workflow.py:105-119 | the failure record differs from that snapshot in status, code, the incident counter's two fields and one more event only |
| `Endings.FailureFits` | backend/app/audit/workflow.py:105-120 | the failure record is accepted like any other snapshot of the run |
| `Endings.HandlerLoadsLast` | backend/app/audit/workflow.py:95-95 | the failure handler starts from the last committed snapshot; with none committed, from what the store holds under the identifier, and from the initial state for an unused one |
| `Marking.MarkedIsStoredIff` | backend/app/storage.py:446-544 | a loaded snapshot with one more event is stored iff nothing cuts it off, no guard pins its run, and neither its node records nor the number of the new event repeat |
| `RunPrefix.RetrieveFollows` | backend/app/audit/workflow.py:188-253 | stopping anywhere in the retrieval loop leaves a prefix of its snapshots committed |
| `Workflow.AuditWorkflow.Run` | backend/app/audit/workflow.py:68-121 | a run does what its nodes do in order and what the failure handler does; a budget that cannot be built raises before anything is stored |
| `Workflow.AuditWorkflow.Save` | backend/app/audit/workflow.py:136-136 | storing a snapshot either commits it to the run's log or raises the mapped failure |
| `Workflow.AuditWorkflow.LoadIncidentActions` | backend/app/audit/workflow.py:123-137 | the first node loads the stored actions or raises as the lookups say |
| `Workflow.AuditWorkflow.CompileInvariants` | backend/app/audit/workflow.py:139-152 | the second node stores what the compiler returns |
| `Workflow.AuditWorkflow.RetrieveCandidates` | backend/app/audit/workflow.py:154-253 | the third node looks the project up, builds the index and searches, or raises as these do |
| `Workflow.AuditWorkflow.SearchRequirements` | backend/app/audit/workflow.py:188-253 | the loop reserves, stores and searches requirement by requirement, as the step function says |
| `Workflow.AuditWorkflow.InvestigateChecks` | backend/app/audit/workflow.py:255-290 | every specification is checked, counted and recorded, or the first raising check ends the node |
| `Workflow.AuditWorkflow.AssignVerdicts` | backend/app/audit/workflow.py:292-323 | the verdict of each action, their counts and the coverage are stored |
| `Workflow.AuditWorkflow.BuildEvidenceGraph` | backend/app/audit/workflow.py:325-344 | the graph is stored exactly when it validates |
| `Workflow.AuditWorkflow.PersistCompletion` | backend/app/audit/workflow.py:346-360 | the last node marks the run complete |
| `Workflow.AuditWorkflow.Fail` | backend/app/audit/workflow.py:94-121 | the handler loads, marks and stores, and raises only when one of these fails |
| `Workflow.RunChecks` | backend/app/audit/workflow.py:265-275 | the check loop yields the evidence, results and count of all checks up to the first that raises |
| `Workflow.VerifyActions` | backend/app/audit/workflow.py:294-305 | the verdict loop yields one verdict per action, in order |
| `Compiler.SpecShape` | backend/app/audit/compiler.py:62-216 | an action gets one required check, and a second exactly when it is a non-core regression check; both are named by the requirement |
| `Compiler.Compile` | backend/app/audit/compiler.py:148-155 | the loop compiles the actions in order |
| `Compiler.CompiledSpecsDistinct` | backend/app/audit/compiler.py:148-155 | distinct actions give distinct specifications |
| `Compiler.RequirementsDistinct` | backend/app/audit/compiler.py:148-155 | distinct actions give one distinct requirement each, in order |
| `Compiler.SpecOwner` | backend/app/audit/compiler.py:148-155 | every compiled specification belongs to an action of the list |
| `Checks.ExecutionsWellReported` | backend/app/audit/checks.py:46-360 | whatever a scan finds, the outcome agrees with its flag and explains its evidence: a pass supports in kind, a failure contradicts, an unassessed check shows only gaps |
| `Checks.GuardedReported` | backend/app/audit/checks.py:70-82 | a check reports an error without evidence exactly when its scan raises or cites a bad line range, and is unchanged otherwise |
| `Checks.ConfigurationExplained` | backend/app/audit/checks.py:85-156 | a configuration check passes only with satisfied values and fails only with a contradicting one |
| `Checks.StaticCodeReported` | backend/app/audit/checks.py:228-298 | a code check passes iff every term was found, and then its evidence locates each term |
| `Checks.TestProtectionReported` | backend/app/audit/checks.py:300-360 | a regression check passes only on located tests |
| `Verifier.VerifyAction` | backend/app/audit/verifier.py:29-122 | the verdict record is the specified one |
| `Verifier.Decide` | backend/app/audit/verifier.py:74-110 | the branches choose the verdict and list the missing proofs as specified |
| `Verifier.Cite` | backend/app/audit/verifier.py:136-148 | the citation loop cites as specified |
| `Verifier.CitationsSound` | backend/app/audit/verifier.py:136-148 | only supporting and contradicting evidence is cited |
| `Verifier.CitationsComplete` | backend/app/audit/verifier.py:136-148 | every supporting or contradicting identifier is cited |
| `Verifier.CitationsDistinct` | backend/app/audit/verifier.py:136-148 | no identifier is cited twice |
| `Verifier.VerdictTraceable` | backend/app/audit/contracts.py:248-251 | every verdict cites evidence or says what is missing |
| `Verifier.FailureIsFinal` | backend/app/audit/verifier.py:74-79 | a failing required check makes its action MISSING whatever the evidence |
| `Verifier.DeduplicateMembers` | backend/app/audit/workflow.py:276-276 | de-duplication keeps exactly one record of each identifier |
| `Verifier.DeduplicationKeepsVerdict` | backend/app/audit/workflow.py:276-276 | de-duplicating evidence never changes a verdict |
| `Verifier.Coverage` | backend/app/audit/verifier.py:124-134 | coverage lies between 0 and 100 |
| `EvidenceGraph.Validate` | backend/app/audit/graph.py:102-212 | the validator accepts exactly the graphs that match the records |
| `EvidenceGraph.ValidateNodes` | backend/app/audit/graph.py:115-144 | the node checks accept exactly unique nodes of the run |
| `EvidenceGraph.ValidateEdges` | backend/app/audit/graph.py:146-165 | the edge checks accept exactly unique edges between known nodes of the run |
| `EvidenceGraph.Build` | backend/app/audit/graph.py:21-100 | building returns the graph of the records exactly when it validates |
| `EvidenceGraph.AddItems` | backend/app/audit/graph.py:59-87 | each kind of record adds its node and the edge from its owner |
| `EvidenceGraph.BuiltGraphAccepted` | backend/app/audit/graph.py:21-100 | the built graph of distinct, owned records is accepted |
| `EvidenceGraph.RecordsBuild` | backend/app/audit/graph.py:21-100 | records with distinct identifiers and known owners always build |
| `EvidenceGraph.AcceptedGraphIsTree` | backend/app/audit/graph.py:102-212 | an accepted graph has one edge fewer than nodes, and exactly one edge into every node but the incident |
| `EvidenceGraph.AcceptedGraphDepth` | backend/app/audit/graph.py:102-212 | every node of an accepted graph is reached from the incident in at most three edges |
| `EvidenceGraph.OneIncomingEdge` | backend/app/audit/graph.py:146-212 | two edges of an accepted graph never share a target |
| `EvidenceGraph.LevelsAreReached` | backend/app/audit/graph.py:167-212 | a record lies as many edges from the incident as its kind says |
| `EvidenceGraph.EdgesComeFromOwners` | backend/app/audit/graph.py:167-212 | the edge into a record comes from its owner and has the record's relation |
| `EvidenceGraph.AcceptedGraphsAgree` | backend/app/audit/graph.py:102-212 | two accepted graphs over the same records differ only in identifiers, labels and order |
| `EvidenceGraph.AcceptsIgnoresOrder` | backend/app/audit/graph.py:102-212 | acceptance does not depend on the order of the records |
| `Persistence.SaveOutcome` | backend/app/storage.py:446-544 | a valid snapshot of an unguarded run trips no key and no immediate foreign key at any statement, but for node record identifiers that repeat |
| `Persistence.TaggedSnapshotSaves` | backend/app/storage.py:446-544 | with kind-tagged identifiers a valid snapshot always commits |
| `Persistence.TaggedNodesApart` | backend/app/storage.py:200-204 | kind-tagged identifiers never repeat a record identifier among the nodes |
| `Persistence.DeleteSucceeds` | backend/app/storage.py:465-478 | emptying a table succeeds once the tables referring to it are empty |
| `Persistence.AllDeletionsSucceed` | backend/app/storage.py:465-478 | the deletion order passes every foreign key and leaves the other runs' rows |
| `Persistence.InsertSegment` | backend/app/storage.py:479-540 | records whose references hold are inserted exactly when no key repeats |
| `Persistence.InsertFrom` | backend/app/storage.py:479-540 | the insertion order satisfies every foreign key, table by table |
| `Persistence.GuardBlocksSave` | backend/app/storage.py:221-227 | a guard makes every save of its run fail |
| `Persistence.SaveKeepsIntegrity` | backend/app/storage.py:446-544 | a committed snapshot leaves every key and foreign key intact |
| `Persistence.LoadSaved` | backend/app/storage.py:826-861 | loading returns the stored snapshot: exactly its actions by (order, id), events in sequence order, the two model-call fields from the incident's counter |
| `Persistence.LoadUntouched` | backend/app/storage.py:446-544 | storing one run changes nothing that loading another returns |
| `Persistence.SortEventsSorts` | backend/app/storage.py:684-685 | loaded events are the stored ones in sequence order |
| `Persistence.ActionsOfMembers` | backend/app/storage.py:343-355 | an incident loads exactly its own actions |
| `Persistence.ActionsOfSorted` | backend/app/storage.py:350-352 | and loads them by order, equal orders by identifier text |
| `LoadOrder.LoadOrderIsCanonical` | backend/app/storage.py:350-352 | a set of actions has one loading order |
| `LoadOrder.LoadIgnoresRowOrder` | backend/app/storage.py:350-352 | the loaded actions do not depend on the order of the rows |
| `LoadOrder.NumberedLoad` | backend/app/storage.py:350-352 | actions numbered in their order load back in exactly that order |
| `IncidentTables.SavedIncidentMembers` | backend/app/storage.py:314-341 | a stored incident has exactly the listed actions, and other incidents keep theirs |
| `IncidentTables.SaveIncidentKeepsIntegrity` | backend/app/storage.py:314-341 | storing an incident keeps every key and foreign key |
| `Reloading.ReloadIff` | backend/app/storage.py:848-860 | a stored run with a graph still loads after its incident was stored again iff no action identifier was added or removed |
| `Reloading.UntaggedIdsTripSchema` | backend/app/storage.py:200-204 | without kind-tagged identifiers a validated snapshot can trip the unique key on record identifiers |
| `Storage.SqliteStore.constructor` | backend/app/storage.py:58-72 | a new store is empty and consistent |
| `Storage.SqliteStore.SaveAuditState` | backend/app/storage.py:446-544 | the transaction commits whole or rolls back, with a failure at any statement |
| `Storage.SqliteStore.RunScript` | backend/app/storage.py:446-544 | the loop over the statements runs all of them and the commit, or restores the store |
| `Storage.SqliteStore.ReserveIncidentModelCall` | backend/app/storage.py:368-416 | a reservation charges the counter or changes nothing |
| `Storage.SqliteStore.SaveIncident` | backend/app/storage.py:314-341 | an incident with its actions is stored whole or not at all |
| `Storage.SqliteStore.SaveGuard` | backend/app/storage.py:694-712 | a preview is stored exactly when it is grounded and its keys hold |
| `Storage.SqliteStore.RecordGuardDecision` | backend/app/storage.py:729-751 | a decision is recorded once, or nothing changes |
| `Storage.SqliteStore.RestoreGuardPreview` | backend/app/storage.py:753-762 | the decision of a failed write is taken back |
| `Storage.SqliteStore.SaveGuardExecution` | backend/app/storage.py:771-795 | an execution is recorded only for an approved, unchanged artifact |
| `Storage.SaveIsAtomic` | backend/app/storage.py:446-544 | anything but success leaves the store as it was |
| `Storage.SaveSucceedsIff` | backend/app/storage.py:446-544 | a snapshot commits iff it is valid, its run has no guard and its nodes repeat no record identifier |
| `Storage.StoredSnapshotLoads` | backend/app/storage.py:446-544 | a committed snapshot is what loading returns, with its actions in load order, and other runs load as before |
| `Budget.BudgetTracker.constructor` | backend/app/audit/budget.py:41-43 | a tracker starts on the given usage |
| `Budget.BudgetTracker.ConsumeModelCall` | backend/app/audit/budget.py:45-51 | a call is counted, or refused at the limit |
| `Budget.BudgetTracker.ConsumeInvestigationRound` | backend/app/audit/budget.py:53-63 | a round is counted for its requirement, or refused at the limit |
| `Budget.BudgetTracker.RecordCheck` | backend/app/audit/budget.py:65-69 | a check is counted |
| `Budget.ReserveCounts` | backend/app/storage.py:388-410 | a reservation adds one call, never raises the limit and keeps used within it |
| `Budget.ReserveIff` | backend/app/storage.py:394-398 | a reservation succeeds iff calls remain under every limit in force |
| `Budget.MigrateCounters` | backend/app/storage.py:250-274 | the migration loop gives every incident with runs the saturated sum and the least limit, used within the limit |
| `Budget.MigrationIgnoresOrder` | backend/app/storage.py:250-274 | the migrated counter does not depend on row order |
| `BudgetProtocol.CallsNeverExceedBudget` | backend/app/storage.py:368-416 | under any interleaving and crashes: calls started <= committed reservations, which return the next numbers once each in order, and used <= limit <= 6 |
| `BudgetProtocol.CounterAdvances` | backend/app/storage.py:368-416 | used never falls and the limit never rises |
| `BudgetProtocol.Serializable` | backend/app/storage.py:374-410 | interleaved reservations leave the counter, and return the numbers, of the committed ones made one after another in commit order |
| `BudgetProtocol.StepKeepsInv` | backend/app/storage.py:374-410 | every step of every worker keeps the write reservation exclusive and the counter consistent |
| `BudgetProtocol.RunKeepsInv` | backend/app/storage.py:374-410 | so does every interleaving |
| `Services.IncidentService.Create` | backend/app/services.py:65-106 | an incident is made known, charged, extracted and stored in this order |
| `Services.CreateChargesCalls` | backend/app/services.py:86-92 | the provider was called exactly when the incident was charged one more call within its limit |
| `Services.CreatedIncidentLoads` | backend/app/services.py:93-106 | a created incident loads its actions back in the order of extraction |
| `Services.CreatedIncidentStarts` | backend/app/services.py:93-106 | a created incident can be audited: a fresh run on it can start and store every snapshot |
| `Services.StartingBudgetIff` | backend/app/audit/workflow.py:72-81 | a run can build its budget iff the calls used are within the configured limit and both limits are positive |
| `Services.BoundedProviderGateway.Generate` | backend/app/audit/budget.py:93-124 | the gateway loads, reserves, stores and only then calls |
| `Services.GatewayChargesCalls` | backend/app/audit/budget.py:93-124 | the gateway calls only after a committed charge; a failed save costs a call but never starts one |
| `Services.GatewayCallsIff` | backend/app/audit/budget.py:93-124 | the gateway calls the provider iff a call is left under every limit, nothing cuts off a transaction, no guard pins the run, and neither its node records nor the new event number repeat |
| `Services.WorkflowRunCallsIff` | backend/app/audit/budget.py:93-124 | for a snapshot as the workflow stores it, without guard and fault, only a spent limit stops a call |
| `Guards.LifecycleHolds` | backend/app/guards/service.py:38-136 | over all sequences of previews, decisions, executions, edits and saves of snapshots and incidents with any failures: decided iff one decision row with the matching choice, executions approved and run on the unchanged preview, and nothing recorded taken back |
| `Guards.RejectedIsAbsorbing` | backend/app/guards/service.py:81-86 | a rejected guard never changes and is never run |
| `Guards.FailedWriteRestores` | backend/app/storage.py:753-762 | taking back a recorded approval, when that succeeds, gives the exact earlier store |
| `FailedWrites.FailedWrite` | backend/app/guards/service.py:92-97 | when writing the artifact of a recorded approval fails, the request raises and the earlier store is restored iff taking the approval back does not fail too; else the approval and the status WRITTEN stay |
| `FailedWrites.FailingRestoreKeepsApproval` | backend/app/guards/service.py:92-97 | a store and a request for which the approval of a failed write stays |
| `FailedWrites.UnwrittenApprovalIsStuck` | backend/app/guards/service.py:60-136 | an approval that stayed cannot be decided again, and its guard runs only if the failed write left the whole preview |
| `Guards.GuardedRunIsPinned` | backend/app/storage.py:805-824 | once a guard exists its run's snapshot is never replaced, and the guard keeps its requirement and open verdict |
| `Guards.ExecuteStores` | backend/app/guards/service.py:100-136 | an execution is stored only for an approved guard whose artifact still is its preview |
| `Guards.DecideStores` | backend/app/guards/service.py:60-98 | a decision leaves nothing new, or exactly its row and status |
| `Guards.PreviewStepSound` | backend/app/guards/service.py:38-53 | previewing, also when cut off half-way, decides nothing and touches no other run's guards |
| `Guards.GeneratedFresh` | backend/app/guards/generator.py:26-75 | generated previews are undecided and named by their run, action and requirement |
| `Guards.StepSound` | backend/app/guards/service.py:38-136 | every single operation keeps all guards sound and only advances them |
| `Previews.CompleteAuditPreviews` | backend/app/guards/service.py:50-53 | previewing a complete audit with one verdict per action is never refused |
| `Previews.CutPreviewSticks` | backend/app/guards/service.py:47-53 | a preview cut off after k > 0 saves leaves exactly the first k guards, and every later preview returns these and changes nothing |
| `GuardService.GuardService.constructor` | backend/app/guards/service.py:24-36 | a service starts without artifacts |
| `GuardService.GuardService.Preview` | backend/app/guards/service.py:38-53 | existing previews are returned, new ones stored one by one |
| `GuardService.GuardService.Decide` | backend/app/guards/service.py:60-98 | a decision is checked, recorded, and compensated when the artifact cannot be written |
| `GuardService.GuardService.Execute` | backend/app/guards/service.py:100-136 | an execution is checked, run and recorded |
| `GuardTables.SaveGuardKeepsIntegrity` | backend/app/storage.py:694-712 | storing a preview keeps every key and touches only the guard tables |
| `GuardTables.DecisionKeepsIntegrity` | backend/app/storage.py:729-751 | so does recording a decision |
| `GuardTables.RestoreKeepsIntegrity` | backend/app/storage.py:753-762 | so does taking one back |
| `GuardTables.ExecutionKeepsIntegrity` | backend/app/storage.py:771-795 | so does recording an execution |
| `Chunking.GreedyIsOptimal` | backend/app/rag/chunking.py:46-88 | no split of a span's kept lines into contiguous pieces within the limit uses fewer pieces than the chunker |
| `Chunking.NextCutIsLargest` | backend/app/rag/chunking.py:53-62 | each cut is the longest that fits, and anything longer does not |
| `Chunking.GreedyStaysAhead` | backend/app/rag/chunking.py:46-88 | greedy cutting never falls behind any bounded split |
| `Chunking.GreedySizes` | backend/app/rag/chunking.py:53-88 | a chunk exceeds the limit iff it is one overlong line, or an empty line with one line that fills the limit |
| `Chunking.EmptyLineDefeatsLimit` | backend/app/rag/chunking.py:57-57 | a concrete chunk that exceeds the limit through the skipped size test |
| `Chunking.BoundedChunks` | backend/app/rag/chunking.py:46-88 | the nested loops compute the greedy pieces and terminate |
| `Chunking.TakeLines` | backend/app/rag/chunking.py:53-64 | the inner loop stops at the greedy cut |
| `Chunking.HeadingSpansPartition` | backend/app/rag/chunking.py:90-103 | heading spans partition the lines 1 to n, and each heading starts one |
| `Chunking.RunsAreMaximal` | backend/app/rag/chunking.py:105-117 | collected spans are maximal runs of kept lines |
| `Chunking.RunsCover` | backend/app/rag/chunking.py:105-117 | every kept line lies in a collected span |
| `Chunking.CollectRuns` | backend/app/rag/chunking.py:105-117 | the loop collects those runs |
| `Chunking.SortSpansSorts` | backend/app/rag/chunking.py:154-154 | sorting spans orders and permutes them |
| `Chunking.SpansCoverDocument` | backend/app/rag/chunking.py:30-36 | every line with text lies in a span, whatever the language |
| `Chunking.NoLineLost` | backend/app/rag/chunking.py:30-44 | every non-blank line lies in some chunk, and each chunk quotes the document's lines exactly |
| `Chunking.ComputeSpans` | backend/app/rag/chunking.py:30-36 | the spans are chosen by language as specified |
| `Chunking.ChunkSpan` | backend/app/rag/chunking.py:37-44 | blank spans give no chunk, others their pieces |
| `Chunking.ChunkDocument` | backend/app/rag/chunking.py:30-44 | chunking a document yields the specified chunks |
| `Text.SplitJoin` | backend/app/rag/chunking.py:40-49 | joining lines and splitting again drops at most one final empty line |
| `Text.JoinNonBlank` | backend/app/rag/chunking.py:40-43 | a line with text survives joining and splitting |
| `Retrieval.Merge` | backend/app/rag/retrieval.py:87-153 | every identifier of the two lists is merged once, in the canonical order |
| `Retrieval.CollectSources` | backend/app/rag/retrieval.py:95-99 | the dictionary holds exactly the identifiers of both lists, with their ranks |
| `Ranking.RankingIsCanonical` | backend/app/rag/retrieval.py:152-152 | the order by (-score, id) is the only one, whatever the dictionary order |
| `Ranking.Rank` | backend/app/rag/retrieval.py:152-152 | sorting yields that order |
| `Ranking.TopIsCanonical` | backend/app/rag/retrieval.py:63-63 | the best k of a set by (-score, id) are one sequence |
| `Retrieval.RerankLeadDecides` | backend/app/rag/retrieval.py:111-151 | a rerank lead above 2/61 always decides the order |
| `Retrieval.SmallLeadCanLose` | backend/app/rag/retrieval.py:111-151 | a smaller lead can lose |
| `Retrieval.BetterRankNeverMovesDown` | backend/app/rag/retrieval.py:111-152 | a better rank in either list never moves a candidate down |
| `Retrieval.BetterScoreNeverMovesDown` | backend/app/rag/retrieval.py:152-152 | a better score never moves a candidate down |
| `Retrieval.HybridRetriever.constructor` | backend/app/rag/retrieval.py:42-51 | a retriever searches the two given indexes |
| `Retrieval.HybridRetriever.Search` | backend/app/rag/retrieval.py:53-85 | a search returns the best top_k, by (-score, id), of the union of the best full-text matches and the best vectors, each with its ranks and score; over agreeing indexes exactly min(top_k, indexed chunks); it raises iff top_k is out of range or the query vector is malformed |
| `Retrieval.HybridResultIsCanonical` | backend/app/rag/retrieval.py:53-85 | these conditions determine the result: no order of rows, vectors or dictionaries shows |
| `Retrieval.SearchIsFull` | backend/app/rag/retrieval.py:59-63 | over agreeing indexes the pools never hold fewer chunks than a search may return |
| `Indexing.RepositoryIndexer.BuildAll` | backend/app/rag/pipeline.py:25-40 | after any sequence of builds failing anywhere, chunk rows, full-text rows (one each), semantic chunks and vectors are exactly those of the last build that succeeded, or unchanged when none did |
| `Indexing.RepositoryIndexer.Build` | backend/app/rag/pipeline.py:25-40 | a build that fails anywhere changes neither index; one that succeeds leaves exactly its chunks in both, each vector the encoding of the chunk stored with it |
| `Indexing.RepositoryIndexer.constructor` | backend/app/rag/pipeline.py:13-23 | empty indexes agree |
| `Indexing.LexicalIndex.constructor` | backend/app/rag/index.py:21-25 | a new lexical index is empty |
| `Indexing.LexicalIndex.Replace` | backend/app/rag/index.py:60-66 | replacing commits whole or rolls back, with a failure at any statement, the two deletions included |
| `Indexing.LexicalIndex.Index` | backend/app/rag/index.py:56-58 | adding is transactional |
| `Indexing.LexicalIndex.IndexChunks` | backend/app/rag/index.py:68-96 | the loop upserts the rows in order |
| `Indexing.LexicalIndex.IndexChunk` | backend/app/rag/index.py:70-96 | one chunk replaces its rows in both tables |
| `Indexing.LexicalIndex.Search` | backend/app/rag/index.py:98-124 | the best matching chunks, at most the limit and 1000 |
| `Indexing.SemanticIndex.constructor` | backend/app/rag/embeddings.py:109-112 | a new semantic index is empty |
| `Indexing.SemanticIndex.PrepareSnapshot` | backend/app/rag/embeddings.py:124-137 | preparing changes nothing, refuses wrong counts and dimensions, and pairs each kept chunk with its own encoding |
| `Indexing.SemanticIndex.InstallSnapshot` | backend/app/rag/embeddings.py:139-143 | installing swaps the whole snapshot |
| `Indexing.SemanticIndex.Search` | backend/app/rag/embeddings.py:145-166 | the chunks with the greatest products, or an error iff the query vector is malformed |
| `RepositoryWalk.WalkStaysWithinLimits` | backend/app/rag/safety.py:241-265 | kept bytes are the sum of the kept sizes and stay within the limits, as do the files |
| `RepositoryWalk.EveryEntryCounted` | backend/app/rag/safety.py:204-266 | every considered entry is kept, skipped or descended into, exactly once |
| `RepositoryWalk.WalkIsMaximal` | backend/app/rag/safety.py:241-265 | no file skipped for bytes or count could be added to the result |
| `RepositoryWalk.WalkReport.constructor` | backend/app/rag/safety.py:33-36 | a new report is empty |
| `RepositoryWalk.WalkReport.Skip` | backend/app/rag/safety.py:38-39 | a skip is counted under its reason |
| `RepositoryWalk.WalkReport.WalkFile` | backend/app/rag/safety.py:229-265 | a file is kept or skipped by the first rule that applies |
| `RepositoryWalk.WalkReport.WalkDirectory` | backend/app/rag/safety.py:208-265 | a directory's subdirectories are pruned, its files considered, then the kept subdirectories walked |
| `RepositoryWalk.Walk` | backend/app/rag/safety.py:204-266 | the walk terminates on every finite tree with the specified report |

## Left out

- HTTP routes, settings, command-line entry points, the GitHub action and the frontend: plumbing and display.
- SHA-256, timestamps and JSON: identifiers and digests are injective, and no rule modelled here reads a time.
- BM25 and the encoder: relevance scores and vectors are arbitrary; scores are exact reals, so floating-point rounding is not modelled.
- The fields a search result carries for display: the matched terms, the reasons and the scores of the two lists.
- A full-text query that the storage refuses: searching the lexical index does not fail here.
- The text patterns of the compiler and the syntax-tree, YAML and TOML scanning of the checks: their results are arbitrary inputs; unit conversion is one of them.
- The static-pattern check, which the compiler never emits, and evidence of the kind EXECUTION, which no check emits.
- Secret redaction, labels, rationales, excerpts and confidences: no rule modelled here reads them.
- Numbers in evidence identifiers are exact reals, so an integer and a float of equal value share an identifier here.
- Subprocesses, symbolic links, file access and Git: their outcomes are arbitrary inputs of the guard and walk operations.
- The text of guard previews and its syntax-tree check: a text for each requirement and a yes or no for each decision are inputs.
- The repository index metadata table: storing it may raise, but its rows are not kept.
- The children of a directory are taken in name order, which the source fixes only within one directory.
- Chunk identifiers are natural numbers in text order in the retrieval model.
- Verifier.Coverage: is not rounded to two decimals, because rounding is not the point of the bound.
- Concurrent writers of the audit tables: each service call and each stored snapshot is one step; interleavings are proved for the model-call counter only.
- The guard preview is atomic as a call; its transactions one by one, and a failure between them, are modelled.
- The second schema migration, `RetrievalLogger` and the evaluation metrics: they would add only easy members.
- The investigation tools and the mock provider: a provider answer is an input.
