# A verified model of the AURA runtime

This project models the parts of the AURA runtime that must hold over whole runs and whole graphs, and proves what they
promise. There is one module per component, and `dfyconfig.toml` names them all as one project.

- **Workspace context and privacy.** `WorkspaceContextCompiler.compile` with its three bounded walks, the privacy join and
  the layered order (`WorkspaceGraph`, `ContextWalks`, `LayeredOrder`, `ContextCompiler` over `Privacy` and `Reachability`);
  memory assembly (`ContextAssembly`); route selection (`RoutingPolicy`, `RoutingResolver`, `RouteConfirmation`); and the
  path of a label from what a turn loads to the providers that see it (`PrivacyFlow`).
- **Durable events.** The transactional outbox with leases and fenced completion (`Outbox`, `OutboxWorker`), publishing with
  idempotency keys (`EventBus`), the scheduler (`Scheduler`, `SchedulerLeases`, `SchedulerTick`, `SchedulerLoss`, `JobKeys`),
  wall-clock schedules (`ZoneClock`, `ZoneDates`, `AutomationSchedule`), the bridge from events to runs (`Dispatcher`) and
  delegation (`Delegation`).
- **The agent loop.** The nodes and the graph with interrupts, re-execution, approvals and budgets (`ApprovalPolicy`,
  `AgentNodes`, `AgentLoop`, `AgentGuarantees`, `AgentBudgets`, `ApprovalRecords`).
- **Stores that agree or roll back.** Local restore with its undo (`LocalRestore`), source deduplication on values and on
  shared objects (`SourceDedup`, `SourceDeduplicator`), the conversation graph (`ChatGraph`) and memory versions
  (`MemoryVersions`).

## How it is modelled

The database is a value that committed steps change one at a time. A protocol is a state, a set of actions, an `Enabled`
predicate and an `Apply` function; workers, ticks and deliveries interleave freely and vanish at any commit, and theorems
quantify over every run. Code that updates state in loops is a class or a method proved against a specification function,
and the theorems are about that function. Models, tools, people, clocks, zones and other sessions are inputs.
Identifiers are numbers where only their identity or order matters. Times are integers: seconds in the outbox, microseconds
in the scheduler and in schedules.

Assumptions are stated where they are used. A worker's claim is one atomic step (the row-locked branch) and worker ids are
unique. `RespectsLease` in `SchedulerLeases` says that a stale lease is only taken over from a tick that is gone; `Orderly`
adds that the scheduler alone triggers a job's events, that settled events stay settled and that event times of a job
increase. Publishers other than the scheduler use keys that do not start with `job-`. `Tolerable` in
`Dispatcher` says that other writers complete no run that has a stop request. `Searchable` in
`AutomationSchedule` is the condition on a zone. `SteadyRun` in `AgentGuarantees` says that the gating of a batch does not
change between an interrupt and its resumption. In `LocalRestore` the operations of the undo succeed and a failing
operation has no effect, apart from a partial copy under its own staging name.

## Where the code falls short of its intent

Each of these is stated with the exact condition under which the code does what was meant.

- On resumption `route_decision_node` works out anew which call to apply the decision to, and the decision does not say which
  call was shown. If the gating of the batch changed in between, an approval moves to another call
  (`AgentGuarantees.DecisionReachesShownCallIff`, `UnsteadyRunExecutesUnasked`).
- Approval records have no unique key: two overlapping executions of the node create two (`ApprovalRecords.SecondRecordIff`).
- A human rejection of a call listed in `require_approval_for` is recorded, but `execute_tool_node` asks only the permission
  policy, so an ungated tool runs all the same (`AgentGuarantees.DecisionHonouredIff`, `RejectedListedCallIsExecuted`).
- Under the adaptive reasoning policy an explicit override takes a set effort as fixed and may leave the profile's bounds
  (`RoutingPolicy.OverrideEffortIsBoundedIff`, `OverrideExceedsProfile`).
- A confirmed cloud proposal is retried as the text `provider:model`, which is read back wrongly when the provider name
  contains a colon (`RouteConfirmation.ConfirmedRouteIsSelectedIff`, `ConfirmedRouteGoesElsewhere`).
- A profile sets the privacy level of a routing context instead of joining it: applied to a context that had to stay on the
  device, a more open profile lifts that (`RoutingResolver.ProfileKeepsConstraintsIff`). What a turn loads is joined afterwards.
- An empty privacy label in the metadata survives every join and then counts as no label, which hides the requirement of the
  selected objects when no memory service is present (`PrivacyFlow.RequirementKeptIff`).
- Sessions keep loaded objects across commits, so a tick computes the key of a job from the copy of its query. If another tick
  handled the job in between, the old key is published again and the occurrence that is due gets no event
  (`SchedulerLeases.PublishServesDueIff`, `SchedulerLoss.LateTickLosesOccurrence`).
- "A zone whose transitions do not cross midnight" is not what the nine-day search needs. A skipped time is moved forward by the
  whole gap, so a gap late in the evening can push it to the next date, and a run that is still ahead is missed
  (`AutomationSchedule.EveningGapMissesRun`); repeating midnight does no harm (`RepeatedMidnightIsSearchable`). The exact
  condition is `Searchable` (`SearchIsSoundIff`).
- Live saving takes every turn that is not an assistant's for a user turn, the backfill does not
  (`ChatGraph.OtherRolesDisagree`, with the exact condition in `LiveEqualsBackfillIff`); and backfilled
  objects carry no run id, so the next labelled answer finds no turn to reply to (`ChatGraph.AttachForgetsRuns`).
- Repeating a deduplication pass can change merged content, because a match by title does not register the candidate's
  identifier (`SourceDedup.SecondPassIsIdleIff`, `SecondPassAddsAuthor`).

## Model

| member | source | states |
|---|---|---|
| `Privacy.StricterIsLeastUpperBound` | app/memory/context_compiler.py:58-66 | the label join is the least upper bound of two recognised labels |
| `Privacy.StricterNeverWeakens` | app/memory/context_compiler.py:58-66 | joining in any label, even an unrecognised one, never drops what was demanded before |
| `Privacy.JoinIsUnique` | app/memory/context_compiler.py:345-374 | a set of labels has one join, so the order of joining does not matter |
| `Reachability.ClosureIsReachability` | app/memory/context_compiler.py:132-197 | an object is in a closure exactly when a path of edges leads from it to the start, cycles included |
| `Reachability.ClosureIsLeast` | app/memory/context_compiler.py:132-197 | the closure is inside every set that holds the start and is closed under the relation |
| `WorkspaceGraph.QueryIsFilter` | app/memory/context_compiler.py:137-147 | an edge query returns exactly the edges of the project, family and targets |
| `WorkspaceGraph.IncludedIsLeast` | app/memory/context_compiler.py:132-197 | the included objects are the least set with the selection that is closed under content flow |
| `WorkspaceGraph.NothingCrossesABridge` | app/memory/context_compiler.py:182-197 | an unselected object is included only through an included, expandable object that is no bridge |
| `WorkspaceGraph.PrivacyCrossesBridges` | app/memory/context_compiler.py:272-342 | every object with a context or provenance path to a source of an included bridge counts for privacy |
| `WorkspaceGraph.PrivacySetIsMonotone` | app/memory/context_compiler.py:354-357 | a larger selection has a larger privacy set |
| `WorkspaceGraph.PrivacySetIff` | app/memory/context_compiler.py:202-342 | an object counts for privacy exactly when it is included, linked to an included one, or reaches one along provenance, or reaches a source of an included bridge along either family |
| `WorkspaceGraph.SelectionResolvable` | app/memory/context_compiler.py:176-181 | nothing outside the project is included or counted |
| `ContextWalks.WalkContext` | app/memory/context_compiler.py:132-197 | on success the walk found exactly the included closure and all its resolvable links, so no limit dropped an edge; it gives up only when the edges or objects really exceed the budget |
| `ContextWalks.WalkProvenance` | app/memory/context_compiler.py:202-266 | same for the provenance ancestry of the included objects, on cyclic graphs too |
| `ContextWalks.WalkBridges` | app/memory/context_compiler.py:278-342 | same for the mixed ancestry behind bridges, with its cumulative edge budget |
| `ContextCompiler.JoinRequirements` | app/memory/context_compiler.py:345-396 | the loop over the privacy set returns the join of its labels and the union of the requirements of the included objects, or the first invalid object |
| `ContextCompiler.Gather` | app/memory/context_compiler.py:132-342 | the three walks together collect exactly the four contributing sets |
| `ContextCompiler.LayOut` | app/memory/context_compiler.py:398-454 | blocks and manifest are those of the layered order of the included objects, the text of an object being given |
| `ContextCompiler.Compile` | app/memory/context_compiler.py:98-460 | success means the result describes the selection, the context edges kept to their budget, no object was malformed, and what is included, its provenance and everything behind its bridges is at most 200 objects; a refusal is explained |
| `ContextCompiler.RequirementIsTheJoin` | app/memory/context_compiler.py:343-374 | the requirement covers every label in the privacy set and keeps an unlabelled conversation turn local; it is what one of the objects asks for, and there is none when none is labelled or a turn |
| `ContextCompiler.SelectingMoreNeverWeakens` | app/memory/context_compiler.py:343-374 | a larger selection has a requirement at least as strict |
| `ContextCompiler.CompilationIsDetermined` | app/memory/context_compiler.py:358-411 | two successful compilations of one selection are equal: set iteration order never shows |
| `ContextCompiler.ManifestListsIncluded` | app/memory/context_compiler.py:412-454 | exactly the included objects are shown, each once |
| `ContextCompiler.BridgedContentStaysOut` | app/memory/context_compiler.py:182-197 | an unselected object whose links lead only into bridges is never shown |
| `ContextCompiler.SourcesShownFirstIffAcyclic` | app/memory/context_compiler.py:398-411 | linked sources come before all their consumers in the manifest if and only if the links have no cycle |
| `ContextCompiler.ManifestIsByAge` | app/memory/context_compiler.py:398-411 | neighbours in the manifest are in order of creation unless the later one waits for a source that is shown |
| `ContextCompiler.PromptIsTheTexts` | app/memory/context_compiler.py:412-460 | the prompt is the texts of the shown objects in the order of the manifest, set apart by empty lines |
| `ContextCompiler.LabelsAreListed` | app/memory/context_compiler.py:358-374 | the listed privacy sources are exactly the labelled objects and unlabelled turns of the privacy set, once each and by id |
| `ContextCompiler.SmallWorkspacesFit` | app/memory/context_compiler.py:98-342 | no selection is refused as too large in a workspace of at most 200 edges and 200 objects |
| `LayeredOrder.Order` | app/memory/context_compiler.py:400-411 | the layering loop equals the layer function, on any links |
| `LayeredOrder.Sort` | app/memory/context_compiler.py:409-409 | sorting a layer gives its listing by creation time and id |
| `LayeredOrder.ListingIsUnique` | app/memory/context_compiler.py:403-410 | a layer has one listing, whatever order its set is enumerated in |
| `LayeredOrder.EachObjectOnce` | app/memory/context_compiler.py:400-411 | the layered order lists each object once and no other |
| `LayeredOrder.FallbackNeedsCycle` | app/memory/context_compiler.py:407-408 | the fallback branch is reached only when the remaining links contain a cycle |
| `LayeredOrder.SourcesFirstIffAcyclic` | app/memory/context_compiler.py:400-411 | sources precede consumers if and only if the links are acyclic |
| `LayeredOrder.OlderFirstUnlessWaiting` | app/memory/context_compiler.py:403-410 | of two neighbours the older comes first, unless the later one has a source to wait for |
| `ContextAssembly.FoldIsJoin` | app/memory/context.py:108-131 | applying memories one by one yields the join of the start label and all applied ones; unlabelled memories count as local-only |
| `ContextAssembly.SelectionIsBounded` | app/memory/context.py:163-275 | each tier applies the label of everything it shows; all but the conversation stay within a character budget; project and semantic texts are not repeated |
| `ContextAssembly.ShownIsApplied` | app/memory/context.py:163-275 | the label of everything shown in any tier is applied to the turn |
| `ContextAssembly.AssembledContext.AddConversation` | app/memory/context.py:163-171 | the conversation loop equals its tier selection and fails exactly on an unsupported label |
| `ContextAssembly.AssembledContext.AddProfile` | app/memory/context.py:173-190 | same for profile facts |
| `ContextAssembly.AssembledContext.AddProject` | app/memory/context.py:192-206 | same for project facts, ids and labels of repeated texts included |
| `ContextAssembly.AssembledContext.AddEpisodes` | app/memory/context.py:208-222 | same for episodes |
| `ContextAssembly.AssembledContext.AddSemantic` | app/memory/context.py:224-275 | same for semantic matches |
| `ContextAssembly.Assemble` | app/memory/context.py:143-275 | succeeds exactly when all labels are recognised, with the fold of everything applied as its requirement |
| `RoutingPolicy.AdaptiveEffortIsBounded` | app/models/routing_policy.py:356-453 | an adaptive effort lies within the profile bounds and the maximum of the model |
| `RoutingPolicy.AdaptiveEffortIsNearest` | app/models/routing_policy.py:356-453 | no effort allowed by the profile and the model is nearer to what the complexity calls for |
| `RoutingPolicy.RequestedEffortIsKept` | app/models/routing_policy.py:170-278 | a requested effort the model offers is what it runs with on either path, and an override is refused exactly when the model does not offer it |
| `RoutingPolicy.OverrideEffortIsBoundedIff` | app/models/routing_policy.py:170-278 | on the override path the bounds hold if and only if no effort is set or the set one lies within them |
| `RoutingPolicy.OverrideExceedsProfile` | app/models/routing_policy.py:170-278 | under an adaptive profile bounded by low effort an override with high effort set runs at high, a candidate at low |
| `RoutingPolicy.SelectOverride` | app/models/routing_policy.py:91-278 | an override succeeds exactly when its target exists, meets every hard constraint and has an acceptable effort |
| `RoutingPolicy.SortByRank` | app/models/routing_policy.py:459-475 | the sort is ordered, keeps the entries and puts the first entry of least rank in front |
| `RoutingPolicy.Filter` | app/models/routing_policy.py:288-354 | one stage keeps exactly the candidates that meet it, in order, and fails when none is left |
| `RoutingPolicy.SelectCandidate` | app/models/routing_policy.py:279-522 | the staged filters and the sort return the first candidate of least rank among those meeting all constraints; an error means there is none or cloud use must be confirmed |
| `RoutingPolicy.ChoiceIsUnique` | app/models/routing_policy.py:459-475 | first of least rank names one candidate |
| `RoutingPolicy.Select` | app/models/routing_policy.py:70-522 | the result is what the override or the candidate path must return, an error means there is none, a confirmation is asked for exactly when the candidate path's choice needs one, and a turn that has to stay local gets no cloud provider |
| `RoutingPolicy.SelectionMeetsDemands` | app/models/routing_policy.py:117-168 | whichever path selects, the provider is registered, is not in the cloud for a confidential or local-only turn, and offers the capabilities, tools, vision, structured output, long context and window demanded |
| `RoutingPolicy.FittingModelIsRouted` | app/models/routing_policy.py:279-522 | whenever a listed model offers everything demanded, a model is selected or proposed for confirmation |
| `RoutingPolicy.CandidatesAreListed` | app/models/routing_policy.py:279-287 | the candidates are all models of all registered providers, or the default of a provider that lists none |
| `RoutingPolicy.ChoiceIsPreferred` | app/models/routing_policy.py:459-475 | no other eligible candidate is cheaper, faster or of the primary provider where that is what counts first |
| `RoutingPolicy.CloudIsProposedNotPicked` | app/models/routing_policy.py:476-522 | where cloud use has to be confirmed, only cloud models are proposed and no cloud model is selected unasked |
| `RouteConfirmation.OverrideIsAvailableIff` | app/models/routing_policy.py:91-115 | an override is available if and only if its provider is registered and lists the model, takes any, lists none, or has it as its default |
| `RouteConfirmation.ConfirmedTargetIff` | app/orchestrator/nodes.py:525-538 | the text written after a confirmation is looked up as the proposed route if and only if the provider name has no colon |
| `RouteConfirmation.ConfirmedRouteIsSelectedIff` | app/orchestrator/nodes.py:525-538 | the retry selects the proposed route itself if and only if, besides, the override path accepts the effort |
| `RouteConfirmation.ConfirmedRouteGoesElsewhere` | app/models/routing_policy.py:94-115 | two providers for which the retry of a confirmed route selects the other one |
| `RoutingResolver.NarrowFallbackIsMeet` | app/models/routing_resolver.py:197-228 | the inherited fallback permits exactly what both parent and child permit; incomparable policies leave nothing |
| `RoutingResolver.RoutingContext.ApplyProfile` | app/models/routing_resolver.py:109-194 | applying a profile in place yields the profiled context |
| `RoutingResolver.RoutingContext.InheritBoundaries` | app/models/routing_resolver.py:197-228 | inheriting in place yields the inherited context |
| `RoutingResolver.ChildStaysWithinParent` | app/models/routing_resolver.py:197-228 | a child context is at least as private as its parent, permits no more fallback than parent or profile, and asks before cloud use when the parent does |
| `RoutingResolver.ProfileKeepsConstraintsIff` | app/models/routing_resolver.py:147-151 | a profile lets in no model the turn's hard constraints exclude if and only if it keeps a turn on the device that had to stay there |
| `RoutingResolver.PublicProfileLiftsLocalOnly` | app/models/routing_resolver.py:148-148 | a local-only turn to which a public profile is applied admits a cloud model |
| `RoutingResolver.LockChangesOnlyTheModel` | app/models/routing_resolver.py:175-180 | a locked model changes the model and no other decision of the profile |
| `RoutingResolver.ProfileBoundsEffort` | app/models/routing_resolver.py:158-194 | the bounds of an adaptive route bind every candidate, and an effort asked for in the message is used instead |
| `PrivacyFlow.LoadContext` | app/orchestrator/nodes.py:88-230 | the metadata after loading carries the joins of memory and selection; loading fails exactly on unsupported memory labels, for an explained selection error, or for a requirement without an available tool |
| `PrivacyFlow.LoadedLevelIsKept` | app/orchestrator/nodes.py:103-228 | whatever memory or selected object is loaded, the level the turn routes with is at least as strict |
| `PrivacyFlow.LevelIsExact` | app/orchestrator/nodes.py:103-228 | from recognised labels the level is above public exactly as far as the metadata, a memory or an object of the privacy set asks for |
| `PrivacyFlow.RequirementKeptIff` | app/orchestrator/nodes.py:216-228 | without a memory service the requirement of the selection is lost if and only if the metadata holds an empty label outside a routing context |
| `PrivacyFlow.EmptyLabelHidesRequirement` | app/orchestrator/nodes.py:224-228 | a concrete turn that routes as public although its selection is local-only |
| `PrivacyFlow.ReasonRoute` | app/orchestrator/nodes.py:388-538 | route selection keeps the privacy level and returns what the policy selects; a confirmed proposal, and nothing else, is retried as an override |
| `PrivacyFlow.LoopKeepsLevel` | app/orchestrator/nodes.py:541-541 | storing the routed context back leaves the level of the next step unchanged |
| `PrivacyFlow.RunStaysOnDevice` | app/orchestrator/nodes.py:388-541 | a level a run starts with is kept by every model call, confirmed or not, and binds each of them |
| `PrivacyFlow.ConfidentialStaysOnDevice` | app/orchestrator/nodes.py:145-541 | end to end: when a loaded memory is confidential, local-only or unlabelled, or an object of the privacy set is confidential, local-only or an unlabelled turn, no provider any model call of the run selects is in the cloud |
| `PrivacyFlow.ConfidentialStaysOnDeviceInChild` | app/delegation/runtime.py:134-180 | the same for every model call of a child handed the parent's routing context, whatever its profile and its own context |
| `PrivacyFlow.ChildStartsAsStrict` | app/delegation/runtime.py:166-180 | a delegated child starts at least as strict as the routing context passed to the delegation |
| `PrivacyFlow.LoadingNeverLowers` | app/orchestrator/nodes.py:147-228 | loading context never lowers the level of a routing context |
| `PrivacyFlow.AutomationStaysOnDevice` | app/events/dispatcher.py:145-176 | no model call of an automation's run, first delivered or resumed, reaches a cloud provider |
| `Outbox.InvIsKept` | app/events/worker.py:65-240 | every claim, heartbeat, completion, crash and clock step keeps the outbox invariant |
| `Outbox.ClaimsAreBounded` | app/events/worker.py:108-128 | in every reachable state the number of claims is the retry count plus one exactly while processing or processed, at most max_attempts; dead rows have used them all |
| `Outbox.TerminalRowsStay` | app/events/worker.py:75-87 | processed and dead-lettered rows are never written again in any run |
| `Outbox.CompletionBelongsToLatestClaim` | app/events/worker.py:217-235 | a completion takes effect exactly when it belongs to the latest claim, and otherwise changes nothing |
| `Outbox.DecisionUsesStoredCounter` | app/events/worker.py:182-226 | an effective failure dead-letters exactly at the last allowed attempt, although the worker decides by its own copy |
| `Outbox.RefinesSingleOwnerQueue` | app/events/worker.py:75-235 | every step is a move of a queue in which each event has at most one owner, or no move |
| `Outbox.RunRefinesQueue` | app/events/worker.py:75-235 | every run of the workers is, event by event, a run of the single-owner queue |
| `Outbox.EffectiveStepsAreBounded` | app/events/worker.py:108-235 | claims, reclaims and completions of one event number at most twice its allowance over any run |
| `Outbox.LeaseKeepsOthersOut` | app/events/worker.py:48-59 | a claim or a heartbeat keeps other workers out until the lease has passed |
| `Outbox.ClaimableIff` | app/events/worker.py:75-87 | a published event can be claimed at once, a claimed one again exactly when the lease has passed, a settled one never |
| `Outbox.EveryEventCanBeSettled` | app/events/worker.py:75-235 | in every reachable state an idle worker can still bring any event to its end |
| `Outbox.BackoffGrows` | app/events/worker.py:201-202 | the delay starts at a second, doubles with every retry and is 300 seconds from the ninth on |
| `Outbox.FailureDelaysRetry` | app/events/worker.py:201-208 | after a failure the event can be claimed exactly when attempts are left and its delay has passed |
| `OutboxWorker.ClaimedAreTheLiveOnes` | app/events/worker.py:108-131 | the claimed list holds exactly the due records that are now processing |
| `OutboxWorker.Worker.Claim` | app/events/worker.py:108-131 | the claim loop updates exactly the due rows, as one step |
| `OutboxWorker.Worker.RenewLeases` | app/events/worker.py:48-59 | one heartbeat renews exactly the rows still held |
| `OutboxWorker.Worker.Complete` | app/events/worker.py:217-231 | the fenced write takes effect exactly when the worker still owns the row |
| `OutboxWorker.Worker.ProcessBatch` | app/events/worker.py:99-235 | an undisturbed batch completes each claimed event by its own outcome and counts the processed ones |
| `OutboxWorker.ClaimIsTheStep` | app/events/worker.py:108-131 | the claim method is the claim step of the outbox system |
| `EventBus.Bus.Publish` | app/events/bus.py:55-102 | an event is stored at most once per key whatever others commit in between; a known key returns the stored row, and only an unresolvable conflict fails |
| `EventBus.PublishOnlyAppends` | app/db/models.py:274-281 | publishing touches no stored row and keeps ids and keys unique |
| `EventBus.PublishIsOncePerKey` | app/events/bus.py:57-66 | publishing a published key again, from anywhere, changes nothing |
| `JobKeys.KeyIsInjective` | app/events/scheduler.py:215-215 | different occurrences have different keys, even with dashes in job ids |
| `Scheduler.NextDueIsEarliest` | app/events/scheduler.py:232-243 | however late the tick, a daily or weekly automation is next due at its earliest permitted occurrence after it |
| `Scheduler.NextDueIsLaterSecond` | app/events/scheduler.py:232-243 | with an interval of at least a second, or a wall-clock schedule in a zone of whole seconds, the next due time is in a later second |
| `Scheduler.AdvancingIff` | app/events/scheduler.py:241-241 | an interval takes every due time into a later second if and only if it is at least one second |
| `Scheduler.Newest` | app/events/scheduler.py:117-128 | the query returns the newest triggering event of the job, ties broken by id |
| `Scheduler.ActiveExecutionIff` | app/events/scheduler.py:107-145 | an automation is active exactly when its newest triggering event, ties broken by id, waits, is at work, failed, or has an active run |
| `Scheduler.PublishLeavesEvent` | app/events/scheduler.py:217-226 | after publishing, the job has an event for the second the tick saw |
| `Scheduler.InvIsKept` | app/events/scheduler.py:147-256 | every commit of every tick keeps the scheduler invariant, crashes and takeovers included |
| `Scheduler.OneEventPerDueSecond` | app/events/scheduler.py:215-226 | in every reachable state at most one event row exists per job and due second |
| `Scheduler.OneShotFiresOnce` | app/events/scheduler.py:205-231 | a one-shot job never yields two events |
| `Scheduler.RetiredOneShotHasEvent` | app/events/scheduler.py:230-231 | a one-shot job that is inactive and was not cancelled has its event |
| `Scheduler.CancelledJobIsNotTaken` | app/events/scheduler.py:91-99 | a cancelled job stays off: whatever happens afterwards, no claim takes it |
| `Scheduler.TickHandlesJobOnce` | app/events/scheduler.py:164-256 | after finishing or postponing a job a tick never claims it again |
| `SchedulerLeases.ExclusiveIsKept` | app/events/scheduler.py:177-197 | while leases are respected, one live tick at most holds a job |
| `SchedulerLeases.RunMovesForward` | app/events/scheduler.py:232-243 | while leases are respected and the interval is at least a second, the due time of a recurring job never returns to a second it left |
| `SchedulerLeases.OccurrencesHaveDifferentKeys` | app/events/scheduler.py:215-243 | two occurrences handled one after the other have different keys |
| `SchedulerLeases.FinishedOccurrenceHasEvent` | app/events/scheduler.py:203-231 | a retired occurrence has its own event when the copy held by the tick is current |
| `SchedulerLeases.PublishServesDueIff` | app/events/scheduler.py:203-226 | publishing serves the occurrence that is due if and only if the copy held by the tick names the same second |
| `SchedulerLeases.FinishMakesCopiesStale` | app/events/scheduler.py:164-174 | a tick that finishes a job makes the copies loaded by others name an earlier second |
| `SchedulerLoss.LateTickLosesOccurrence` | app/events/scheduler.py:164-256 | a run in which every lease is respected and an occurrence that was due gets no event |
| `SchedulerLeases.NewestDecides` | app/events/scheduler.py:107-145 | if only the newest event can be unsettled, checking it settles the question for all |
| `SchedulerLeases.NoOverlapIsKept` | app/events/scheduler.py:107-238 | every orderly step keeps all but the newest event of an automation settled |
| `SchedulerLeases.AtMostOneUnsettled` | app/events/scheduler.py:107-238 | in every reachable state at most one triggering event of an automation is unsettled |
| `SchedulerTick.PersistentScheduler.HandleCandidate` | app/events/scheduler.py:177-256 | one iteration of the loop has the effect of its specification |
| `SchedulerTick.PersistentScheduler.Tick` | app/events/scheduler.py:147-256 | the loop handles the candidates in order until publishing fails |
| `SchedulerTick.HandleIsRun` | app/events/scheduler.py:177-256 | handling a candidate is a run of the step system |
| `SchedulerTick.TickHandlesEveryCandidate` | app/events/scheduler.py:177-256 | an undisturbed tick leaves no candidate due and none leased |
| `ZoneClock.InstantRoundTrip` | app/events/automation_schedule.py:89-92 | an instant shown as wall time with its fold and read back is the same instant |
| `ZoneClock.WallTimeShows` | app/events/automation_schedule.py:86-89 | a wall time shows itself, or in a gap the time moved forward by the gap |
| `ZoneDates.DatesInOrderIffKept` | app/events/automation_schedule.py:80-92 | every local time stays on its date and dates never run backwards if and only if no transition moves a skipped time to another date or repeats one |
| `AutomationSchedule.SearchIsSoundIff` | app/events/automation_schedule.py:51-93 | for every valid schedule and every instant the search finds the earliest occurrence, if and only if no skipped minute is moved to another date and no set back shows the start of a date two or more days later |
| `AutomationSchedule.EveningGapMissesRun` | app/events/automation_schedule.py:80-92 | in a zone set forward late in the evening the search misses a run that is still ahead |
| `AutomationSchedule.RepeatedMidnightIsSearchable` | app/events/automation_schedule.py:80-92 | a zone that repeats midnight does not keep its dates, and the search is right all the same |
| `AutomationSchedule.NextRunIsEarliest` | app/events/automation_schedule.py:80-93 | the search never fails: the run is the occurrence of a date on a listed weekday, strictly ahead, and no earlier date on a listed weekday is still ahead |
| `AutomationSchedule.FirstMonday` | app/events/automation_schedule.py:85-85 | a Monday schedule asked on Thursday, 1 January 1970, answers with the fifth |
| `AutomationSchedule.OccurrenceShowsScheduledTime` | app/events/automation_schedule.py:77-92 | an occurrence is the first instant the wall clock shows the scheduled time of its date, or that time moved forward by the gap that skips it |
| `AutomationSchedule.OccurrencesIncrease` | app/events/automation_schedule.py:77-92 | a later date has the later occurrence |
| `AutomationSchedule.NextRunIsAhead` | app/events/automation_schedule.py:90-91 | in any zone a wall-clock run lies strictly ahead, and on a whole second when the offsets are whole seconds; an interval is added as it is |
| `AutomationSchedule.NextIsNextDate` | app/events/automation_schedule.py:80-92 | from one occurrence the search goes to the next permitted date |
| `AutomationSchedule.DatesFromIsComplete` | app/events/automation_schedule.py:81-83 | the listed dates increase and leave no permitted date out |
| `AutomationSchedule.RunsVisitEveryDate` | app/events/automation_schedule.py:51-93 | iterating visits every permitted local date once, in order |
| `AutomationSchedule.SkippedDateSharesOccurrence` | app/events/automation_schedule.py:84-91 | a zone that skips a date gives two dates one occurrence |
| `Dispatcher.Bridge.FinalizeCancelledRun` | app/events/dispatcher.py:23-76 | cancelling leaves nothing pending for the run or its children and decides nothing else |
| `Dispatcher.CancelLeavesNothingPending` | app/events/dispatcher.py:32-54 | same, of the updates as a function |
| `Dispatcher.Bridge.Finalize` | app/events/dispatcher.py:271-327 | the last transaction writes the outcome only on a running run without a stop request, and otherwise cancels or leaves it |
| `Dispatcher.FinalizationDecidesRace` | app/events/dispatcher.py:296-327 | a stop recorded first wins; without one a running run gets the outcome and nothing else changes; otherwise nothing does |
| `Dispatcher.OneRunPerEvent` | app/events/dispatcher.py:97-208 | any number of deliveries of an event creates at most one run |
| `Dispatcher.UndisturbedDelivery` | app/events/dispatcher.py:97-327 | a delivery nobody disturbs creates the run of its event, or takes up the one still running, and writes its outcome |
| `Dispatcher.StopIsFinal` | app/events/dispatcher.py:310-327 | any run that is not over can be asked to stop, and is never completed or failed afterwards |
| `Dispatcher.LateDeliveriesChangeNothing` | app/events/dispatcher.py:97-327 | once the run of an event is over, any number of further deliveries, at any point and cut off anywhere, change no table |
| `Dispatcher.FirstFinishDecides` | app/events/dispatcher.py:271-327 | what the first finishing delivery writes stays, whatever later deliveries of the event do |
| `Dispatcher.FinishingStoppedRunCancels` | app/events/dispatcher.py:271-283 | finishing a stopped run cancels it and leaves nothing pending |
| `Delegation.Runtime.ResolveChild` | app/delegation/runtime.py:86-256 | a call gets one child: the recorded one if any caller was first, finished exactly when the child or its record is, and a new running one otherwise |
| `Delegation.CallKeepsItsChild` | app/delegation/runtime.py:88-112 | resolving the same call again later yields the same child |
| `Delegation.ResolvedChildIsAsStrict` | app/delegation/runtime.py:166-180 | however the child was found it starts as strict as the context passed |
| `AgentNodes.CancellationRequested` | app/orchestrator/nodes.py:44-69 | the loop answers whether any run on the parent chain asked to stop, on cyclic chains too |
| `AgentNodes.PrepareApprovals` | app/orchestrator/nodes.py:721-749 | the two passes authorise the automatic calls and find the first undecided one |
| `AgentNodes.ExecuteTools` | app/orchestrator/nodes.py:909-1044 | the loop over the calls equals its specification call by call, suspensions included |
| `ApprovalPolicy.Evaluate` | app/approvals/policy.py:38-57 | approval is required exactly for high and critical risk or a capability beyond reading and delegating |
| `AgentLoop.BatchKeepsLog` | app/orchestrator/nodes.py:909-1044 | whatever the tools do, gated executions stay backed by decisions and a finished batch answers every call in order |
| `AgentLoop.InvIsKept` | app/orchestrator/nodes.py:329-1172 | every node, interrupt and crash keeps the loop invariant |
| `AgentGuarantees.DecisionReachesShownCallIff` | app/orchestrator/nodes.py:741-796 | on resumption the decision is applied to the call the interrupt showed if and only if the gating of the undecided calls up to it is unchanged |
| `AgentGuarantees.GatedExecutionsWereDecided` | app/orchestrator/nodes.py:909-975 | while gating is unchanged at every resumption, a tool the policy gates runs only after a resumption in the same step by a human who was shown that same call and did not reject it, with the edited arguments or those shown |
| `AgentGuarantees.DecisionBindsExecutions` | app/orchestrator/nodes.py:796-871 | after a decision, whatever the run does with the call in that step, a gated execution has the decided arguments and a rejected call has none |
| `AgentGuarantees.GatedExecutionsFollowDecisions` | app/orchestrator/nodes.py:909-975 | in any run a gated call runs only after a decision was applied to it in the same step |
| `AgentGuarantees.ApprovalMovesToAnotherCall` | app/orchestrator/nodes.py:741-796 | an approval given for one call is applied to another, which is executed |
| `AgentGuarantees.UnsteadyRunExecutesUnasked` | app/orchestrator/nodes.py:741-796 | from the initial state: a run that executes a gated call nobody was asked about |
| `AgentGuarantees.OneRecordPerCall` | app/orchestrator/nodes.py:758-776 | at most one approval record per run and call id in every run, lookup and creation being separate steps with crashes between them |
| `ApprovalRecords.SerialRunsRecordOnce` | app/orchestrator/nodes.py:758-776 | executions of the node that do not overlap create at most one record per call |
| `ApprovalRecords.SecondRecordIff` | app/orchestrator/nodes.py:761-776 | an execution that found no record creates a second one if and only if another created one in between |
| `ApprovalRecords.OverlappingExecutionsRecordTwice` | app/orchestrator/nodes.py:761-776 | two overlapping executions create two records |
| `AgentGuarantees.ReasonStartsClean` | app/orchestrator/nodes.py:1153-1161 | when the model is asked again all requests are answered in order, budgets hold, and nothing of the last batch is left |
| `AgentGuarantees.ModelTurnsAreBounded` | app/orchestrator/nodes.py:1138-1161 | a run makes at most max_steps minus its start step plus one model turns |
| `AgentGuarantees.CommittedStepsAreBounded` | app/orchestrator/graph.py:45-71 | with bounded batches a run commits a bounded number of steps: steps left, node and undecided calls decrease lexicographically |
| `AgentBudgets.LoopContinuesIff` | app/orchestrator/nodes.py:1108-1172 | the model is asked again if and only if the run was not stopped, is in time and within each of its three budgets; otherwise it fails or completes as the reason demands |
| `AgentBudgets.BatchOutcome` | app/orchestrator/nodes.py:909-1044 | every call of a finished batch has one reply: the output or error of a permitted tool, or why the call was refused |
| `AgentBudgets.BatchCounts` | app/orchestrator/nodes.py:1063-1065 | a finished batch counts its calls, and one failure more if and only if none of them succeeded |
| `AgentBudgets.CallsAreCounted` | app/orchestrator/nodes.py:909-1066 | in every open configuration of a run the counted calls are the tool replies in the conversation |
| `AgentBudgets.StopCancels` | app/orchestrator/nodes.py:44-69 | whichever node sees a stop request cancels the run and drops what is pending |
| `AgentBudgets.RejectionEndsRunIff` | app/orchestrator/nodes.py:803-831 | a rejection ends the run if and only if every requested call is rejected and no other decision is on record |
| `AgentBudgets.RunIsLogged` | app/orchestrator/nodes.py:978-1010 | whatever a batch runs is logged, also when a later call is stopped or suspends the run |
| `AgentGuarantees.DecisionHonouredIff` | app/orchestrator/nodes.py:928-978 | a human decision is honoured if and only if the policy gates the tool or the decision was to run it unchanged |
| `AgentGuarantees.RejectedListedCallIsExecuted` | app/orchestrator/nodes.py:724-736 | two read-only calls of which the rejected one runs all the same |
| `LocalRestore.Restore.UndoWorkspace` | scripts/backup_local.py:221-225 | undoing new entries and then old ones gives back the earlier workspace |
| `LocalRestore.Restore.ReplaceWorkspace` | scripts/backup_local.py:205-230 | the workspace is replaced as a whole or left as it was, whichever move fails |
| `LocalRestore.OldFirstRestoresIff` | scripts/backup_local.py:221-225 | undoing in the other order is right if and only if no new entry has the name of an old one |
| `LocalRestore.Restore.ReplaceStore` | scripts/backup_local.py:278-295 | one store holds its snapshot without sidecars, or every file is in place or set aside for the undo |
| `LocalRestore.Restore.UndoStores` | scripts/backup_local.py:297-302 | the undo brings every live file back to its earlier content |
| `LocalRestore.Restore.RestoreBackup` | scripts/backup_local.py:274-311 | restore replaces all stores and the workspace when no operation fails, gives up only after one did, and then leaves everything exactly as it was |
| `SourceDedup.MergeGrowsAndCovers` | app/research/dedup.py:126-153 | merging loses nothing of the source and takes in everything of the candidate |
| `SourceDedup.MergeIsIdleIffCovered` | app/research/dedup.py:126-153 | merging changes nothing if and only if the source already covers the candidate |
| `SourceDedup.IndexIsExact` | app/research/dedup.py:95-102 | the lookup maps hold exactly the identities of distinct sources |
| `SourceDedup.DeduplicationKeepsEverything` | app/research/dedup.py:87-161 | identities stay distinct, nothing is lost or shortened, and every candidate is taken in by a source of its identity |
| `SourceDedup.SecondPassAddsNothing` | app/research/dedup.py:87-161 | a second pass over the same candidates adds no source |
| `SourceDedup.RepeatIsIdleIff` | app/research/dedup.py:112-153 | repeating a pass changes nothing at all if and only if the present partner of each candidate covers it |
| `SourceDedup.SecondPassIsIdleIff` | app/research/dedup.py:87-161 | the second pass changes nothing if and only if the source each candidate now finds covers it |
| `SourceDedup.SecondPassAddsAuthor` | app/research/dedup.py:112-117 | two candidates on which the second pass does change a source |
| `SourceDeduplicator.ResearchSource.Merge` | app/research/dedup.py:126-153 | the merge loops on shared objects equal the merge of values |
| `SourceDeduplicator.Deduplicator.AbsorbOne` | app/research/dedup.py:106-159 | one candidate changes only its partner, or is added under its identities |
| `SourceDeduplicator.Deduplicator.Deduplicate` | app/research/dedup.py:87-161 | the pass over mutable sources equals the pass on values and returns the added sources themselves, in order |
| `ChatGraph.Session.SaveMessage` | app/memory/service.py:159-271 | saving a turn adds its object and the edges of its role |
| `ChatGraph.Session.AttachToProject` | app/memory/service.py:61-157 | attaching completes the objects and adds the missing reply and continuation edges |
| `ChatGraph.SavedEdgesAre` | app/memory/service.py:183-268 | a saved user turn continues the newest assistant turn, a saved answer replies to the newest unanswered user turn of its run, and nothing is indexed before attaching |
| `ChatGraph.BackfilledEdgesAre` | app/memory/service.py:72-153 | turn by turn, which replies and continuations a backfill makes of a session saved unattached |
| `ChatGraph.NoTurnHasTwoReplies` | app/memory/service.py:103-127 | however saving and attaching are mixed no turn gets two replies |
| `ChatGraph.AttachIsIdempotent` | app/memory/service.py:61-157 | a second backfill adds nothing, for any conversation |
| `ChatGraph.LiveEqualsBackfillIff` | app/memory/service.py:61-271 | for any conversation live saving and a later backfill produce the same edges if and only if every answer fits its place |
| `ChatGraph.AlternatingIsConsistent` | app/memory/service.py:238-268 | alternating turns whose answers carry the run of the turn before, or none, fit |
| `ChatGraph.AttachForgetsRuns` | app/memory/service.py:85-98 | after a backfill an answer labelled with a run gets no reply edge until the next backfill adds it |
| `ChatGraph.OtherRolesDisagree` | app/memory/service.py:184-194 | a conversation with a tool turn that does not fit, and the two different replies |
| `MemoryVersions.MemoryService.Store` | app/memory/service.py:386-419 | writing a key retires its active row, links the two and returns the new active row |
| `MemoryVersions.ChainIsTheLog` | app/memory/service.py:386-516 | after any history a key has at most one active row, whose chain is exactly what was written since it was last archived |
| `MemoryVersions.VersionsAreLinked` | app/memory/service.py:386-516 | in every history a row supersedes an earlier one of its own slot that points back to it and is retired |

## Left out

- LocalRestore.Restore.RestoreBackup: an asynchronous interrupt between a rename and its entry in the undo lists is not modelled, and a rename onto an existing directory is taken to replace it as it does for a file.
- SourceDeduplicator.Deduplicator.Deduplicate: candidates are new objects with new source ids; a candidate that reuses an id would replace an entry that the lookup maps still point to.
- Scheduler.NextDueIsLaterSecond: a negative interval is not modelled; times and intervals are natural numbers of microseconds.
- SchedulerTick.PersistentScheduler.Tick: other sessions are idle during the method; interleavings are covered by the step system.
- AutomationSchedule.NextRunIsEarliest: a zone is a finite list of transitions at least two days apart with offsets of less than a day; the end of the calendar is not modelled.
- ContextAssembly.Assemble: the branch for a memory service without a profile loader, which shows facts without applying a label; the service and its interface both have the loader.
- PrivacyFlow.LoadContext: capabilities and the tools that provide them are reduced to whether they are available.
- PrivacyFlow.ConfidentialStaysOnDeviceInChild: the delegation tool is taken to pass on the routing context stored by the parent's last model call; the tool is not part of this model.
- OutboxWorker.Worker.ProcessBatch: no other worker acts during the batch and the clock is read once; interleavings are covered by the step system.
- Dispatcher.OneRunPerEvent: the assistant message of a run, session creation and the trace are reduced to what cancellation rewrites.
- ContextCompiler.LayOut: the text of an object is its content; bridge sections, titles and token estimates are opaque.
- The SQLite branch of the outbox claim (select, then unconditional update), which is not an atomic claim.
- Dispatch inside `publish` and the in-memory event bus: the runtime publishes with immediate dispatch off.
- Job rows edited or deleted while a tick holds them, and queued events cancelled by the routes.
- The identity map and session expiry of the database layer, beyond the stale copies named above.
- Tool, model and specialist resolution, tool capability splitting, prompt text and prompt token estimates.
- The memory part of `update_memory_node`, semantic search, embeddings and memory extraction.
- The regular expressions behind titles and identifiers of research sources: they are parameters.
- Parsing of schedule texts and zone names: a schedule is taken as its validators leave it.
- `context_used` edges of a saved turn and the text of workspace objects made from it.
- Building and verifying a backup archive, SQLite integrity checks and archive extraction.
- HTTP routes, the web interface, MCP transports, model and scholarly providers, logging and trace payloads.
