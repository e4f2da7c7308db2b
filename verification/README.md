# Towerdesk: a verified model of its workflows

Towerdesk is a property-management back end. This project models the parts of it that
hold state or compute, and proves what they promise. Every table is a map or a sequence
of rows, every service call is a method that checks and changes them as the program does,
and next to each method stands the function of old and new state that it is proved to
follow. What holds over whole runs is proved about those functions.

- **Maintenance requests** (`Policy`, `Requests`, `RequestInvariants`, `RequestProgress`,
  `RequestService`). Twenty-two operations of residents, managers, providers, owners and
  the reminder monitor change one row, its approval audit log and the events sent out.
  Over every run a request is completed only in line with policy, has one executor, is
  parked while an estimate is out, logs its approval without gaps, and is reminded about
  no more often than an estimate was asked for. It never deadlocks, with one exception
  that is characterised exactly: a request without a unit that needs its owner.
- **Tenancies** (`Tenancy`, `TenancyInvariants`, `TenancyProperties`, `TenancyExpectations`,
  `LegalTerms`, `TenancyStays`, `TenancyService`, `LeaseHistory`). Contracts, stays, move requests and the lease history stay consistent
  through fifteen operations, four of which create stays. What residents are offered is
  what is then accepted. Where the code does not meet an expectation (one active contract
  per unit, a live stay behind every active lease, a replayable status, locked legal terms,
  stays of a resident in a unit that do not overlap, requests that can be settled), the
  exact condition is stated: for the last over every run, and for the others over a step of
  any operation, with a run from empty tables that reaches the failure.
- **Parking and names** (`Parking`, `ParkedTenancy`, `Names`). What a move-in allocates and
  normalises. With parking and tenancy in one state, a slot held through a stay always has
  an active lease behind it and one move-out frees it; that its stay is active too is kept
  by exactly the operations that are not a grant ending it.
- **Deliveries** (`DeliveryTasks`, `BroadcastDelivery`, `BroadcastChain`). A delivery of a
  broadcast stores its notifications exactly once across crashes, failures and redelivery.
  Over the chain of deliveries that retries put in each other's place, the broadcast is
  stored at most once more than marks were lost, and repeated only if one was.
- **Reset tokens** (`PasswordTokens`, `PasswordService`). One live token per user, each
  usable once; invites and access grants follow the token that was used.
- **Lease timeline** (`Timeline`, `TimelinePaging`). Keyset paging over two merged sources
  agrees with listing everything once, also while rows are being added.
- **Request contexts** (`RequestContexts`, `RequesterContexts`). The batched enrichers
  agree with asking for one request at a time.
- **CSV** (`Csv`, `CsvRoundTrip`). The reader inverts the printer of section 2 of RFC 4180
  on exactly the cells it supports.

`Wrappers` holds `Option` and `Result`. `dafny verify dfyconfig.toml` checks everything.

Times are supplied integers. Identifiers, hashes and lookups into tables that are not
modelled (does the unit belong to the building, is the actor permitted) are parameters of
the operations, so the proofs cover both answers. Where the code and its documentation
disagree, the code is followed.

## Model

| member | source | states |
|---|---|---|
| `Policy.RoutesExactly` | src/modules/maintenance-requests/maintenance-request-policy.ts:131-195 | each route is taken exactly under one condition on estimate, approval, urgency, property change, amount and type of work, independent of the order of the tests |
| `Policy.ApprovalSettlesAndPricesOnlyRaise` | src/modules/maintenance-requests/maintenance-request-policy.ts:143-189 | an approval settles the route on every input unless an estimate is outstanding; raising the amount never removes the need for the owner |
| `Policy.PrimaryQueue` | src/modules/maintenance-requests/maintenance-request-policy.ts:321-394 | the queue returned matches, no queue of higher priority does, and none is returned only if none matches |
| `Policy.IntakeQueuesAreDisjoint` | src/modules/maintenance-requests/maintenance-request-policy.ts:256-319 | NEW, NEEDS_ESTIMATE, AWAITING_ESTIMATE, AWAITING_OWNER and READY_TO_ASSIGN never overlap, on any input |
| `Policy.OpenRequestsAreShownOnce` | src/modules/maintenance-requests/maintenance-request-policy.ts:256-319 | an OPEN request is in an intake queue, and in one only, if and only if it is neither REJECTED nor APPROVED with an estimate outstanding |
| `Policy.SoleQueue` | src/modules/maintenance-requests/maintenance-request-policy.ts:256-319 | names that queue, at every time of day |
| `Policy.NoPrimaryQueueExactly` | src/modules/maintenance-requests/maintenance-request-policy.ts:321-394 | exactly which requests have no primary queue and so never show in a filtered list |
| `Policy.IntakeQueueIsPrimary` | src/modules/maintenance-requests/maintenance-request-policy.ts:236-394 | until it is overdue, the intake queue of an OPEN request is its primary queue |
| `Requests.WithoutRepeats` | src/modules/maintenance-requests/maintenance-requests.service.ts:2783-2811 | emergency signals are kept once each, in order, none lost |
| `RequestInvariants.StepKeepsStamps` | src/modules/maintenance-requests/maintenance-requests.service.ts:955-1020 | completedAt and canceledAt are set exactly in COMPLETED and CANCELED, through every operation |
| `RequestInvariants.CompletedRefusesAll` | src/modules/maintenance-requests/maintenance-requests.constants.ts:81-100 | a COMPLETED request refuses every operation |
| `RequestInvariants.StepKeepsCompletion` | src/modules/maintenance-requests/maintenance-requests.service.ts:2339-2389 | every operation keeps: COMPLETED means approval NOT_REQUIRED or APPROVED, no outstanding estimate, route other than OWNER_APPROVAL_REQUIRED |
| `RequestInvariants.StepKeepsExecutor` | src/modules/maintenance-requests/maintenance-requests.service.ts:471-953 | every operation keeps the exclusive executor |
| `RequestInvariants.StepKeepsParked` | src/modules/maintenance-requests/maintenance-requests.service.ts:654-777 | every operation keeps: estimate REQUESTED means OPEN or CANCELED, a provider, no staff, no worker, no assignedAt, a due date |
| `RequestInvariants.StepKeepsDecision` | src/modules/maintenance-requests/maintenance-requests.service.ts:2125-2214 | every operation keeps decision stamps in line with the approval status |
| `RequestInvariants.StepAuditsTheChange` | src/modules/maintenance-requests/maintenance-requests.service.ts:2703-2730 | the audit rows of an operation lead, link by link, from the old approval status to the new one; with no row the status stays or is dropped |
| `RequestInvariants.StepAnnouncesWhatItAudits` | src/modules/maintenance-requests/maintenance-requests.service.ts:1101-1237 | an operation writes a REQUESTED, RESENT, OVERRIDDEN, APPROVED or REJECTED row exactly when it emits the matching event |
| `RequestInvariants.SubmissionAnnouncesWhatItAudits` | src/modules/maintenance-requests/maintenance-requests.service.ts:2551-2701 | the same for the two estimate submissions, whether or not the owner was asked before |
| `RequestInvariants.StepKeepsGood` | src/modules/maintenance-requests/maintenance-requests.service.ts:95-1526 | all of these together survive every operation |
| `RequestInvariants.CreatedIsGood` | src/modules/maintenance-requests/maintenance-requests.service.ts:95-156 | and hold of a new request |
| `RequestInvariants.RunKeepsGood` | src/modules/maintenance-requests/maintenance-requests.service.ts:95-2701 | and hence over every run |
| `RequestInvariants.WorkflowGuarantees` | src/modules/maintenance-requests/maintenance-requests.service.ts:95-2701 | from submission on, over every run of all operations: stamps, completion against policy, exclusive executor, parking, decision, and an audit log that links up, ends at the current status and counts like the events |
| `RequestInvariants.CompletedIsFrozen` | src/modules/maintenance-requests/maintenance-requests.constants.ts:81-94 | no run changes anything about a COMPLETED request |
| `RequestInvariants.CanceledOnlySettlesApproval` | src/modules/owner-portfolio/owner-portfolio-scope.service.ts:386-530 | no run changes anything about a CANCELED request but a pending approval that its owner still answers |
| `RequestInvariants.UnassignNeverResetsAnEstimate` | src/modules/maintenance-requests/maintenance-requests.service.ts:891-944 | the estimate-reset branch of unassignProvider is never reached |
| `RequestInvariants.StepSpendsWhatIsOwed` | src/modules/maintenance-requests/maintenance-requests.repo.ts:443-466 | a reminder needs an unreminded outstanding estimate, and only asking for one creates it |
| `RequestInvariants.RemindersAreBounded` | src/modules/maintenance-requests/maintenance-request-estimate-monitor.service.ts:51-73 | over any run from any record, reminders sent plus owed grow by at most the estimates asked for |
| `RequestInvariants.RemindersNeverExceedEstimates` | src/modules/maintenance-requests/maintenance-request-estimate-monitor.service.ts:51-73 | with any number of monitors interleaved with the operations, a request is reminded about at most as often as an estimate was requested for it |
| `RequestInvariants.SubmissionStoresItsRoute` | src/modules/maintenance-requests/maintenance-requests.service.ts:2584-2701 | the row stored by an estimate submission has the route the submission decided on; approval is opened exactly when that route asks for it and there is a unit |
| `RequestProgress.SubmissionOutcome` | src/modules/maintenance-requests/maintenance-requests.service.ts:2551-2701 | submitting an estimate ends the wait for it and leaves either a pending approval or nothing blocking |
| `RequestProgress.OverrideFrees` | src/modules/maintenance-requests/maintenance-requests.service.ts:1372-1456 | an emergency override of a pending approval leaves nothing blocking and touches no triage flag |
| `RequestProgress.RequirementIsAccepted` | src/modules/maintenance-requests/maintenance-requests.service.ts:1022-1099 | approval can be required of every blocked request that has a unit and no outstanding estimate |
| `RequestProgress.UnlockPlanWorks` | src/modules/maintenance-requests/maintenance-requests.service.ts:2339-2380 | at most two accepted operations leave nothing blocking, at any price if there is a unit |
| `RequestProgress.FinishPlanWorks` | src/modules/maintenance-requests/maintenance-requests.service.ts:955-1020 | at most three accepted status changes then reach COMPLETED |
| `RequestProgress.CompletionWithinFiveSteps` | src/modules/maintenance-requests/maintenance-requests.service.ts:955-1456 | no deadlock: from every request neither closed nor ownerless a privileged manager reaches COMPLETED in at most five accepted operations, whatever flags, amounts, approval and estimate state |
| `RequestProgress.UnitIsKept` | src/modules/maintenance-requests/maintenance-requests.service.ts:95-156 | no run takes the unit away |
| `RequestProgress.ReachableRequestsCanBeCompleted` | src/modules/maintenance-requests/maintenance-requests.service.ts:95-156 | every open request reachable from a resident's submission can be completed in at most five operations |
| `RequestProgress.OwnerlessIsNeverCompleted` | src/modules/maintenance-requests/maintenance-requests.service.ts:1022-1099 | the exception: a request without a unit that changes the property, is not urgent and is not approved is completed by no run that leaves what is said about the work alone |
| `RequestProgress.CompletableExactlyUnlessOwnerless` | src/modules/maintenance-requests/maintenance-requests.service.ts:955-1456 | an open request can be completed without changing what is said about the work if and only if it is not ownerless, and then five operations are enough |
| `RequestProgress.DeclaringAnEmergencyUnlocks` | src/modules/maintenance-requests/maintenance-requests.service.ts:1239-1284 | declaring an emergency ends the exception |
| `RequestService.MaintenanceRequests.CreateResidentRequest` | src/modules/maintenance-requests/maintenance-requests.service.ts:95-156 | a new row with the resident's unit, signals without repeats and emergency derived from them; a refusal names its error and changes nothing |
| `RequestService.MaintenanceRequests.UpdateResidentRequest` | src/modules/maintenance-requests/maintenance-requests.service.ts:193-253 | only an OPEN request of its creator changes, and only its intake; a refusal names its error and changes nothing |
| `RequestService.MaintenanceRequests.CancelResidentRequest` | src/modules/maintenance-requests/maintenance-requests.service.ts:255-301 | cancels a request of its creator that is not closed, with one event; a refusal names its error and changes nothing |
| `RequestService.MaintenanceRequests.CancelBuildingRequest` | src/modules/maintenance-requests/maintenance-requests.service.ts:1458-1526 | cancels any request that is not closed, with one event; a refusal names its error and changes nothing |
| `RequestService.MaintenanceRequests.AssignRequest` | src/modules/maintenance-requests/maintenance-requests.service.ts:471-566 | assigns staff if nothing blocks execution, clearing provider and worker; a refusal names its error and changes nothing |
| `RequestService.MaintenanceRequests.AssignServiceProvider` | src/modules/maintenance-requests/maintenance-requests.service.ts:568-652 | assigns a provider if nothing blocks execution, clearing staff and worker; a refusal names its error and changes nothing |
| `RequestService.MaintenanceRequests.RequestEstimateFromProvider` | src/modules/maintenance-requests/maintenance-requests.service.ts:654-777 | parks the request with the provider: estimate REQUESTED with a due date, no executor at work, reminder reset; a refusal names its error and changes nothing |
| `RequestService.MaintenanceRequests.AssignProviderWorker` | src/modules/maintenance-requests/maintenance-requests.service.ts:779-866 | assigns a worker of the assigned provider; a refusal names its error and changes nothing |
| `RequestService.MaintenanceRequests.AssignProviderWorkerFromProvider` | src/modules/maintenance-requests/maintenance-requests.service.ts:2051-2123 | the same by the provider itself; a refusal names its error and changes nothing |
| `RequestService.MaintenanceRequests.UnassignServiceProvider` | src/modules/maintenance-requests/maintenance-requests.service.ts:868-953 | takes provider and worker off and reopens the request; a refusal names its error and changes nothing |
| `RequestService.MaintenanceRequests.UpdateRequestStatus` | src/modules/maintenance-requests/maintenance-requests.service.ts:955-1020 | moves along the transition table, guarded by the execution lock, stamping completion; a refusal names its error and changes nothing |
| `RequestService.MaintenanceRequests.UpdateProviderRequestStatus` | src/modules/maintenance-requests/maintenance-requests.service.ts:1813-1868 | the provider's own moves along the same table, under the same lock; a refusal names its error and changes nothing |
| `RequestService.MaintenanceRequests.RequireOwnerApproval` | src/modules/maintenance-requests/maintenance-requests.service.ts:1022-1099 | opens approval with one REQUIRED row; a refusal names its error and changes nothing |
| `RequestService.MaintenanceRequests.RequestOwnerApprovalNow` | src/modules/maintenance-requests/maintenance-requests.service.ts:1101-1209 | opens approval and asks the owner, with one or two rows and one event; a refusal names its error and changes nothing |
| `RequestService.MaintenanceRequests.RequestOwnerApproval` | src/modules/maintenance-requests/maintenance-requests.service.ts:1211-1223 | asks the owner of a pending approval, once; a refusal names its error and changes nothing |
| `RequestService.MaintenanceRequests.ResendOwnerApprovalRequest` | src/modules/maintenance-requests/maintenance-requests.service.ts:1225-1237 | asks again, only after having asked; a refusal names its error and changes nothing |
| `RequestService.MaintenanceRequests.MarkOwnerApprovalRequested` | src/modules/maintenance-requests/maintenance-requests.service.ts:2125-2214 | what asking and asking again share; a refusal names its error and changes nothing |
| `RequestService.MaintenanceRequests.UpdateRequestPolicyTriage` | src/modules/maintenance-requests/maintenance-requests.service.ts:1239-1284 | changes the triage flags that are given, and no other; a refusal names its error and changes nothing |
| `RequestService.MaintenanceRequests.SubmitRequestEstimate` | src/modules/maintenance-requests/maintenance-requests.service.ts:1286-1331 | stores amount and triage and opens approval if the new route needs it; a refusal names its error and changes nothing |
| `RequestService.MaintenanceRequests.SubmitProviderRequestEstimate` | src/modules/maintenance-requests/maintenance-requests.service.ts:1333-1370 | the same by the assigned provider; a refusal names its error and changes nothing |
| `RequestService.MaintenanceRequests.SubmitInTx` | src/modules/maintenance-requests/maintenance-requests.service.ts:2551-2701 | what both submissions share; a refusal names its error and changes nothing |
| `RequestService.MaintenanceRequests.OverrideOwnerApproval` | src/modules/maintenance-requests/maintenance-requests.service.ts:1372-1456 | approves a pending approval under the override permission, a management override only past its deadline, with one row and one event; a refusal names its error and changes nothing |
| `RequestService.MaintenanceRequests.ApproveAccessibleRequest` | src/modules/owner-portfolio/owner-portfolio-scope.service.ts:386-457 | an owner approves a pending approval, with one row and one event; a refusal changes nothing |
| `RequestService.MaintenanceRequests.RejectAccessibleRequest` | src/modules/owner-portfolio/owner-portfolio-scope.service.ts:459-530 | an owner rejects a pending approval, with one row and one event; a refusal changes nothing |
| `RequestService.MaintenanceRequests.MarkAndRemind` | src/modules/maintenance-requests/maintenance-requests.repo.ts:443-466 | the conditional update: marks and reminds exactly if an estimate is still outstanding, due and unreminded |
| `RequestService.MaintenanceRequests.ScanAndEmitReminders` | src/modules/maintenance-requests/maintenance-request-estimate-monitor.service.ts:51-73 | over any listing, however stale: every listed request still due is reminded once, no other is touched, and the count is their number |
| `RequestService.ServiceKeepsGuarantees` | src/modules/maintenance-requests/maintenance-requests.service.ts:95-2701 | whatever method served a request, the guarantees hold of it afterwards |
| `LeaseHistory.BuildLeaseChangeSet` | src/modules/leases/lease-history.util.ts:80-95 | the change set holds exactly the tracked fields whose normalized values differ, with both values |
| `LeaseHistory.BuildChangeSet` | src/modules/leases/lease-history.util.ts:84-94 | the loop over the fields, for any list of fields |
| `LeaseHistory.RecordingKeepsReplay` | src/modules/leases/lease-history.util.ts:80-99 | recording the difference keeps every "from" equal to the value replayed so far and makes the history replay to the new row; other leases replay as before |
| `LeaseHistory.UnchangedKeepsReplay` | src/modules/leases/leases.service.ts:370-379 | if the change set is empty, leaving it out loses nothing |
| `LeaseHistory.NoRowsReplayToNothing` | src/modules/leases/lease-history.util.ts:97-99 | a lease without history replays to the all-null record its creation is compared with |
| `TenancyInvariants.AddingAStay` | prisma/migrations/20260131120000_occupancy_active_constraints/migration.sql:2-7 | a stay added to a free unit for an unhoused resident keeps one ACTIVE stay per unit and per resident, and is linked from nowhere |
| `TenancyInvariants.DraftKeeps` | src/modules/leases/contracts.service.ts:94-220 | drafting a contract keeps the tables consistent |
| `TenancyInvariants.UpdateKeeps` | src/modules/leases/contracts.service.ts:401-568 | updating a contract or a lease keeps them consistent |
| `TenancyInvariants.ActivateKeeps` | src/modules/leases/contracts.service.ts:570-604 | so does activating |
| `TenancyInvariants.CancelKeeps` | src/modules/leases/contracts.service.ts:606-670 | so does cancelling, with the move-out it makes |
| `TenancyInvariants.MoveInKeeps` | src/modules/leases/lease-lifecycle.service.ts:60-349 | so does a direct move-in |
| `TenancyInvariants.MovedOutKeeps` | src/modules/leases/lease-lifecycle.service.ts:351-496 | so does a move-out, and the stay is not ACTIVE after it |
| `TenancyInvariants.RequestMoveInKeeps` | src/modules/leases/contracts.service.ts:785-863 | so does a move-in request |
| `TenancyInvariants.RequestMoveOutKeeps` | src/modules/leases/contracts.service.ts:865-945 | so does a move-out request |
| `TenancyInvariants.ReviewMoveInKeeps` | src/modules/leases/contracts.service.ts:1172-1264 | so does approving or rejecting a move-in |
| `TenancyInvariants.ReviewMoveOutKeeps` | src/modules/leases/contracts.service.ts:1266-1358 | so does approving or rejecting a move-out |
| `TenancyInvariants.ExecuteMoveInKeeps` | src/modules/leases/contracts.service.ts:1360-1452 | so does executing an approved move-in, which completes the one request it can complete |
| `TenancyInvariants.ExecuteMoveOutKeeps` | src/modules/leases/contracts.service.ts:1454-1523 | so does executing an approved move-out |
| `TenancyInvariants.CreateOccupancyKeeps` | src/modules/occupancies/occupancies.service.ts:29-80 | so does an occupancy created without a contract |
| `TenancyInvariants.GrantKeeps` | src/modules/users/org-user-lifecycle.service.ts:416-534 | so does granting, moving or ending a residence |
| `TenancyInvariants.StepKeeps` | src/modules/leases/contracts.service.ts:94-1523 | every operation keeps the tables consistent |
| `TenancyInvariants.RunKeeps` | src/modules/leases/contracts.service.ts:94-1523 | and so does every run |
| `TenancyInvariants.TenancyGuarantees` | src/modules/leases/contracts.service.ts:94-1523 | over every run: one ACTIVE occupancy per unit and per resident; no occupancy linked twice; links agree on unit, building and resident, and an ACTIVE linked stay means an ACTIVE lease; only the newest request of a lease can be open; a moved-in lease has no open move-in request and at most one completed; the history replays to every current row |
| `TenancyProperties.NewestTellsOpen` | src/modules/leases/contracts.service.ts:714-783 | looking at the newest request of a contract is as good as looking for an open one |
| `TenancyProperties.AdvertisedMoveOutIsAccepted` | src/modules/leases/contracts.service.ts:714-945 | canRequestMoveOut is true exactly when createResidentMoveOutRequest succeeds |
| `TenancyProperties.AdvertisedMoveInIsAccepted` | src/modules/leases/contracts.service.ts:714-863 | createResidentMoveInRequest succeeds exactly when canRequestMoveIn is true and the contract was never moved into |
| `TenancyProperties.ReactivatedContractAdvertisesInVain` | src/modules/leases/contracts.service.ts:570-863 | a moved-in contract, cancelled and activated again, advertises a move-in that is refused to everyone |
| `TenancyProperties.ApprovedRequestIsForced` | src/modules/leases/contracts.service.ts:1381-1523 | at most one request of a contract is approved, so the order in which an execution looks for it does not matter |
| `TenancyProperties.StepKeepsEndings` | src/modules/leases/lease-lifecycle.service.ts:363-463 | no operation changes an ENDED status, an existing link, a unit, a building or a named resident |
| `TenancyProperties.EndedLeasesStayEnded` | src/modules/leases/lease-lifecycle.service.ts:363-463 | and no run does |
| `Tenancy.Refund` | src/modules/leases/lease-lifecycle.service.ts:403-418 | without a stated refund, it is what is left of the deposit after the deductions, never negative |
| `Tenancy.FirstApproved` | src/modules/leases/contracts.service.ts:1381-1396 | an approved request of the contract is returned if there is one |
| `TenancyProperties.SettlementWritesTheForm` | src/modules/leases/lease-lifecycle.service.ts:403-463 | the settled lease is ENDED and carries the form, clearing what it leaves out; no column but the form's, the date, the deductions and the refund changes |
| `TenancyProperties.MoveOutEndsOneTenancy` | src/modules/leases/lease-lifecycle.service.ts:363-477 | an accepted move-out ends one stay and one lease on its date and adds one history row; every other stay, every other lease and every other table is as before |
| `TenancyProperties.CancelLeavesNothingOpen` | src/modules/leases/contracts.service.ts:606-670 | cancelling houses nobody and leaves no request of the contract open |
| `TenancyProperties.WithdrawingLeavesNothingOpen` | src/modules/leases/contracts.service.ts:627-646 | settled requests and those of other contracts stay as they were |
| `TenancyProperties.ExecutionMovesIn` | src/modules/leases/contracts.service.ts:1360-1452 | an accepted execution houses the contract's resident in its unit from now on, links the stay and completes the request it acted on; every other stay, lease, request and table is as before |
| `TenancyExpectations.StepKeepsOneContractExactly` | src/modules/leases/contracts.service.ts:94-1523 | a step of any operation keeps one ACTIVE contract per unit if and only if it is neither an activation nor a direct move-in beside another ACTIVE contract of the unit |
| `TenancyExpectations.NothingElseActivates` | src/modules/leases/contracts.service.ts:94-1523 | no operation but those two makes a lease ACTIVE or moves it to another unit |
| `TenancyExpectations.ClashFreeRunsKeepOneContract` | src/modules/leases/contracts.service.ts:94-1523 | so every run without such a step keeps it |
| `TenancyExpectations.TwoActiveContractsAreReachable` | src/modules/leases/contracts.service.ts:94-604 | any two drafts of one unit can both be activated |
| `TenancyExpectations.MoveInBesideAContractIsReachable` | src/modules/leases/lease-lifecycle.service.ts:60-160 | anyone can be moved into the unit of an ACTIVE contract that nobody lives under |
| `TenancyExpectations.StepKeepsLiveLinksExactly` | src/modules/leases/contracts.service.ts:94-1523 | a step of any operation leaves an ACTIVE stay behind every ACTIVE linked lease if and only if it neither activates a linked lease that is not ACTIVE nor is a grant that ends a stay a lease is linked to |
| `TenancyExpectations.LeavingStrands` | src/modules/users/org-user-lifecycle.service.ts:434-507 | moving a resident out, or on, strands a lease exactly when a stay it ends is linked from one |
| `TenancyExpectations.StepKeepsTheStatusReplayExactly` | src/modules/leases/contracts.service.ts:94-1523 | the replayed status of a lease survives a step of any operation if and only if the step does not activate a contract that is not ACTIVE, cancel one that is not CANCELLED, or execute a move-out dated before the end |
| `TenancyExpectations.NewLeasesReplay` | src/modules/leases/lease-history.util.ts:97-99 | the status of every new lease replays from its creation |
| `TenancyExpectations.MoveOutMendsTheReplay` | src/modules/leases/lease-lifecycle.service.ts:465-477 | a move-out sets the replayed status right, whatever it was, and touches that of no other lease |
| `TenancyExpectations.StuckForGood` | src/modules/leases/contracts.service.ts:606-1523 | an approved move-out request of an ENDED lease is settled by no run, and neither executing it nor cancelling its contract is ever accepted again |
| `TenancyExpectations.MoveOutLeavesTheRequestStuck` | src/modules/leases/contracts.service.ts:1483-1521 | a move-out beside an approved request leaves it so: a plain one, and the one that a cancellation or an execution commits before it crashes |
| `TenancyExpectations.SettledBySomeRunExactly` | src/modules/leases/contracts.service.ts:606-1523 | some run settles an open move-out request if and only if its lease has not ended or it is not approved yet |
| `TenancyExpectations.MoveInsCanBeSettled` | src/modules/leases/contracts.service.ts:606-670 | an open move-in request can always be settled |
| `TenancyExpectations.StrandedLeaseIsReachable` | src/modules/users/org-user-lifecycle.service.ts:434-507 | moving in and then leaving by a grant ends with an ACTIVE lease whose stay is over |
| `TenancyExpectations.UnreplayableStatusIsReachable` | src/modules/leases/contracts.service.ts:570-604 | drafting and then activating ends with an ACTIVE contract whose history replays to DRAFT |
| `LegalTerms.PatchKeepsTermsExactly` | src/modules/leases/contracts.service.ts:447-568 | a patch keeps the legal terms exactly when it repeats those it names within the columns of its operation |
| `LegalTerms.LockedPatchRepeats` | src/modules/leases/contracts.service.ts:409-445 | an update that the lock lets through names no legal term |
| `LegalTerms.StepKeepsLegalTermsExactly` | src/modules/leases/contracts.service.ts:94-1523 | a step of any operation keeps the legal terms of a registered contract if and only if it is neither updateLease of it, nor updateContract of it while it is not ACTIVE, with a patch that does not repeat the terms it names |
| `LegalTerms.RewriteFreeRunsKeepTerms` | src/modules/leases/contracts.service.ts:94-1523 | so every run without such a step keeps the contract registered under the same legal terms |
| `LegalTerms.CancelUpdateActivateRewrites` | src/modules/leases/contracts.service.ts:401-670 | cancel, update and activate leaves the contract active and registered under other legal terms, whatever else the tables hold |
| `LegalTerms.LeaseUpdateRewrites` | src/modules/leases/leases.service.ts:331-382 | so does one updateLease with another rent, of any lease with a valid period |
| `LegalTerms.TheLockIsBypassedFromEmpty` | src/modules/leases/contracts.service.ts:401-670 | both happen to a contract that was drafted and activated from empty tables |
| `TenancyStays.StepOnStays` | src/modules/leases/lease-lifecycle.service.ts:180-463 | what a step of any operation does to the stays: some are left, one may end, one may begin, and no other changes |
| `TenancyStays.StayLivesOnExactly` | src/modules/users/org-user-lifecycle.service.ts:434-507 | a stay is ACTIVE after a step if and only if it was, no grant left it and no move-out ended it |
| `TenancyStays.StepKeepsStaysApartExactly` | src/modules/leases/lease-lifecycle.service.ts:180-463 | a resident's stays in a unit stay apart through a step of any operation if and only if it neither begins a stay by the end of an earlier one nor moves an end past the beginning of a later one |
| `TenancyStays.RunsKeepStaysApart` | src/modules/leases/lease-lifecycle.service.ts:180-463 | and through every run without such a step |
| `TenancyStays.InferenceIsRightWhileApart` | src/modules/maintenance-requests/request-tenancy-context.enricher.ts:262-287 | while they are apart, the occupancy inferred for a request is the stay covering its creation, and one is inferred exactly if there is one |
| `TenancyStays.OverlappingStaysAreReachable` | src/modules/leases/lease-lifecycle.service.ts:244-260 | a move-in dated back to the lease start, after the resident has left, overlaps with the first stay |
| `TenancyService.TenancyTables.CreateDraftContract` | src/modules/leases/contracts.service.ts:94-220 | drafts a contract, with the snapshots on record where none is stated; the tables are the next state of the operation, or unchanged with its error |
| `TenancyService.TenancyTables.UpdateContractTerms` | src/modules/leases/contracts.service.ts:401-568 | updates contract terms, legal ones locked on an active registered contract; the tables are the next state of the operation, or unchanged with its error |
| `TenancyService.TenancyTables.UpdateLeaseTerms` | src/modules/leases/leases.service.ts:331-382 | updates lease terms; the tables are the next state of the operation, or unchanged with its error |
| `TenancyService.TenancyTables.Activate` | src/modules/leases/contracts.service.ts:570-604 | activates; the tables are the next state of the operation, or unchanged with its error |
| `TenancyService.TenancyTables.Cancel` | src/modules/leases/contracts.service.ts:606-670 | cancels, moving out first if moved in, and withdraws open requests; the tables are the next state of the operation, or unchanged with its error |
| `TenancyService.TenancyTables.DoMoveIn` | src/modules/leases/lease-lifecycle.service.ts:60-349 | creates stay and lease; the tables are the next state of the operation, or unchanged with its error |
| `TenancyService.TenancyTables.DoMoveOut` | src/modules/leases/lease-lifecycle.service.ts:351-496 | ends stay and lease and settles the deposit; the tables are the next state of the operation, or unchanged with its error |
| `TenancyService.TenancyTables.CreateMoveInRequest` | src/modules/leases/contracts.service.ts:785-863 | adds a pending move-in request; the tables are the next state of the operation, or unchanged with its error |
| `TenancyService.TenancyTables.CreateMoveOutRequest` | src/modules/leases/contracts.service.ts:865-945 | adds a pending move-out request; the tables are the next state of the operation, or unchanged with its error |
| `TenancyService.TenancyTables.ReviewMoveInRequest` | src/modules/leases/contracts.service.ts:1172-1264 | approves or rejects a pending move-in request; the tables are the next state of the operation, or unchanged with its error |
| `TenancyService.TenancyTables.ReviewMoveOutRequest` | src/modules/leases/contracts.service.ts:1266-1358 | approves or rejects a pending move-out request; the tables are the next state of the operation, or unchanged with its error |
| `TenancyService.TenancyTables.ExecuteApprovedMoveIn` | src/modules/leases/contracts.service.ts:1360-1452 | creates the stay, links the lease, completes the request; the tables are the next state of the operation, or unchanged with its error |
| `TenancyService.TenancyTables.ExecuteApprovedMoveOut` | src/modules/leases/contracts.service.ts:1454-1523 | moves out on the requested date, completes the request, cancels a contract left early; the tables are the next state of the operation, or unchanged with its error |
| `TenancyService.TenancyTables.CreateStay` | src/modules/occupancies/occupancies.service.ts:29-80 | creates a stay without a contract; the tables are the next state of the operation, or unchanged with its error |
| `TenancyService.TenancyTables.ApplyResidentGrant` | src/modules/users/org-user-lifecycle.service.ts:416-534 | adds, moves or ends a residence, rolled back if the database refuses the new stay; the tables are the next state of the operation, or unchanged with its error |
| `TenancyService.ServiceKeepsConsistent` | src/modules/leases/contracts.service.ts:94-1523 | whatever method ran, the tables stay consistent |
| `Timeline.CompareTextIsTotal` | src/modules/leases/leases.service.ts:562-563 | texts compare equal only if equal, and one way round or the other |
| `Timeline.BeforeIsTotal` | src/modules/leases/leases.service.ts:552-563 | in both orders, two different keys are one before the other, never both |
| `Timeline.BeforeIsTransitive` | src/modules/leases/leases.service.ts:552-563 | in both orders, before is transitive |
| `Timeline.SortSorts` | src/modules/leases/leases.service.ts:173-179 | sorting yields the same items in order |
| `Timeline.SortedListingIsUnique` | src/modules/leases/leases.service.ts:173-179 | there is only one such listing |
| `Timeline.CursorRoundTrip` | src/modules/leases/leases.service.ts:565-615 | a cursor decodes to the key it encodes, exactly when the key has an identifier |
| `Timeline.LimitIsTheNearest` | src/modules/leases/leases.service.ts:125 | the limit asked for, or the nearest one between 1 and 100; 20 if none is asked for |
| `Timeline.GetLeaseTimeline` | src/modules/leases/leases.service.ts:112-226 | the page merged, sorted, date-filtered, cut at the cursor and sliced in memory is the page of the listing after the cursor; missing leases, reversed dates and bad cursors are refused |
| `TimelinePaging.ListingHolds` | src/modules/leases/leases.service.ts:135-191 | the listing holds exactly the rows asked for within the dates |
| `TimelinePaging.PageTakesAPrefix` | src/modules/leases/leases.service.ts:193-211 | a page is the first rows past its cursor, never empty if there are any, with a next cursor exactly if more are left |
| `TimelinePaging.NextCursor` | src/modules/leases/leases.service.ts:203-211 | the next cursor is the key of the last row delivered |
| `TimelinePaging.SessionStaysAhead` | src/modules/leases/leases.service.ts:193-211 | over any session, even while rows are added, the rows delivered are in order and never repeat |
| `TimelinePaging.SessionDelivers` | src/modules/leases/leases.service.ts:112-226 | of the rows listed from the start, a session delivers exactly those past its first cursor, whatever is added meanwhile |
| `TimelinePaging.PagesConcatenateToListing` | src/modules/leases/leases.service.ts:112-226 | while nothing changes, the concatenated pages are the listing, for every limit and both orders |
| `TimelinePaging.DeliveredRowsAreListed` | src/modules/leases/leases.service.ts:112-226 | nothing is delivered that was not listed |
| `TimelinePaging.SessionExists` | src/modules/leases/leases.service.ts:112-226 | following the cursors ends: from every acceptable first query there is a finite session |
| `TimelinePaging.LessIsLeft` | src/modules/leases/leases.service.ts:203-211 | every page leaves fewer rows to the next |
| `TimelinePaging.NewerRowsDoNotDisturb` | src/modules/leases/leases.service.ts:112-226 | newest first with newer rows arriving: the reader sees exactly the listing as it was when the first page was read |
| `DeliveryTasks.DeliveryTasksRepo.Create` | src/infra/queue/delivery-tasks.repo.ts:50-99 | stores a PENDING row |
| `DeliveryTasks.DeliveryTasksRepo.Update` | src/infra/queue/delivery-tasks.repo.ts:539-584 | replaces a row; a missing one stays missing |
| `DeliveryTasks.DeliveryTasksRepo.MarkProcessing` | src/infra/queue/delivery-tasks.repo.ts:392-417 | counts the attempt and stamps the first one; done rows are left alone |
| `DeliveryTasks.DeliveryTasksRepo.ClaimForRetry` | src/infra/queue/delivery-tasks.repo.ts:419-461 | claims a FAILED row that was not replaced, and no other |
| `DeliveryTasks.DeliveryTasksRepo.ReleaseRetryClaim` | src/infra/queue/delivery-tasks.repo.ts:463-474 | gives a claim back |
| `DeliveryTasks.DeliveryTasksRepo.MarkRetried` | src/infra/queue/delivery-tasks.repo.ts:476-491 | names the replacement |
| `DeliveryTasks.DeliveryTasksRepo.MarkRetryScheduled` | src/infra/queue/delivery-tasks.repo.ts:493-506 | back to PENDING with the error |
| `DeliveryTasks.DeliveryTasksRepo.MarkFailed` | src/infra/queue/delivery-tasks.repo.ts:508-522 | FAILED with time and error |
| `DeliveryTasks.DeliveryTasksRepo.MarkSucceeded` | src/infra/queue/delivery-tasks.repo.ts:524-537 | SUCCEEDED with time, error cleared |
| `DeliveryTasks.DeliveryTasksRepo.CleanupTerminalOlderThan` | src/infra/queue/delivery-tasks.repo.ts:356-390 | counts the old finished rows, and deletes exactly those unless it is a dry run |
| `BroadcastDelivery.StepKeepsGood` | src/modules/broadcasts/broadcast-delivery.service.ts:87-181 | every step of an attempt, of a crash, of a redelivery and of a retry keeps: notifications stored once exactly if SUCCEEDED |
| `BroadcastDelivery.RunKeepsGood` | src/modules/broadcasts/broadcast-delivery.service.ts:87-181 | and so does every sequence of steps |
| `BroadcastDelivery.ExactlyOnceFanout` | src/modules/broadcasts/broadcast-delivery.service.ts:87-181 | crash-safe exactly-once: the notifications stored are the recipients once if SUCCEEDED and none otherwise; FAILED and RETRIED only with the attempts used up |
| `BroadcastDelivery.PublishFailureRepeats` | src/modules/broadcasts/broadcast-delivery.service.ts:131-181 | an error thrown while publishing after the commit stores the notifications twice, exactly when there is someone to notify: the assumption is needed |
| `BroadcastDelivery.FailedInlineAttemptIsRetryableExactly` | src/modules/broadcasts/broadcast-delivery.service.ts:55-85 | a failed inline attempt can be retried by the platform exactly when its attempts are used up |
| `BroadcastDelivery.AttemptIsItsSteps` | src/modules/broadcasts/broadcast-delivery.service.ts:87-181 | an attempt, wherever it crashes or fails, is a run of the protocol |
| `BroadcastDelivery.AttemptKeepsOrder` | src/modules/broadcasts/broadcast-delivery.service.ts:87-181 | so an attempt keeps every delivery in order |
| `BroadcastDelivery.RetryIsItsSteps` | src/modules/platform/platform-delivery-tasks.service.ts:191-230 | a retry, however it ends, is a run of the protocol on the delivery it replaces |
| `BroadcastDelivery.BroadcastDeliveryService.ProcessTask` | src/modules/broadcasts/broadcast-delivery.service.ts:87-181 | one attempt does to status, attempts and notifications what the protocol does, and touches no other delivery |
| `BroadcastDelivery.BroadcastDeliveryService.EnqueueFanoutTask` | src/modules/broadcasts/broadcast-delivery.service.ts:33-85 | creates, then queues or attempts inline, and crashes exactly when the inline attempt does |
| `BroadcastDelivery.BroadcastDeliveryService.Retry` | src/modules/platform/platform-delivery-tasks.service.ts:191-230 | claims, replaces by a new delivery and marks as retried; without a replacement the claim is released and everything is as it was; a crash of the attempt made in place of queueing loses the mark |
| `BroadcastChain.ChainRunKeepsGood` | src/modules/platform/platform-delivery-tasks.service.ts:191-230 | over every run on all deliveries of a broadcast, retries and crashes included, there is one live delivery and one more for each lost mark |
| `BroadcastChain.AtMostOneCopyPerLostMark` | src/modules/platform/platform-delivery-tasks.service.ts:191-230 | the notifications of a broadcast are stored once for each delivery that succeeded, and at most once more than retries have lost their mark |
| `BroadcastChain.OnceUnlessAMarkIsLost` | src/modules/platform/platform-delivery-tasks.service.ts:191-230 | with no mark lost, a broadcast is stored once or not at all |
| `BroadcastChain.RepeatableExactlyAfterALostMark` | src/modules/platform/platform-delivery-tasks.service.ts:191-230 | losing no further mark, a broadcast to somebody can still be stored more than once if and only if a mark was lost already |
| `BroadcastChain.RepeatableExactlyWithTwoUnreplaced` | src/modules/platform/platform-delivery-tasks.service.ts:191-230 | which the deliveries on record show: while no retry stands between replacement and mark, exactly if two deliveries of the broadcast are not RETRIED |
| `BroadcastChain.TwoCopiesAreReachable` | src/modules/platform/platform-delivery-tasks.service.ts:217-226 | every broadcast can be stored twice: its attempts run out, a retry loses its mark, both deliveries succeed |
| `BroadcastChain.RetryIsAChainRun` | src/modules/platform/platform-delivery-tasks.service.ts:191-230 | the retry, however it ends, is a run of the chain; it loses its mark in a crash before it and when dispatching the replacement throws |
| `Csv.SplitCsvRow` | src/common/utils/csv.ts:9-47 | the character loop computes the cells |
| `Csv.ParseCsv` | src/common/utils/csv.ts:49-75 | the line loop computes headers and records |
| `Csv.ReadRecord` | src/common/utils/csv.ts:68-71 | missing cells are empty, the last of equal headers wins |
| `CsvRoundTrip.ReadsQuoted` | src/common/utils/csv.ts:14-30 | a quoted field with doubled quotes is read to its closing quote, whatever it holds |
| `CsvRoundTrip.ReadsRow` | src/common/utils/csv.ts:9-47 | every printed row of at least one cell splits into its cells, whatever they hold |
| `CsvRoundTrip.LinesOfPrinted` | src/common/utils/csv.ts:50-56 | the lines of a printed file are the lines of its rows, for LF, CRLF and CR |
| `CsvRoundTrip.BreakTearsTheRow` | src/common/utils/csv.ts:53-56 | a line break inside a field makes at least two lines of its row |
| `CsvRoundTrip.BrokenFile` | src/common/utils/csv.ts:49-75 | a line break in any cell yields more records than rows |
| `CsvRoundTrip.UnbrokenFile` | src/common/utils/csv.ts:49-75 | without line breaks, headers and records come back trimmed |
| `CsvRoundTrip.RoundTripExactly` | src/common/utils/csv.ts:49-75 | a table printed by section 2 of RFC 4180 is read back as it was if and only if every cell is free of line breaks and of surrounding space, for each of the three line endings |
| `CsvRoundTrip.LineEndingDoesNotMatter` | src/common/utils/csv.ts:50-52 | a text parses the same with LF, CRLF or CR |
| `RequestContexts.KeyIsInjective` | src/modules/maintenance-requests/request-tenancy-context.enricher.ts:223 | two pairs of organisation and user never share a key |
| `RequestContexts.DedupeSources` | src/modules/maintenance-requests/request-tenancy-context.enricher.ts:225-234 | the first source of each request is kept |
| `RequestContexts.DedupedKeepsTheFirst` | src/modules/maintenance-requests/request-tenancy-context.enricher.ts:225-234 | the first source given for a request survives |
| `RequestContexts.OwnStays` | src/modules/maintenance-requests/request-tenancy-context.enricher.ts:51-93 | the stays found under a requester's key in the cross-product query are the requester's own, in order |
| `RequestContexts.OwnLeases` | src/modules/maintenance-requests/request-tenancy-context.enricher.ts:95-135 | the same for leases, drafts excluded |
| `RequestContexts.IndexStays` | src/modules/maintenance-requests/request-tenancy-context.enricher.ts:76-93 | the loop indexes history and current stay by key |
| `RequestContexts.IndexLeases` | src/modules/maintenance-requests/request-tenancy-context.enricher.ts:121-135 | the loop indexes history and current lease by key |
| `RequestContexts.BuildRequestTenancyContextMap` | src/modules/maintenance-requests/request-tenancy-context.enricher.ts:34-185 | the batched build yields the contexts worked out source by source |
| `RequestContexts.TenancyBatchIsOneByOne` | src/modules/maintenance-requests/request-tenancy-context.enricher.ts:34-185 | batched with any others, a request gets the context it gets alone; none is left out or invented |
| `RequestContexts.InferredExactlyFromOneCover` | src/modules/maintenance-requests/request-tenancy-context.enricher.ts:262-287 | an occupancy is inferred exactly when one stay and no second covers the creation time |
| `RequestContexts.InferredStayIsTheCoveringOne` | src/modules/maintenance-requests/request-tenancy-context.enricher.ts:262-333 | when the tenant's stays in the unit do not overlap, the inferred occupancy is the one covering the creation time |
| `RequestContexts.InferredLeaseFollowsTheOccupancy` | src/modules/maintenance-requests/request-tenancy-context.enricher.ts:289-328 | an inferred lease covers the creation time, and belongs to the known occupancy if any covering lease does |
| `RequesterContexts.StandingMeans` | src/modules/maintenance-requests/requester-context.enricher.ts:173-213 | ACTIVE, former and never-housed standing, residency and occupancy of the unit, each in terms of the rows on record |
| `RequesterContexts.OccupancyStates` | src/modules/maintenance-requests/requester-context.enricher.ts:120-138 | the loop finds who has any and who has an active stay |
| `RequesterContexts.LatestInvites` | src/modules/maintenance-requests/requester-context.enricher.ts:146-158 | the loop keeps the newest invite of each requester |
| `RequesterContexts.OccupanciesByUnit` | src/modules/maintenance-requests/requester-context.enricher.ts:160-171 | the loop keeps the newest active stay of each unit |
| `RequesterContexts.IndexedRowsAreOwn` | src/modules/maintenance-requests/requester-context.enricher.ts:173-213 | what the four indexes hold for one request is what its own queries would find |
| `RequesterContexts.BuildRequesterContextMap` | src/modules/maintenance-requests/requester-context.enricher.ts:25-216 | the batched build yields the contexts worked out source by source |
| `RequesterContexts.RequesterBatchIsOneByOne` | src/modules/maintenance-requests/requester-context.enricher.ts:25-216 | batched with any others, a request gets the context it gets alone |
| `PasswordTokens.IssueKeeps` | src/modules/auth/auth.repo.ts:63-82 | issuing keeps: a stored token is the one issued last to its user, and resets never outnumber issues |
| `PasswordTokens.SendInviteKeeps` | src/modules/auth/auth.repo.ts:84-103 | sending an invite keeps the counts of invites |
| `PasswordTokens.FailInviteKeeps` | src/modules/auth/auth.repo.ts:105-120 | marking an invite failed takes it out of SENT, once |
| `PasswordTokens.TokensAfterUse` | src/modules/auth/auth.repo.ts:159-266 | a reset marks its token used, removes the user's others and touches nobody else's |
| `PasswordTokens.ResetKeeps` | src/modules/auth/auth.repo.ts:122-270 | a reset keeps all of this |
| `PasswordTokens.RunKeeps` | src/modules/auth/auth.repo.ts:63-270 | and so does every run |
| `PasswordTokens.TokenGuarantees` | src/modules/auth/auth.repo.ts:63-270 | over every run: one stored token per user; a token that works is the one issued last; it resets at most as often as it was issued; an invite is sent once and leaves SENT at most once; ACCEPTED only by a reset with its token |
| `PasswordTokens.WorksAtMostOnce` | src/modules/auth/auth.repo.ts:122-148 | after its reset, or after another issue to its user, a token is refused at every later moment of every run that does not issue it again |
| `PasswordTokens.SettledInvitesStay` | src/modules/auth/auth.repo.ts:105-177 | an invite that has left SENT never changes again |
| `PasswordTokens.InviteAcceptedExactly` | src/modules/auth/auth.repo.ts:164-177 | a resident's reset leaves the invite ACCEPTED exactly when it had not failed |
| `PasswordTokens.PendingAreFound` | src/modules/auth/auth.repo.ts:179-196 | exactly the user's pending owner grants are found |
| `PasswordTokens.OwnerInviteActivatesExactlyItsGrants` | src/modules/auth/auth.repo.ts:179-241 | an owner's reset activates each pending grant of the user and no other, and leaves none pending |
| `PasswordTokens.ProviderInviteActivatesExactlyItsGrants` | src/modules/auth/auth.repo.ts:243-259 | a provider's reset activates exactly the user's pending provider grants, and no other purpose touches them |
| `PasswordTokens.ActivationsAreRecordedOnce` | src/modules/auth/auth.repo.ts:212-240 | a reset appends one audit row and one notification for each owner grant that was pending, in the same order and no other; a reset for another purpose appends none |
| `PasswordService.PasswordTables.CreatePasswordResetToken` | src/modules/auth/auth.repo.ts:63-82 | the transaction is the issue step |
| `PasswordService.PasswordTables.CreateResidentInvite` | src/modules/auth/auth.repo.ts:84-103 | is the invite step |
| `PasswordService.PasswordTables.MarkResidentInviteFailed` | src/modules/auth/auth.repo.ts:105-120 | is the failure step, from SENT only |
| `PasswordService.PasswordTables.ActivateOwnerGrants` | src/modules/auth/auth.repo.ts:198-241 | the loop over grants, audit rows and notifications |
| `PasswordService.PasswordTables.ResetPasswordByToken` | src/modules/auth/auth.repo.ts:122-270 | the transaction is the reset step, and answers whether the token was usable |
| `PasswordService.PasswordTables.ProcessTask` | src/modules/auth/auth-password-delivery.service.ts:186-240 | one attempt moves the delivery on, also when the e-mail is accepted and the mark is not; giving up the last attempt fails the invite it carried |
| `PasswordService.PasswordTables.CreateAndDispatchTask` | src/modules/auth/auth-password-delivery.service.ts:128-184 | creates, then queues or attempts inline |
| `PasswordService.PasswordTables.RequestPasswordReset` | src/modules/auth/auth.service.ts:145-204 | issues, invites and dispatches for an active user; answers the same for everybody else and changes nothing |
| `PasswordService.PasswordTables.RetryTask` | src/modules/auth/auth-password-delivery.service.ts:67-126 | a new token, invite and delivery take over; without a user, for a missing or an inactive one it is refused and nothing changes |
| `PasswordService.RetryEndsTheEarlierLink` | src/modules/auth/auth-password-delivery.service.ts:67-126 | after a retry the token of the e-mail before it is refused for good, unless that very token is issued again |
| `Names.NormalizeNames` | src/modules/leases/lease-lifecycle.service.ts:594-606 | the loop computes the trimmed list without blanks and repeats |
| `Names.NamesAreKeptOnce` | src/modules/leases/contracts.service.ts:1552-1564 | every name survives in one spelling and only in one |
| `Names.NothingIsLostExactly` | src/modules/leases/lease-lifecycle.service.ts:269-292 | the length check by which a move-in refuses repeated card numbers holds exactly when no entry is blank and no two differ in case only |
| `Parking.RowsMatchExactly` | src/modules/leases/lease-lifecycle.service.ts:616-624 | as many slots are found as were asked for exactly when all are active ones of the building and none is asked for twice |
| `Parking.AllocationHoldsExactly` | src/modules/leases/lease-lifecycle.service.ts:608-644 | an accepted allocation newly holds exactly the slots asked for, all free before |
| `Parking.EndingFreesExactly` | src/modules/leases/lease-lifecycle.service.ts:393-396 | a move-out ends exactly the open allocations of the stay |
| `Parking.SlotsAreHeldOnce` | src/modules/parking/parking.service.ts:470-725 | over every run of allocations and releases a slot is held by one holder at a time |
| `Parking.ParkingTables.AllocateParkingSlots` | src/modules/leases/lease-lifecycle.service.ts:608-644 | allocates all the slots asked for, or none with the error |
| `Parking.ParkingTables.AllocateByCount` | src/modules/parking/parking.service.ts:555-567 | allocates the first available slots of the listing, or none if there are too few |
| `Parking.ParkingTables.EndAllocation` | src/modules/parking/parking.service.ts:600-655 | ends an open allocation, once, and that of a stay only in an active lease context |
| `Parking.ParkingTables.EndAllFor` | src/modules/parking/parking.repo.ts:217-241 | afterwards an allocation is open exactly if it was and somebody else holds it; those ended carry the date, no other changes, and a slot is held exactly by the others |
| `ParkedTenancy.StepKeepsGood` | src/modules/parking/parking.service.ts:398-437 | with parking and tenancy in one state, a step of any operation of either keeps: whoever holds a slot through a stay has an ACTIVE lease on it, and a slot has one holder |
| `ParkedTenancy.RunKeepsGood` | src/modules/parking/parking.service.ts:398-699 | and so does every run |
| `ParkedTenancy.StepKeepsHoldersLivingExactly` | src/modules/users/org-user-lifecycle.service.ts:434-507 | a step of any operation keeps slots with ACTIVE stays only, if and only if it is not a grant that ends a stay holding one |
| `ParkedTenancy.GivenBackExactlyWhileLiving` | src/modules/parking/parking.service.ts:600-659 | a slot of a stay can be given back if and only if the stay is ACTIVE |
| `ParkedTenancy.FreedExactlyByMovingOut` | src/modules/leases/lease-lifecycle.service.ts:393-396 | once the stay is over, a step frees its slot if and only if it moves out the lease of that stay |
| `ParkedTenancy.EverySlotCanBeGivenBack` | src/modules/leases/lease-lifecycle.service.ts:363-396 | and in every reachable state one accepted move-out does |
| `ParkedTenancy.HeldByAPastStayIsReachable` | src/modules/users/org-user-lifecycle.service.ts:434-507 | moving in with a slot and leaving by a grant ends with a slot held by a past stay, which cannot be given back |

## Left out

- RequestService.MaintenanceRequests.CreateResidentRequest: title, description, type and priority are reduced to the two verdicts the keyword tables reach about them; the tables themselves are not modelled, and neither are attachments and the snapshots of occupancy and lease.
- RequestService.MaintenanceRequests.SubmitRequestEstimate: the currency is taken as already trimmed and upper-cased; amounts are reals.
- RequestService.MaintenanceRequests.ScanAndEmitReminders: the listing may hold any rows, however stale and in any order; that at most 50 are listed by due date is not used.
- Requests: comments, attachments, read marks and list endpoints are not modelled; each service call is one atomic step, as its transaction is.
- TenancyService.TenancyTables.UpdateLeaseTerms: row and history row are written in one step, while the program awaits them one after the other.
- TenancyService.TenancyTables.Cancel: the two transactions are one step; a crash between them leaves the move-out, which is an operation of its own, and MoveOutLeavesTheRequestStuck says what that does to the contract's approved request.
- TenancyService.TenancyTables.ExecuteApprovedMoveOut: likewise.
- TenancyService.TenancyTables.CreateDraftContract: additional terms are not modelled; the list normaliser stands in a module of its own.
- TenancyService.TenancyTables.DoMoveOut: the access cards and parking stickers it takes back are not modelled; the parking allocations it ends stand in a module of their own.
- TenancyService.TenancyTables.DoMoveIn: documents, vehicles, cards, stickers, occupants and the resident's profile are not modelled; parking and the list normaliser stand in modules of their own.
- Tenancy.FirstApproved: requests are listed in order of creation, so two of the same instant are told apart.
- Tenancy: lease activity rows, notifications about move requests, additional terms, and the clearing of references when users or occupancies are deleted are not modelled; organisation and building scoping is a parameter.
- LeaseHistory.BuildLeaseChangeSet: dates and decimals are kept as values instead of their ISO text and digits, which are injective.
- Timeline.GetLeaseTimeline: localeCompare is modelled by code-point order; only that it is a total order is used. The sort is an insertion sort; any sort yields the same listing. Base64 and JSON of the cursor are a tagged pair.
- BroadcastDelivery.ExactlyOnceFanout: attempts on one delivery do not overlap and publishing after the commit does not throw; PublishFailureRepeats shows the second to be needed.
- BroadcastChain.AtMostOneCopyPerLostMark: likewise; attempts on different deliveries of a broadcast may overlap, step by step.
- BroadcastDelivery: the push queue, the broadcast row and the push and e-mail transports are outcomes of a step.
- Csv.ParseCsv: a record is a map; header names that are special to JavaScript objects are not distinguished.
- CsvRoundTrip.RoundTripExactly: headers are distinct and every row has as many cells as the header; unquoted printing is not modelled.
- RequestContexts.BuildRequestTenancyContextMap: tables are given in the order their queries sort by; organisation identifiers hold no colon, as UUIDs do not.
- RequesterContexts.BuildRequesterContextMap: the clock is read once instead of once per invite.
- PasswordService.PasswordTables.RequestPasswordReset: finding the user by e-mail, drawing the token and hashing are parameters; a drawn token is not already stored.
- PasswordTokens: users are never deleted; owners' names and message texts are not modelled; grants are found by position.
- Names.NormalizeNames: lower-casing is an arbitrary function of the text.
- Parking.ParkingTables.AllocateParkingSlots: that the holder is a unit of the building, and the activity rows, are not modelled; that it is an occupancy with an active lease is part of ParkedTenancy.
- ParkedTenancy: refusals are not told apart; a move-in or move-out and what it does to the slots are one step, as its transaction is; moving a slot between buildings is not modelled beyond replacing its row.
- Policy: the recommendation and summary texts are tables over the route.
- Controllers, guards, DTO validation, configuration, e-mail texts, notification titles, conversations, dashboards, permissions and document storage are not modelled: they would add only easy members.
- Overlapping service calls inside one transaction, and floating-point amounts, are not modelled.
