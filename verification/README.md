# Karajan, verified

A Dafny model of the parts of Karajan that decide whether work may start, what it may spend, and when it counts as
delivered, with proofs of what those parts promise over every run.

Verify everything with `dafny verify dfyconfig.toml`.

**The quota ledger** (`Capacity*.dfy`). Pools, profiles, applied observations, policy revisions, reservations, usage rows
and failures are tables; every command is one atomic step on them. `CapacityModel` is the evaluation of a request,
`CapacityCommands` the commands, `CapacityStore` the store object whose methods rewrite the tables in place and are
proved equal to those steps. On top of that: the scalar time fence is the complete evaluation at every later instant
(`CapacityFence`), so the clock readings of an admission collapse to two complete evaluations (`CapacityAdmission`)
and a capability held over an effect stands for a complete evaluation at every assertion (`CapacityGuard`); terminal
states, concurrency and lead slots hold in every reachable ledger (`CapacityInvariants`); what is committed against a pool
is conserved but for usage beyond held demand (`CapacityConservation`); observations advance and exhaustion is a latch
(`CapacityObservations`); the owner's view and the routing facts agree with the evaluation (`CapacityViews`). What is
summed, judged and decided is written out on the rows: `CapacityMeaning` for usage, exhaustion and the evaluation,
`CapacityOutcomes` for the exact outcome of every command.

**The delivery coordinator** (`Delivery*.dfy`). Each transaction is a function on the tables (`DeliveryModel`), each call of
`advance` a thread whose transactions and remote calls interleave freely with other calls, control changes, crashes and
movements of the remote branches (`DeliveryProtocol`). The invariant is kept by every step (`DeliverySafety`,
`DeliveryRuns`), and `DeliveryTheorems` states what follows in every run. `DeliveryMeaning` gives the exact outcome of each
transaction, `DeliveryProofs` what every confirmation and every step rests on, and that every request can be delivered.
`DeliveryCoordinator` is the object whose methods
perform the transactions in place and keep the invariant of the tables.

**The runner host and its supervisor** (`Execution*.dfy`). Start calls, supervisors and tools are processes that may die
between any two steps. `ExecutionSafety` counts supervisors and tools against accepted activations; `ExecutionTheorems`
and `ExecutionRecords` state what holds in every run, `ExecutionTool` what the tables can tell about the tool,
`ExecutionMeaning` the exact outcome of each transaction, what counts behind a fence, and that every launch can run;
`ExecutionHost` is the host object.

**The candidate ledger** (`Candidate*.dfy`, `Git*.dfy`). The gate as one condition and what it is worth in every ledger the
operations can produce, reviews being judged and stored in separate transactions; in `CandidateMeaning` the exact status of
every check and review, the exact reasons of the gate, and that a review in order opens it; the tree identity of a manifest, recomputed in
memory and built with `git mktree`, the bytes it is the hash of, and what two equal identities say about the files.

**Two one-pass scanners** (`Json*.dfy`). The nesting check of review outputs and the duplicate-name check of imported files,
against recursive definitions on the syntax of JSON texts (RFC 8259).

**The recovery driver** (`Recovery*.dfy`). Stages with write-once receipts, over any sequence of resumes and crashes
(`RecoveryModel`); what each decision and each outcome rests on, and exactly which recoveries can still be completed
(`RecoveryMeaning`); the driver object (`RecoveryDriver`).

Two properties a reader might assume do not hold of the code; each has its input and its exact condition.

- *An accepted result means the tool ran.* It does not: the claim may have been refused
  (`ExecutionRecords.AcceptedWithoutTool`) or granted to a supervisor that died before launching
  (`ExecutionRecords.AcceptedAfterDeath`). The stored tables prove that the tool ran if and only if they hold its process or
  its exit code (`ExecutionTool.ToolRanExactly`).
- *A window that has been left is not entered again.* No run brings a pool back to a window it left if and only if the
  pool's windows are fixed (`CapacityObservations.OnlyFixedStaysOut`); the four commands of
  `CapacityObservations.OthersReenter` do it to every other pool.

## Model

| member | source | states |
|---|---|---|
| CapacityFence.LimitsAreExact | backend/karajan/capacity/store.py:705-741 | the two minima collected from the retained observations admit an instant exactly when each of those observations is fresh, in its window and, where unquantified, fresh enough for conservative mode |
| CapacityFence.OneMoreLimit | backend/karajan/capacity/store.py:712-735 | adding one observation narrows the limits to exactly its own deadlines |
| CapacityFence.HeldShrinks | backend/karajan/capacity/store.py:806-818 | as time passes neither the number of held admissions nor their future demand on any pool grows |
| CapacityFence.PoolStaysCleanInTime | backend/karajan/capacity/store.py:1360-1458 | after a verdict without reasons on a pool, a later verdict on a lighter load has none exactly while the observation is in time |
| CapacityFence.CleanStaysCleanInTime | backend/karajan/capacity/store.py:1360-1458 | after a clean evaluation, a later complete evaluation on a lighter load is clean if and only if every retained observation is in time |
| CapacityFence.FenceMeaning | backend/karajan/capacity/store.py:44-63 | a clean evaluation always yields a fence, which admits exactly the in-time instants from its floor on |
| CapacityFence.FenceIsFullEvaluation | backend/karajan/capacity/store.py:705-741 | from its floor on, the scalar fence accepts an instant exactly when a complete evaluation at that instant, with held admissions recomputed, has no reason |
| CapacityFence.RejectedFenceHasAReason | backend/karajan/capacity/store.py:743-788 | the fence rejects exactly when the recheck of the retained observations names a reason |
| CapacityFence.ExpiryIsInvisible | backend/karajan/capacity/store.py:806-818 | writing lapsed reservations down at one reading changes the held set at no later one |
| CapacityAdmission.AdmissibleBetween | backend/karajan/capacity/store.py:486-552 | an instant between two at which a complete evaluation passes passes too |
| CapacityAdmission.EvaluationsMeaning | backend/karajan/capacity/store.py:492-552 | the repeated evaluations of one admission all pass exactly when its attempt is new, the clock does not go back and the first and last instants are admissible |
| CapacityAdmission.CheckMeaning | backend/karajan/capacity/store.py:553-567 | one check against the fence raises exactly when the clock goes back, passes exactly when a complete evaluation at that reading does, and then moves the floor |
| CapacityAdmission.FinalMeaning | backend/karajan/capacity/store.py:553-630 | the three final checks pass exactly when readings ascend, a complete evaluation passes at the write, and the reservation has not lapsed |
| CapacityAdmission.AdmittedExactly | backend/karajan/capacity/store.py:455-653 | an admission is granted if and only if its attempt and identity are new, the readings never go back, complete evaluations pass at the first and last reading, and it has not lapsed when written; the tables then hold exactly one new row besides the lapsed ones |
| CapacityGuard.GuardFenceIsFullEvaluation | backend/karajan/capacity/store.py:960-1044 | the fence of a clean guard evaluation, the admission's own claim left out, is that evaluation at every later instant |
| CapacityGuard.GuardYieldsExactly | backend/karajan/capacity/store.py:879-1044 | the guard yields if and only if the active admission with this very request is unexpired throughout and complete evaluations without its own claim pass at the evaluated and the yielded instant |
| CapacityGuard.FirstCheckAgrees | backend/karajan/capacity/store.py:968-985 | the first scalar check, which looks at the fence before the expiry, passes with the same fence exactly where the later ones would |
| CapacityGuard.CapabilityIsFullEvaluation | backend/karajan/capacity/store.py:68-88 | a series of assertions succeeds exactly when the clock never goes back and every reading would pass a complete guard evaluation, unexpired |
| CapacityInvariants.RowsEvolve | backend/karajan/capacity/store.py:790-877 | a command changes only the state of stored reservations, along the allowed transitions, and appends at most one row |
| CapacityInvariants.TerminalForever | backend/karajan/capacity/store.py:806-877 | through any further commands a reservation keeps everything but its state, and a released, ended or expired one keeps that too |
| CapacityInvariants.AdmissionLeavesSlots | backend/karajan/capacity/store.py:1381-1388 | after an admission the account's stored holders are within the slots of the policy it was judged by; one that is not the lead's leaves the lead's slots free |
| CapacityInvariants.InvKept | backend/karajan/capacity/store.py:217-233 | every command keeps the invariant of the tables |
| CapacityInvariants.ReachableInv | backend/karajan/capacity/store.py:806-818 | in every reachable ledger an account's reserved, active and unresolved admissions are at most the largest concurrency any of its policy revisions allowed |
| CapacityConservation.UsageExact | backend/karajan/capacity/store.py:1129-1190 | recording usage moves the committed amount by exactly what becomes uncovered less what it relieves of held demand |
| CapacityConservation.UsageWithinDemand | backend/karajan/capacity/store.py:1200-1237 | usage within the unconsumed demand of an admission that still holds it has no excess |
| CapacityConservation.AdmissionFits | backend/karajan/capacity/store.py:1200-1237 | after an admission, uncovered usage plus future demand plus safety margin (plus lead reserve for anyone but the lead) fits the reported remaining of every numeric pool it names |
| CapacityConservation.OtherCommandsRelease | backend/karajan/capacity/store.py:820-1127 | activate, cancel, reconcile, expiry and the other commands never raise what is committed while the observation stands |
| CapacityConservation.StepBound | backend/karajan/capacity/store.py:1200-1237 | one command raises the committed amount above the bound by at most its usage in excess of held demand |
| CapacityConservation.OnlyUsageExcessOvercommits | backend/karajan/capacity/store.py:1200-1237 | over any run with a numeric observation and margin fixed, committed plus margin stays within the reported remaining, or what was committed at the start, up to the usage beyond held demand |
| CapacityMeaning.UncoveredIsTheSum | backend/karajan/capacity/store.py:1200-1224 | the uncovered usage of an observed pool is the sum, over exactly the rows of its account that name it, are not covered by the observation and are not attributed to another fixed window that had ended, of their amounts |
| CapacityMeaning.RowsInFull | backend/karajan/capacity/store.py:1210-1224 | one more usage row of the pool adds nothing if it is covered or attributed to another fixed window that had ended, and its full amount if it is uncovered and without a window, or the windows are not fixed |
| CapacityMeaning.FutureIsTheSum | backend/karajan/capacity/store.py:1225-1237 | the future demand on a pool is the sum over the held admissions of their demand less what they have on record as used, never below zero |
| CapacityMeaning.CommittedIsTheSum | backend/karajan/capacity/store.py:1200-1237 | what is committed against an observed pool is that uncovered sum plus what every stored reserved, active or unresolved admission has still due |
| CapacityMeaning.AdmissionFitsTheRows | backend/karajan/capacity/store.py:1360-1458 | after an admission those sums over the rows, with the safety margin and for anyone but the lead the lead reserve, are within what the observation reported as remaining |
| CapacityMeaning.HeldExactly | backend/karajan/capacity/store.py:806-818 | held are exactly the active and unresolved admissions of the account and its reservations that have not lapsed, each once |
| CapacityMeaning.ExhaustedExactly | backend/karajan/capacity/store.py:1322-1358 | a pool is exhausted if and only if an exhaustion report stands against the last number, or the last number is zero and its fixed window is not proved over |
| CapacityMeaning.PoolExactly | backend/karajan/capacity/store.py:1281-1358 | the verdict on a pool has no reason if and only if the observation is trusted and in time, and the number with its protections, or the conservative mode, carries the request |
| CapacityMeaning.AccountExactly | backend/karajan/capacity/store.py:1360-1388 | the account raises no reason if and only if the expected policy revision is current, a slot is free beside those kept for the lead, the duration fits and no cool-down runs |
| CapacityMeaning.EvaluationExactly | backend/karajan/capacity/store.py:1360-1458 | a complete evaluation has no reason if and only if the request names exactly the profile's pools, last observed in the windows it was routed by, the account allows it and every pool carries it, all on the rows |
| CapacityOutcomes.GrantedExactly | backend/karajan/capacity/store.py:455-653 | an admission is granted if and only if the request is well formed, no row has its attempt or identity, the clock readings never go back, the rows carry the request at the first and the last of them, and it has not lapsed when written |
| CapacityOutcomes.ReconcileExactly | backend/karajan/capacity/store.py:1100-1125 | reconciling frees an admission if and only if it was never sent and nothing of it is used, or it was active or unresolved, is over at both ends, and its usage is complete and on record; it is otherwise refused, or left unresolved; no other row changes |
| CapacityOutcomes.OpenKeepsCommitted | backend/karajan/capacity/store.py:1100-1125 | an admission left unresolved keeps holding: what is committed against any observed pool does not change |
| CapacityOutcomes.ActivateExactly | backend/karajan/capacity/store.py:824-874 | activation makes a reservation active if and only if it is unlapsed and a complete evaluation of its request without it has no reason; a lapsed one stays expired, any other state is refused, and beside it only lapsed rows of the account change |
| CapacityOutcomes.CancelExactly | backend/karajan/capacity/store.py:1055-1073 | cancelling releases exactly an unlapsed reservation; an activated one is refused and a lapsed one stays expired |
| CapacityOutcomes.ObserveExactly | backend/karajan/capacity/store.py:317-381 | an observation is accepted if and only if it is well formed, its covered usage is on record for the pool and its window agrees with the earlier ones; it is applied if and only if it is later than the last and in the same window or past its reset |
| CapacityOutcomes.PolicyExactly | backend/karajan/capacity/store.py:430-453 | a policy is adopted if and only if it is well formed, protects pools of its own account within their limits, and names the current revision |
| CapacityOutcomes.ProtectionExactly | backend/karajan/capacity/store.py:406-428 | a change of protection is accepted if and only if it differs from the current policy in the lead's reserve and slots alone and could be adopted |
| CapacityOutcomes.RegistrationExactly | backend/karajan/capacity/store.py:257-295 | a pool is registered if and only if it is new or the same as stored; a profile if and only if it names distinct known pools of its own account, a service pool among them, and is new or the same |
| CapacityOutcomes.UsageRecordedExactly | backend/karajan/capacity/store.py:1133-1187 | new usage is recorded if and only if the admission was activated, amounts and windows are given for exactly the pools of its request, and every window named was observed and is attributed; the row keeps the reset last seen in each window |
| CapacityOutcomes.UsageReplayExactly | backend/karajan/capacity/store.py:1134-1139 | usage on record is returned to exactly the same receipt, without effect, and another receipt under its identity conflicts |
| CapacityOutcomes.FailureExactly | backend/karajan/capacity/store.py:1258-1276 | a failure cools its account down for the longer of what was asked and what the conservative mode of the newest policy says |
| CapacityOutcomes.ViewExactly | backend/karajan/capacity/store.py:1546-1625 | the status shown for a pool and the amounts shown, as sums over the rows |
| CapacityOutcomes.DeriveExactly | backend/karajan/capacity/facts.py:89-129 | deriving succeeds if and only if the identity is captured exactly once, active and with this request, and its claim can be taken out of every count |
| CapacityObservations.NeverReentered | backend/karajan/capacity/store.py:317-381 | a fixed window that has been left is never entered again |
| CapacityObservations.OthersReenter | backend/karajan/capacity/store.py:317-381 | four commands, one registration and three applied observations, bring any pool whose windows are not fixed back to the window it left |
| CapacityObservations.ReachableChains | backend/karajan/capacity/store.py:317-381 | in every reachable ledger applied observations strictly advance in time, and for fixed pools a reset once set stands and a window left is never re-entered |
| CapacityObservations.OnlyFixedStaysOut | backend/karajan/capacity/store.py:317-381 | for every pool: no run of commands brings it back to a window it left if and only if its windows are fixed |
| CapacityObservations.LatchedPoolRefuses | backend/karajan/capacity/store.py:1322-1358 | no verdict on an exhausted pool is clean, at no instant, under no policy, beside no load |
| CapacityObservations.LatchBlocksAdmission | backend/karajan/capacity/store.py:1322-1358 | while a pool is exhausted no admission whose profile uses it is granted |
| CapacityObservations.OpensExactly | backend/karajan/capacity/store.py:1322-1358 | a newly applied observation ends exhaustion if and only if it is a positive numeric one after any exhaustion failure, or a proved rollover of a fixed window with zero balance |
| CapacityObservations.LatchStep | backend/karajan/capacity/store.py:1322-1358 | a command ends exhaustion if and only if it applies such an observation |
| CapacityObservations.LatchHolds | backend/karajan/capacity/store.py:1322-1358 | exhaustion lasts over any run in which no such observation is applied |
| CapacityViews.ViewAgreesWithAdmission | backend/karajan/capacity/store.py:1546-1625 | at the same state and instant a pool is shown as observed exactly when the evaluation computes a number for it, and the amounts shown for worker and lead are that number |
| CapacityViews.CollectMatches | backend/karajan/capacity/facts.py:90-98 | the admissions captured under one identity, with the account they belong to |
| CapacityViews.DeriveBoundaryFacts | backend/karajan/capacity/facts.py:72-134 | the loops that subtract an owned claim compute the derived view, inconsistencies included |
| CapacityViews.DerivedIsRecomputed | backend/karajan/capacity/facts.py:72-134 | for facts captured around an active admission with its own request, deriving never fails, and held count, held ids and every pool's future demand are those of a capture without that admission |
| CapacityStore.ReplaysHaveNoEffect | backend/karajan/capacity/store.py:217-233 | however often commands are replayed, the tables are those of the effective commands applied once each, in order |
| CapacityStore.ReceiptForever | backend/karajan/capacity/store.py:117-138 | a committed receipt answers every later submission under its key, at any clock and with any generated identity, if kind and payload are the same, and any other payload conflicts; the tables stay untouched |
| CapacityStore.RetryIsAnswered | backend/karajan/capacity/store.py:217-233 | a retry of a command that committed, however much later, returns what the command returned and changes nothing |
| CapacityStore.BuildFence | backend/karajan/capacity/store.py:705-741 | the loop over observations builds the fence, or none where the facts cannot bound it |
| CapacityStore.RecheckTime | backend/karajan/capacity/store.py:743-788 | the loop over observations collects the reasons of the final time check |
| CapacityStore.CapacityStore.MarkHeld | backend/karajan/capacity/store.py:806-818 | marks every lapsed reservation of the account in place and collects those that still hold |
| CapacityStore.CapacityStore.PoolUsage | backend/karajan/capacity/store.py:1200-1237 | the loops over the rows compute uncovered usage and future demand, which UncoveredIsTheSum and FutureIsTheSum state as sums over the rows |
| CapacityStore.CapacityStore.JudgePool | backend/karajan/capacity/store.py:1281-1358 | the verdict on one pool: exhaustion, numeric headroom or conservative mode |
| CapacityStore.CapacityStore.EvaluateRequest | backend/karajan/capacity/store.py:1360-1458 | the loop over the profile's pools computes the complete evaluation: reasons in order, retained observations, available amounts |
| CapacityStore.CapacityStore.AssessRequest | backend/karajan/capacity/store.py:655-703 | one evaluation of a request in place, lapsed rows marked |
| CapacityStore.CapacityStore.AdmitRequest | backend/karajan/capacity/store.py:455-653 | the whole admission in place: decision, reasons, tables, or an error and unchanged tables |
| CapacityStore.CapacityStore.ActivateAdmission | backend/karajan/capacity/store.py:820-877 | activation in place is the activation step |
| CapacityStore.CapacityStore.CancelAdmission | backend/karajan/capacity/store.py:1046-1075 | cancelling before activation in place is the cancellation step |
| CapacityStore.CapacityStore.ReconcileAdmission | backend/karajan/capacity/store.py:1077-1127 | reconciliation in place is the reconciliation step, whose outcome for every ending ReconcileExactly states |
| CapacityStore.CapacityStore.AddObservation | backend/karajan/capacity/store.py:314-384 | keeps the ledger invariants; an applied observation is later than all applied before it and becomes the latest of its pool alone, any other changes nothing a pool is judged by; an exhausted pool stays so unless this observation opens it |
| CapacityStore.CapacityStore.AddPolicy | backend/karajan/capacity/store.py:430-453 | appends exactly one revision, against exactly the revision the caller saw; lead slots fit the concurrency, only own pools are protected and within their limits; other accounts keep their policies |
| CapacityStore.CapacityStore.AddUsage | backend/karajan/capacity/store.py:1129-1190 | the receipt is on record once, with nothing earlier changed, and what is committed against any pool rises by at most the usage beyond held demand |
| CapacityStore.CapacityStore.AddFailure | backend/karajan/capacity/store.py:1239-1278 | the account cools down at least as long as asked, no exhausted pool opens, and the ledger invariants are kept |
| CapacityStore.CapacityStore.Execute | backend/karajan/capacity/store.py:217-233 | a command under its key, recognised by kind and payload: replayed receipt, conflict, error without effect, or one application and a stored receipt; every invariant of the reachable ledgers is kept |
| DeliverySafety.PlanKeeps | backend/karajan/delivery/coordinator.py:105-187 | planning keeps the tables sound: one row per revision, one owner per branch, no row or operation lost |
| DeliverySafety.ControlKeeps | backend/karajan/delivery/coordinator.py:189-230 | a control change keeps the tables sound and no delivery of a run that is not active satisfied |
| DeliverySafety.ActivationIsExclusive | backend/karajan/delivery/coordinator.py:232-250 | a delivery that may activate is the only one of its run that can have an unresolved operation, and the run is active |
| DeliverySafety.OpenPushKeeps | backend/karajan/delivery/coordinator.py:337-352 | recording a push intent keeps the tables sound and entitles only the caller that recorded it |
| DeliverySafety.RecordPushKeeps | backend/karajan/delivery/coordinator.py:357-372 | recording a push result keeps the tables sound; a confirmed operation is left alone |
| DeliverySafety.ReconcilePushKeeps | backend/karajan/delivery/coordinator.py:582-612 | settling a push by observation keeps the tables sound |
| DeliverySafety.ClaimKeeps | backend/karajan/delivery/coordinator.py:529-542 | claiming never rebinds a run and never shares a pull request between runs |
| DeliverySafety.OpenPublishKeeps | backend/karajan/delivery/coordinator.py:416-436 | recording a publication intent keeps the tables sound, after a confirmed push only |
| DeliverySafety.ConfirmPrKeeps | backend/karajan/delivery/coordinator.py:476-521 | confirming a checked pull request keeps the tables sound, completion included |
| DeliverySafety.BlockKeeps | backend/karajan/delivery/coordinator.py:556-565 | blocking keeps the tables sound |
| DeliverySafety.MarkUnknownKeeps | backend/karajan/delivery/coordinator.py:443-458 | marking a result unknown keeps the tables sound |
| DeliveryRuns.Opens | backend/karajan/delivery/coordinator.py:337-352 | recording an operation entitles exactly one caller to one remote call |
| DeliveryRuns.Spends | backend/karajan/delivery/coordinator.py:353-356 | making the call spends the entitlement |
| DeliveryRuns.CallerKeeps | backend/karajan/delivery/coordinator.py:289-441 | no step of `advance`, from any point and whatever the remote answers, breaks the invariant |
| DeliveryTheorems.RunKeeps | backend/karajan/delivery/coordinator.py:289-441 | the invariant holds in every reachable world, and along a run rows, operations, claims and targets are only added or confirmed |
| DeliveryTheorems.AtMostOneCall | backend/karajan/delivery/coordinator.py:289-441 | under any interleaving a delivery has at most one push and one pull-request operation, and push and publish are each called at most once, only with the operation on record |
| DeliveryTheorems.OneUnresolvedPerRun | backend/karajan/delivery/coordinator.py:232-250 | a run never has two unresolved operations, over all its revisions |
| DeliveryTheorems.ConfirmedForever | backend/karajan/delivery/coordinator.py:357-372 | an operation keeps its place, identity and kind, and once confirmed stays confirmed |
| DeliveryTheorems.SatisfiedMeansDelivered | backend/karajan/delivery/coordinator.py:476-521 | requirements satisfied implies state delivered, active control, pull-request head equal to the bound commit, observed head and tested base matching, CI success on that commit when required, and nothing unresolved |
| DeliveryTheorems.PullRequestsAreOwned | backend/karajan/delivery/coordinator.py:529-542 | deliveries of one repository with a pull request share it if and only if they belong to one run |
| DeliveryTheorems.BranchesAreOwned | backend/karajan/delivery/coordinator.py:139-157 | two deliveries aim at one branch of one repository if and only if they belong to one run |
| DeliveryTheorems.BranchMovesByLease | backend/karajan/delivery/git.py:113-129 | the protocol moves a remote branch only by the single push of a delivery, from exactly the expected commit to exactly the bound one |
| DeliveryTheorems.CallerStill | backend/karajan/delivery/coordinator.py:289-441 | a step of a caller records an operation only where the activation check passes in the same transaction |
| DeliveryTheorems.TerminalControlOpensNothing | backend/karajan/delivery/coordinator.py:212-230 | after a run is cancelled or revoked its control never changes, no operation is recorded for it again, no call is made beyond operations then on record, and none of its deliveries is satisfied |
| DeliveryMeaning.ActivationExactly | backend/karajan/delivery/coordinator.py:232-250 | a delivery may act if and only if its run is active, no newer revision is planned and no earlier one has an unresolved operation; the reason is the first of these that fails |
| DeliveryMeaning.PlanExactly | backend/karajan/delivery/coordinator.py:105-187 | a new revision is planned if and only if the run keeps its target or, being new, takes a branch no other run owns; the new row is untouched and under the run's control |
| DeliveryMeaning.ReplayExactly | backend/karajan/delivery/coordinator.py:131-138 | a used key answers exactly the same command, without effect, and conflicts with any other |
| DeliveryMeaning.RevisionExactly | backend/karajan/delivery/coordinator.py:164-171 | a revision planned already is accepted under another key if and only if the request is the same, and no delivery changes |
| DeliveryMeaning.ControlExactly | backend/karajan/delivery/coordinator.py:189-230 | a control changes if and only if the run is known and not ended differently; every delivery of the run follows it, and is satisfied only while it is active |
| DeliveryMeaning.OpenPushExactly | backend/karajan/delivery/coordinator.py:337-352 | a push intent is recorded by exactly the caller whose snapshot is still stored, while the delivery may act |
| DeliveryMeaning.RecordPushExactly | backend/karajan/delivery/coordinator.py:357-372 | an answered push is confirmed with the refs of the answer, an unanswered one stays unresolved, one already resolved is left alone |
| DeliveryMeaning.SettleExactly | backend/karajan/delivery/coordinator.py:590-611 | a look at the remote confirms an unresolved push if and only if the managed branch is at the bound commit; with any other head it stays unresolved |
| DeliveryMeaning.OpenPublishExactly | backend/karajan/delivery/coordinator.py:416-436 | a publication intent is recorded if and only if the delivery may act, its snapshot is unchanged and the pull request found can be the run's |
| DeliveryMeaning.ConfirmExactly | backend/karajan/delivery/coordinator.py:496-521 | confirming satisfies a delivery if and only if the claim stands, the delivery may act, verification and remote raise nothing and required CI passed on the bound commit; with the state, reason and observations it stores in every case |
| DeliveryProofs.ConfirmedWasSeen | backend/karajan/delivery/coordinator.py:357-372 | in every run a confirmed push has the refs it was confirmed by on record, and they show the bound commit as head, or its own push call landed |
| DeliveryProofs.CanBeDelivered | backend/karajan/delivery/coordinator.py:289-521 | for every request some run of the protocol ends with the delivery satisfied |
| DeliveryProofs.EveryStepIsRight | backend/karajan/delivery/coordinator.py:289-521 | a caller comes to each point of `advance` only with the answers and tables that point needs, from sending and publishing to confirming and blocking |
| DeliveryCoordinator.Coordinator.PlanRevision | backend/karajan/delivery/coordinator.py:130-187 | planning in place is the planning step, every error leaving the tables unchanged; the invariant of the tables is kept and nothing is lost or rebound |
| DeliveryCoordinator.Coordinator.ChangeControl | backend/karajan/delivery/coordinator.py:198-230 | the control change in place, row by row, is the control step; the invariant of the tables is kept |
| DeliveryCoordinator.Coordinator.FindReason | backend/karajan/delivery/coordinator.py:232-250 | no reason is found if and only if the run is active, no newer revision is planned and no earlier one has an unresolved operation |
| DeliveryCoordinator.Coordinator.Gate | backend/karajan/delivery/coordinator.py:304-312 | the first activation check of a call |
| DeliveryCoordinator.Coordinator.RecordPushIntent | backend/karajan/delivery/coordinator.py:337-352 | the write-ahead push transaction; it keeps the invariant for a delivery without operations |
| DeliveryCoordinator.Coordinator.RecordPushResult | backend/karajan/delivery/coordinator.py:357-372 | finds the operation by identity; an unresolved push is confirmed if and only if there was an answer, with its refs on record; the invariant is kept |
| DeliveryCoordinator.Coordinator.SettlePush | backend/karajan/delivery/coordinator.py:590-611 | an unresolved push is confirmed, with the refs seen on record, if and only if the managed branch is at the bound commit; the invariant is kept |
| DeliveryCoordinator.Coordinator.ClaimPullRequest | backend/karajan/delivery/coordinator.py:529-542 | success means the pull request is this run's and no other's, refusal that the run or the pull request is bound differently; no earlier claim changes and the invariant is kept |
| DeliveryCoordinator.Coordinator.RecordPublishIntent | backend/karajan/delivery/coordinator.py:416-436 | the write-ahead publication transaction, claim included |
| DeliveryCoordinator.Coordinator.MarkResultUnknown | backend/karajan/delivery/coordinator.py:443-458 | a delivery with an unresolved operation is reconciling and not satisfied, one without and every other row is left as it is; operations and the invariant are kept |
| DeliveryCoordinator.Coordinator.ConfirmPullRequest | backend/karajan/delivery/coordinator.py:496-521 | the confirming transaction: claim, confirmation, completion and the first applicable reason; it keeps the invariant for a checked pull request |
| DeliveryCoordinator.Coordinator.BlockIfUnchanged | backend/karajan/delivery/coordinator.py:567-580 | nothing stored since the caller read is overwritten, no operation is touched, a row that does change was what the caller read and is not satisfied; the invariant is kept |
| ExecutionSafety.LoneStarter | backend/karajan/execution/host.py:614-649 | while a start call may still spawn, it is the only one of its attempt and there is no supervisor |
| ExecutionSafety.LoneSupervisor | backend/karajan/execution/_supervisor.py:14-61 | while a supervisor may still launch, it is the only process of its attempt that can |
| ExecutionSafety.AfterLaunch | backend/karajan/execution/_supervisor.py:62-87 | once a tool is launched no start call or supervisor of the attempt can get there again |
| ExecutionSafety.ClaimKeeps | backend/karajan/execution/_supervisor.py:29-52 | the claim keeps the invariant, whether or not it grants the launch |
| ExecutionSafety.RunKeeps | backend/karajan/execution/host.py:576-686 | the launch invariant holds in every run: every supervisor has its own activation, every tool its own supervisor, and state, exit code and claims agree |
| ExecutionTheorems.AtMostOneLaunch | backend/karajan/execution/_supervisor.py:29-61 | whatever is replayed and wherever a process dies, an attempt gets at most one supervisor and one tool |
| ExecutionTheorems.RunEvolves | backend/karajan/execution/host.py:280-301 | along a run bindings, activations and stored decisions stand, cancellation is for good and fences never fall |
| ExecutionTheorems.BarredNeverLaunches | backend/karajan/execution/_supervisor.py:29-52 | if a cancellation or a later fence commits before the claim is granted, no later control change, replay or crash leads to a launch |
| ExecutionTheorems.BarredNeverSpawns | backend/karajan/execution/host.py:621-649 | if it commits before the last check of the start call, no supervisor is ever spawned |
| ExecutionTheorems.UnstartedForever | backend/karajan/execution/host.py:736-743 | `cancelled_unstarted` is never left and nothing is ever spawned for the attempt |
| ExecutionRecords.AcceptedOnce | backend/karajan/execution/host.py:765-807 | an attempt is done exactly when a result of it was accepted, and at most one ever is |
| ExecutionRecords.NothingAcceptedAfterCancel | backend/karajan/execution/host.py:786-806 | a stored decision is never revised, and after a cancellation the accepted results of the attempt are those accepted before it |
| ExecutionRecords.UsageIsContiguous | backend/karajan/execution/host.py:821-851 | the usage events of an attempt are numbered 1, 2, .. up to its sequence, each number once |
| ExecutionRecords.GuardMeansGranted | backend/karajan/execution/host.py:416-465 | the capture guard opens only for an attempt whose supervisor was granted the launch, and that finished only after launching |
| ExecutionRecords.AcceptableMeans | backend/karajan/execution/host.py:790-797 | where a result is acceptable, a recorded process or exit code means the tool ran exactly once, and of a finished row the tool ran if and only if there is an exit code |
| ExecutionRecords.AcceptedWithoutTool | backend/karajan/execution/host.py:790-797 | a concrete run in which a result is accepted although the tool never ran |
| ExecutionRecords.AcceptedAfterDeath | backend/karajan/execution/_supervisor.py:46-61 | a second concrete run: the claim is granted, the supervisor dies before launching, the row says running, and a result is accepted |
| ExecutionTool.LaunchLeavesNoTrace | backend/karajan/execution/_supervisor.py:53-70 | whenever a launch has recorded no process and no exit code, some run without that launch ends in the very same tables |
| ExecutionTool.ToolRanExactly | backend/karajan/execution/host.py:790-797 | the stored tables prove that the tool of an attempt ran, in every run that ends in them, if and only if they hold its process or its exit code |
| ExecutionMeaning.StartExactly | backend/karajan/execution/host.py:586-648 | an attempt may start exactly if it is uncancelled, its stored control is enabled at the manifest's fence and authorization, and its activation has not expired |
| ExecutionMeaning.AcceptExactly | backend/karajan/execution/host.py:586-620 | an activation is accepted exactly by an attempt that may start and that it names; the same one again is answered without effect and another refused |
| ExecutionMeaning.PrepareExactly | backend/karajan/execution/host.py:237-277 | a launch is prepared if and only if key and attempt are new or name exactly this launch already; a new row is pending and untouched |
| ExecutionMeaning.InitializeExactly | backend/karajan/execution/host.py:321-360 | a first control is given if and only if key, fence and authorization are the row's and it is prepared, inactive and uncancelled |
| ExecutionMeaning.ResultExactly | backend/karajan/execution/host.py:772-807 | a new result is accepted if and only if the attempt is uncancelled, pending, running or finished, and the fence is the manifest's and the control's with the manifest's authorization |
| ExecutionMeaning.GuardExactly | backend/karajan/execution/host.py:416-465 | the capture guard opens if and only if the attempt was claimed, is running or ended with an exit code, and is current in every respect |
| ExecutionMeaning.StarterIsRight | backend/karajan/execution/host.py:586-686 | a start call comes to each of its points only from the transaction and tables that point needs |
| ExecutionMeaning.SupervisorIsRight | backend/karajan/execution/_supervisor.py:14-87 | a supervisor comes to each of its points only so: it launches what may start in the transaction that claims it, registers and finishes what it launched |
| ExecutionMeaning.NothingAcceptedBehindFence | backend/karajan/execution/host.py:790-797 | once a control above the manifest's fence is stored, the accepted results of the attempt are, through any further run, those accepted before |
| ExecutionMeaning.CanRun | backend/karajan/execution/_supervisor.py:14-87 | every prepared launch can run: some run spawns its supervisor, launches its tool once and records any given exit code |
| ExecutionHost.RunnerHost.PrepareAttempt | backend/karajan/execution/host.py:237-277 | afterwards key and attempt name one row with exactly this manifest and spec; no existing row changes, and the invariant of the tables is kept |
| ExecutionHost.RunnerHost.ChangeControl | backend/karajan/execution/host.py:289-301 | refused if and only if the fence would fall; no fence ever falls |
| ExecutionHost.RunnerHost.InitializeControlOnce | backend/karajan/execution/host.py:321-360 | a control that is there is never overwritten; success means this fence and authorization are in force for an uncancelled row of the attempt |
| ExecutionHost.RunnerHost.AcceptActivation | backend/karajan/execution/host.py:586-620 | success means this activation is the row's for good; the call entitled to spawn is the one that found none, under a current control, an exact binding and before expiry |
| ExecutionHost.RunnerHost.ConfirmStart | backend/karajan/execution/host.py:623-648 | the supervisor is to be spawned exactly if the attempt is uncancelled, enabled at its fence and unexpired now; otherwise it is cancelled unstarted |
| ExecutionHost.RunnerHost.AcknowledgeSpawn | backend/karajan/execution/host.py:673-684 | a supervisor that registered itself is never replaced, and the state does not change |
| ExecutionHost.RunnerHost.ClaimLaunch | backend/karajan/execution/_supervisor.py:29-52 | launches exactly what is uncancelled, enabled at its own fence and unexpired in this transaction; a row is claimed once, and a refused one is finished |
| ExecutionHost.RunnerHost.RegisterRunner | backend/karajan/execution/_supervisor.py:62-70 | the tool's process is recorded once, for a running row, by the supervisor that claimed it |
| ExecutionHost.RunnerHost.RecordExit | backend/karajan/execution/_supervisor.py:83-87 | records the exit code of an activated row, keeping the invariant and everything that stands |
| ExecutionHost.RunnerHost.CancelAttempt | backend/karajan/execution/host.py:713-746 | afterwards the attempt is cancelled and decided, its control disabled, no activation may start it at any instant, and a merely prepared one is cancelled unstarted |
| ExecutionHost.RunnerHost.TakeResult | backend/karajan/execution/host.py:772-807 | a new event is accepted if and only if the attempt is uncancelled, pending, running or finished, and the fence is both the manifest's and the stored control's, with its authorization; it is then done; an event on record returns its decision and changes nothing |
| ExecutionHost.RunnerHost.AddUsage | backend/karajan/execution/host.py:828-851 | an event gets the next number of its attempt once, which is unsettled from then on; a replay changes nothing |
| ExecutionHost.RunnerHost.MarkSettled | backend/karajan/execution/host.py:855-866 | settles only with exactly the numbers 1 to `through` on record |
| ExecutionHost.RunnerHost.HoldFence | backend/karajan/execution/host.py:416-465 | open if and only if the attempt was claimed and contained, is running or ended with an exit code, uncancelled, bound to its activation, and in force at exactly this fence and authorization |
| CandidateGate.GateMeans | backend/karajan/candidates/store.py:718-787 | the gate gives no reason if and only if context and revision are current, all artifacts readable, every policy check's latest evidence passed with a readable log, and the latest review passed and cites exactly those |
| CandidateGate.RunKeeps | backend/karajan/candidates/store.py:975-1003 | in every ledger the operations can produce, with reviews judged and stored apart, passed evidence was sound when judged, identities and revisions are unique, and the ledger only grows |
| CandidateGate.ReviewIsNewest | backend/karajan/candidates/store.py:748-769 | a passing candidate's latest review is newer than the latest evidence of every check of its policy |
| CandidateGate.GateIsSound | backend/karajan/candidates/store.py:718-787 | whenever the gate passes: newest revision; every check bound to the policy and run to exit zero with its log readable; the latest review cites exactly those, passed, and came from an approved reviewer sharing no attempt or context (for T3 no model family) with any author |
| CandidateGate.NewEvidenceCloses | backend/karajan/candidates/store.py:766-769 | with check evidence newer than the latest review the gate is closed |
| CandidateGate.OnePerSeries | backend/karajan/candidates/store.py:737-739 | at most one candidate of a series passes |
| CandidateMeaning.CitesExactly | backend/karajan/candidates/store.py:858-871 | the cited multiset is that of the required evidence if and only if the review cites the latest evidence of every policy check that has any, each once and nothing else |
| CandidateMeaning.CheckExactly | backend/karajan/candidates/store.py:789-830 | a check is recorded passed if and only if it names a check of the candidate's policy in its revision and environment, completed with exit code zero and left a log; likewise when failed, unavailable, inconclusive and invalidated |
| CandidateMeaning.ReviewExactly | backend/karajan/candidates/store.py:832-906 | a review is recorded passed if and only if policy, input, environment and revision are the candidate's, every check last passed with a readable log, it cites exactly those, its reviewer is approved and shares no attempt or context (for T3 no family) with an author, the verdict is passed, nothing blocks and there is a log; likewise when failed, unavailable, inconclusive and invalidated |
| CandidateMeaning.AmbiguousExactly | backend/karajan/candidates/store.py:321-331 | a policy is refused as ambiguous exactly if it has fewer check names than checks or fewer profiles than reviewers |
| CandidateMeaning.FreezeExactly | backend/karajan/candidates/store.py:424-455 | a freeze succeeds if and only if the policy is unambiguous and the content is the newest of its series already or the identity is new; it then appends nothing or exactly the next revision |
| CandidateMeaning.RebindExactly | backend/karajan/candidates/_review_binding.py:199-246 | reviewers are rebound if and only if they are unambiguous and the source is the newest of its series; the next revision has the same content but for them |
| CandidateMeaning.GateExactly | backend/karajan/candidates/store.py:718-787 | each reason the gate can give is given if and only if its condition on the rows holds |
| CandidateMeaning.PassesExactly | backend/karajan/candidates/store.py:718-787 | the gate passes if and only if context and revision are current, all files and logs readable, every check last passed and the latest review passed citing exactly those |
| CandidateMeaning.ReviewOpensGate | backend/karajan/candidates/store.py:832-906 | in every reachable ledger a passing review of the newest candidate that counts, judged and stored, opens the gate wherever its files and logs can be read |
| CandidateStore.Store.FreezeRevision | backend/karajan/candidates/store.py:424-455 | succeeds if and only if the policy is unambiguous and the content is the newest of the series already or the identity is new; appends exactly the next revision unless it was there; earlier candidates are kept |
| CandidateStore.Store.RebindReviewers | backend/karajan/candidates/_review_binding.py:199-246 | appends the next revision with other reviewers if and only if they are unambiguous, the identity is new and the source is the newest of its series |
| CandidateStore.Store.SaveEvidence | backend/karajan/candidates/store.py:975-1003 | success means exactly this observation with this log is on record under its key; a conflict means another one is; nothing recorded changes and keys and identities stay unique |
| CandidateStore.Store.RequiredChecks | backend/karajan/candidates/store.py:850-863 | the identities are exactly those of the latest evidence of each policy check, valid if and only if each of them passed with a readable log |
| CandidateStore.Store.JudgeReview | backend/karajan/candidates/store.py:832-906 | passed if and only if the review speaks of the candidate as it stands, cites exactly the passed checks, comes from an approved outsider, says passed, blocks nothing and has a log; likewise for failed, unavailable, inconclusive and invalidated |
| CandidateStore.Store.JudgeCheck | backend/karajan/candidates/store.py:789-830 | passed if and only if the observation names a check of the policy, completed with exit code zero and left a log; likewise for the other statuses |
| CandidateStore.Store.Gate | backend/karajan/candidates/store.py:718-787 | the loops compute the gate's reasons in order: none if and only if the candidate may pass, and each exactly when its condition holds |
| GitTree.Identifies | backend/karajan/candidates/_capture_lookup.py:58-77 | two sets of files with one identity agree on every path below the directory, or two different tree objects of one directory collide |
| GitTree.ManifestIdentified | backend/karajan/candidates/_capture_lookup.py:58-77 | two valid manifests with equal root hash hold the same rows, or two different tree objects built from them have the same hash |
| GitTree.OrderIsIrrelevant | backend/karajan/candidates/_capture_lookup.py:58-77 | the identity does not depend on the order of the manifest |
| GitTree.BodyUnique | backend/karajan/candidates/_capture_lookup.py:69-77 | equal bodies list the same entries: mode, name and identity can be read back |
| GitTree.Deeper | backend/karajan/candidates/_capture_lookup.py:74-74 | every recursion goes into a strictly deeper prefix of some path, so it ends |
| GitMeaning.LessExactly | backend/karajan/candidates/_capture_lookup.py:76-76 | one entry sorts before another if and only if at the first byte where they differ it has the smaller byte or has ended |
| GitMeaning.KeysExactly | backend/karajan/candidates/_capture_lookup.py:60-68 | the entries of a directory are exactly its files and, with a slash, the first component of every deeper path |
| GitMeaning.ObjectExactly | backend/karajan/candidates/_capture_lookup.py:69-77 | what is hashed for a directory: the word tree, a blank, the length in decimal, a zero byte, and for every entry in order its mode, a blank, its name, a zero byte and its identity, 40000 and the identity of the subdirectory for a directory |
| GitMeaning.ManifestExactly | backend/karajan/candidates/_review_binding.py:49-77 | a manifest is unambiguous and valid if and only if it has as many paths as rows, no zero byte in a path, and the mode of a plain or an executable file in every row |
| GitCapture.Collect | backend/karajan/candidates/_capture_lookup.py:59-68 | the dictionary filled by the loop holds exactly the entries of the directory |
| GitCapture.TreeHash | backend/karajan/candidates/_capture_lookup.py:58-77 | the recomputed hash is the identity of the manifest's files, for every manifest |
| GitCapture.MkTreeIsTree | backend/karajan/candidates/store.py:299-303 | given the lines of a directory in any order, `mktree` gives its identity |
| GitCapture.Sift | backend/karajan/candidates/store.py:285-296 | the pass over the manifest finds a line for every file and every subdirectory once |
| GitCapture.Build | backend/karajan/candidates/store.py:283-305 | the identity built bottom-up is the same as the recomputed one, for every manifest with no path twice |
| JsonDepth.CheckDepth | backend/karajan/candidates/review_output.py:43-63 | the character loop is the scan |
| JsonDepth.FeedQuoted | backend/karajan/candidates/review_output.py:48-56 | whatever a string contains, the scan comes out of it as it went in |
| JsonDepth.ScanIsDepth | backend/karajan/candidates/review_output.py:43-63 | on every JSON text the scan raises if and only if arrays and objects are nested more than three deep |
| JsonDuplicates.TakeString | frontend/src/RoutingSimulation.tsx:64-64 | the token pattern takes a string as one token, whatever it contains |
| JsonDuplicates.DecodePieces | frontend/src/RoutingSimulation.tsx:78-78 | decoding a printed string gives back the characters it stands for |
| JsonDuplicates.FindDuplicate | frontend/src/RoutingSimulation.tsx:63-86 | the loop with its mutable stack is the scan |
| JsonDuplicates.ScanFindsDuplicates | frontend/src/RoutingSimulation.tsx:51-87 | on every JSON text the stack scan refuses if and only if some object at some depth has two members with the same decoded name |
| JsonDuplicates.UniqueObject | backend/karajan/candidates/review_output.py:66-72 | the object hook succeeds if and only if no name repeats, and then returns exactly the pairs |
| RecoveryDriver.Driver.Claim | examples/go-readonly-reviewer-qualification-20260907/qualification_recovery_driver.py:275-321 | a conflict exactly where another receipt is stored, new exactly where none was; receipts are only added |
| RecoveryDriver.Driver.ResumeOnce | examples/go-readonly-reviewer-qualification-20260907/qualification_recovery_driver.py:363-540 | a whole resume in place is a run of the stage machine: receipts are only added; the positive effect is called at most once, not under an earlier claim, and only after the store showed a passed and unrevoked qualification that the clock then found unexpired; a final receipt says what was seen, and completion has all its receipts |
| RecoveryModel.RecoveryIsSafe | examples/go-readonly-reviewer-qualification-20260907/qualification_recovery_driver.py:376-540 | over any resumes and crashes: the positive effect is called at most once and never under an earlier claim, revoking and challenging only with the positive receipt on record, completion only with all three receipts on record, and no receipt changes |
| RecoveryModel.RevokeFollowsPositive | examples/go-readonly-reviewer-qualification-20260907/qualification_recovery_driver.py:465-503 | at the step that revokes, the positive receipt is already on record |
| RecoveryMeaning.DecideExactly | examples/go-readonly-reviewer-qualification-20260907/qualification_recovery_driver.py:424-447 | without a positive receipt the claim follows if and only if the view is passed, unrevoked and unexpired now; revoked, expired and not passed lead each to its own final receipt |
| RecoveryMeaning.ContinueExactly | examples/go-readonly-reviewer-qualification-20260907/qualification_recovery_driver.py:461-503 | after the positive effect an expired and unrevoked view ends the recovery as expired; otherwise the revocation is looked for, or the challenge follows one on record |
| RecoveryMeaning.ClaimExactly | examples/go-readonly-reviewer-qualification-20260907/qualification_recovery_driver.py:439-447 | the effect is called only by the resume that stored its claim |
| RecoveryMeaning.HistoryExactly | examples/go-readonly-reviewer-qualification-20260907/qualification_recovery_driver.py:395-423 | an effect of unknown fate is settled by its history alone, recorded or reconciled where found and never inferred |
| RecoveryMeaning.RevocationExactly | examples/go-readonly-reviewer-qualification-20260907/qualification_recovery_driver.py:466-503 | a revocation already made is recorded instead of made again, and one of unknown fate is looked up |
| RecoveryMeaning.CallsExactly | examples/go-readonly-reviewer-qualification-20260907/qualification_recovery_driver.py:448-538 | each outside call is made at its one point, and its answer recorded as what it was |
| RecoveryMeaning.PositiveFollowsClaim | examples/go-readonly-reviewer-qualification-20260907/qualification_recovery_driver.py:424-447 | at the step that calls the positive effect no receipt proves it yet, the claim on record is that of the view gone by, and that view was passed, unrevoked and unexpired at the decision |
| RecoveryMeaning.OutcomesAreWarranted | examples/go-readonly-reviewer-qualification-20260907/qualification_recovery_driver.py:424-464 | over any resumes and crashes: the positive effect was called only after a passed and unrevoked view that a later clock reading found unexpired, and a final receipt other than completion stands for a view that was revoked, expired or not passed, as it says |
| RecoveryMeaning.CompletableExactly | examples/go-readonly-reviewer-qualification-20260907/qualification_recovery_driver.py:376-540 | a recovery without a final receipt can be completed by some resumes if and only if no receipt on record stands in the way |

## Left out

- SQLite, files, subprocesses, HTTP and schema validation: a transaction is an atomic step that rolls back on error, and the bounds of the schemas are types or input predicates.
- Digests are compared by what they digest, except the tree hash, which is any function to twenty bytes.
- Times are real numbers; floating-point rounding and the parsing of times are not modelled.
- Evidence references that commands carry and nobody reads are left out of payloads and receipts; two commands that differ only in them count as one payload here.
- Identities made with uuid4 are supplied by the caller; one already in use is refused or does not occur.
- Quota reasons come in the order of the profile's pools, and held identities as a multiset; the source sorts both before returning them.
- CapacityStore.CapacityStore.AddPolicy: where a policy has several faults, which of the error codes is raised first follows the source only for those the model distinguishes.
- CapacityViews.ViewAgreesWithAdmission: covers the pool view; the account-level blockers and text of the owner's resource view are not part of this model.
- CapacityViews.DerivedIsRecomputed: the fragment's provenance fields and digests, and the selection of accounts, are not part of this model.
- CapacityConservation.OnlyUsageExcessOvercommits: the safety margin is fixed along the run; other fields of the policy may change.
- DeliveryTheorems.AtMostOneCall: principals, the verification reader and the pull-request service are the environment's answers; the migration of older databases on opening is left out.
- DeliveryTheorems.BranchMovesByLease: a push that takes effect after the process stopped waiting for it is an environment movement of the branch.
- DeliveryRuns.CallerKeeps: the re-validation inside `push` may refuse or raise at will; the ancestor test is one of the environment's refusals.
- ExecutionTheorems.AtMostOneLaunch: a supervisor started by hand, outside a start call, is not part of the protocol.
- ExecutionHost.RunnerHost.CancelAttempt: the polling for exit after the transaction, process groups and signals are not part of this model.
- `inspect`, `reconcile` and `wait_for_runner_registration` of the runner host observe operating-system processes and are left out.
- CandidateStore.Store.RebindReviewers: the verification of artifacts, baseline and source identity before the revision step is left out.
- CandidateStore.Store.FreezeRevision: walking the workspace, path authorization and artifact storage before the revision step are left out.
- GitCapture.Build: Git's own check that the listed objects exist is left out; a manifest row carries its blob identity already decoded from hexadecimal.
- JsonDuplicates.FindDuplicate: the number reviver and `JSON.parse` itself are left out.
- RecoveryModel.RecoveryIsSafe: receipts imported from JSON files of an earlier format count as receipts already in the ledger; `execute`, the path that starts a qualification, is left out.
- Conversations and their event log, the routing planner, workflows, qualification stores and the user interface are not part of this model.
