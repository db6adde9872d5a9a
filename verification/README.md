# Omnigraph cluster control plane: a verified model

`omnigraph cluster apply` moves two stores that cannot commit together: the live graph roots, and one ledger
(`state.json`) replaced by compare-and-swap. This project models that protocol in Dafny — planning, approval gating,
sidecar-fenced graph movement, the recovery sweep, refresh and import, and the serving snapshot — and proves what the
protocol promises over every run, every failure and every crash point. Two smaller cores of the command line are modelled
as well: Blob byte ranges and the credentials file.

## How the model is laid out

* `Addresses`, `Digests`, `Ledgers` — resource addresses and their text form, symbolic digests, the stored records, and
  the `World` a command acts on: live roots, ledger, sidecars, approvals, catalog blobs.
* `Sweep`, `Plan`, `Classify`, `Apply`, `Refresh`, `Serve`, `Configs` — the commands as functions. `Apply` and `Refresh`
  return a log with one entry per storage or engine step, each carrying the world that step left. A crash between two
  steps is a prefix of that log.
* `ClusterStates`, `ChangeLists`, `ApplyRun`, `RefreshRun`, `ServeRun` — the same operations as the source writes them:
  loops over a mutable ledger, change list and session, each proved to compute exactly the function above.
* `Coverage`, `SweepFixpoint`, `ApplySafety`, `ApplyLedger`, `ApplyOutcome`, `CrashSafety`, `ApplyIsSafe`, `ApplyFences`,
  `ApplyReport`, `ApplyTheorems`, `ApplyStops`, `ApplyConverges`, `Convergence`, `RefreshBinding`, `Servability`, `Payloads`,
  `Protocol` — the proofs that commands are safe, over every run and history.
* `Dispositions`, `Recoveries`, `Drift`, `AppliedRecords`, `DeclaredEntries`, `Guards`, `VisitRows`, `Payments`, `Retirement`,
  `RefreshRetires`, `ApplyRetries`, `CrashRepair`, `Snapshots` — what every command answers, records and leaves behind, read
  off its inputs.
* `FirstRun`, `Scenarios`, `StuckIntents`, `Severances` — concrete histories: the theorems' hypotheses met together, and
  failures reached by admissible commands from a world in step.
* `StateCas`, `StateLock` — the ledger write and the lock as interleaved step machines.
* `BlobRange`, `BlobRead`, `Credentials`, `Text`, `Sorting` — the CLI cores and shared helpers.

The inductive invariant of the protocol has two parts. `CrashSafety.Shaped` holds in every world of every history: the
ledger pairs `graph.g` with `schema.g`, graphs bind embedding providers only, and the approval audit trail is complete.
`Coverage.Covered` is per graph: the ledger and the live root agree, or a create or schema-apply sidecar stands beside an
existing root, or a delete or schema-apply sidecar stands beside an absent one. It is lost only to a failed existence probe,
and the lemmas say exactly which.

## Assumptions

* sha256 is a symbolic injective function of exactly the text it hashes; operation ids and lock ids are fresh.
* Each put, put-if-absent, put-if-match, delete and list is one atomic step. A sidecar or ledger put may also land
  although the caller is told it failed.
* `init` ends absent, partial or at the desired schema; a schema apply ends at the old or the desired schema, even when it
  reports an error; the manifest comparison after a failed schema apply can say "unmoved" only if the schema is unmoved.
* Removing a graph root is one step. `Protocol.DeleteRetirementSafeIff` shows where this is needed.
* Opening an existing graph may fail spuriously, and probing whether a root exists may fail, which the source reads as
  "absent" (`crates/omnigraph-cluster/src/store.rs:235-247`). No probe invents a root that is not there.
* A sidecar's `graph_uri` is the root of its `graph_id`; manifest-version pins in sidecars are not modelled.
* Only commands holding the lock move graphs; one such command runs at a time. `StateLock` proves that exclusion
  separately, and `StateCas` drops it altogether.
* Ids contain no dots (`Addresses.ValidIdHasNoDot`), so addresses are a datatype; `Addresses.KindOfRender` and
  `Addresses.RenderOfKind` tie it to the text.
* Ledgers are compared without timestamps and message texts; diagnostics appear only as outcomes.
* The serving snapshot reads one world; the source's separate unlocked reads are not interleaved with a running command.

## Where the code does not keep the plain property

Each of these is a lemma with the exact condition; where an admissible run reaches it, that run is given.

* **A failed existence probe can lose a graph.** It reads as "absent": a refresh then drops a healthy graph from the ledger,
  unfenced (`Scenarios.BlindRefresh`), and the sweep can retire a create intent or tombstone a live graph. A graph stays
  covered exactly when no probe of it was false in this way, or something else still covers it
  (`Coverage.ClassifyingIsSafeIff`, `Coverage.SweepCoversIff`, `Refresh.ObserveOneCoversIff`, `Refresh.SyncCoversIff`).
* **And it can make a stale graph be served.** Mostly a failed probe only removes entries, so nothing wrong is served; but a
  create intent retired unseen beside an entry that an interrupted delete left stale is enough
  (`Servability.ClassifyingKeepsTrustIff`, and the three commands of `Scenarios.StaleGraphIsServed`).
* **A half-removed root is stranded.** Row 8 of the sweep retires a delete intent whenever the root still exists, so a
  removal that stops half way leaves a graph neither in step nor fenced (`Protocol.DeleteRetirementSafeIff`). The comment
  at `crates/omnigraph-cluster/src/store.rs:223` relies on a later retry instead; the model follows the code.
* **A schema intent can outlive its graph.** A delete executes on the ledger its own sweep rolled forward in memory. If it
  crashes before the write, the schema intent it swept is still stored over a root that is gone, and the sweep keeps it, with
  its graph pending, ever after. This happens exactly if a schema intent was stored when the delete ran
  (`CrashRepair.RemovalStrandsIntent`, reached in `StuckIntents.SchemaIntentIsStuck`); every other crash can be mended
  (`CrashRepair.CrashLeavesMendable`).
* **An undeclared graph can lose its composite.** Provider changes always execute while composites are recomputed for
  declared graphs only (`ApplyTheorems.ApplyBindingExact`). A refresh that drops a query blob does the same to a graph it
  did not observe (`RefreshBinding.RefreshBindingExact`); within a history no blob goes missing (`Payloads.RecordedPayloadsExist`),
  so that takes a loss from outside. Either way the next command refuses the ledger (`Severances.ProviderChangeSevers`,
  `Severances.LostBlobSevers`).
* **The failure fence does not cover the embedding provider.** A declared graph takes the desired binding although its
  schema apply failed (`ApplyTheorems.FailedGraphTakesDesiredProvider`, `Severances.FailedApplyChangesProvider`).
* **The consumed approval may be a stale one.** Re-location ignores the bound digests (`Classify.StaleApprovalConsumed`,
  and exactly when in `Classify.ConsumesAuthorizingIff`).
* **Apply sets graph and schema statuses too.** The comment at `crates/omnigraph-cluster/src/lib.rs:1072-1074` leaves them to
  refresh and import; the loop under it sets the status of every executed or blocked change, and the model follows the loop
  (`AppliedRecords.StatusesFollowReport`).
* **At revision `u64::MAX`, and only there, a ledger update can be lost**, because contents may then recur
  (`StateCas.UpdatesAreLostIffSaturated`).
* **Force-unlock can let a second command in**, exactly when its delete fires with a live command inside
  (`StateLock.ForceDeleteSafeIff`, `StateLock.ForceUnlockBreaksExclusion`).
* **A token containing a newline can write another server's section** (`Credentials.MultiLineTokenReachesOther`,
  `Credentials.WriteFrameIff`).

## Model

| member | source | states |
|---|---|---|
| `Protocol.NoLostMovement` | crates/omnigraph-cluster/src/lib.rs:445-1188 | over every history of applies, refreshes, imports and approvals, each finished or crashed after any step and whatever its probes reported, a graph no probe stranded is recorded at its live schema digest, or both are absent, or a recovery sidecar of it is on storage |
| `Protocol.SightedHistoryLosesNothing` | crates/omnigraph-cluster/src/store.rs:235-247 | in particular when no existence probe of that graph failed; probes of other graphs do not matter |
| `Protocol.AdoptedGraphsAreNotLost` | crates/omnigraph-cluster/src/config.rs:313-465 | wherever a history starts, nothing is lost of a graph once an import or refresh finished with an exact, conclusive observation of it |
| `Protocol.ServedGraphsAreInStep` | crates/omnigraph-cluster/src/serve.rs:202-454 | in every world such a history leaves, a successful snapshot serves a graph only at its live schema digest, unless a probe retired a create intent of it unseen beside a stale entry |
| `Protocol.ApprovalsAreAudited` | crates/omnigraph-cluster/src/sweep.rs:344-436 | in every such world a tombstone naming an approval, and an approval file marked consumed, both imply that the committed ledger records that approval |
| `Protocol.CommandKeepsSafe` | crates/omnigraph-cluster/src/lib.rs:307-1188 | wherever a command stops the world keeps its shape, and each graph stays covered, and stays trusted, unless the command's own probes strand or mislead |
| `Protocol.DeleteRetirementSafeIff` | crates/omnigraph-cluster/src/sweep.rs:310-343 | retiring a delete intent keeps its graph covered if and only if the root is absent or still what the ledger records |
| `ApplyIsSafe.ApplyKeepsSafe` | crates/omnigraph-cluster/src/lib.rs:445-1188 | every world in the log of every apply run is safe for every graph that was covered and that its sweep does not strand, whatever fails, including puts that land unacknowledged and existence probes |
| `CrashSafety.LedgerTellsTruth` | crates/omnigraph-cluster/src/lib.rs:1068-1134 | the ledger apply writes records, per graph, where its completed operation left it, and otherwise the swept digest; graph and schema entries stay paired |
| `CrashSafety.CommitCovers` | crates/omnigraph-cluster/src/lib.rs:1147-1188 | after the write the sidecars that survive retirement cover every graph the ledger is not in step with, unless the sweep stranded it |
| `CrashSafety.EntryOf` | crates/omnigraph-cluster/src/lib.rs:1072-1134 | every entry of the new ledger from the executed change at its address and the removed subtrees, through mutation, tombstones and recomputation |
| `DeclaredEntries.DeclaredEntry` | crates/omnigraph-cluster/src/lib.rs:1855-1914 | every declared graph in the written ledger is rebuilt from that ledger's own components with the declared provider, and with the declared Blob policy unless its operation failed or its needed move waits for recovery, when it keeps the recorded one |
| `AppliedRecords.AppliedConfiguration` | crates/omnigraph-cluster/src/lib.rs:1136-1176 | after every finished apply the stored ledger names the desired config digest if its resources agree with the configuration in digests, bindings and profiles, and otherwise the one it named before; the run reports convergence exactly then; a written ledger is one revision up |
| `AppliedRecords.EveryWriteNamesApplied` | crates/omnigraph-cluster/src/lib.rs:1136-1176 | the same rule for every ledger an apply puts on storage, also unacknowledged |
| `AppliedRecords.StatusesFollowReport` | crates/omnigraph-cluster/src/lib.rs:1072-1122 | the status of every address in the written ledger: cleared with a removed subtree, Applied or cleared by an executed change, blocked with its reason unless that is a pending recovery, else as swept |
| `Retirement.ApplyRetires` | crates/omnigraph-cluster/src/lib.rs:1175-1187 | the sidecars a finished apply leaves are exactly those it found and its sweep did not complete, those it wrote and neither took back nor saw succeed, and those whose drop failed |
| `Retirement.ApplyCommitsSweep` | crates/omnigraph-cluster/src/lib.rs:1175-1187 | of the sidecars it found, a finished apply with all drops done leaves exactly those of a committed sweep |
| `Retirement.ApplyMarksSpent` | crates/omnigraph-cluster/src/lib.rs:1183-1187 | a finished apply marks exactly the listed files of the approvals that a removal of its sweep or of its own names |
| `Retirement.TombstonedApprovalsAreMarked` | crates/omnigraph-cluster/src/sweep.rs:410-436 | every approval that a new tombstone of the written ledger names ends consumed in its listed file when marking goes through |
| `Retirement.RemovalIsRecorded` | crates/omnigraph-cluster/src/lib.rs:1123-1132 | exactly the graphs whose removal succeeded get a tombstone, naming the approval they consumed and the actor, and that approval is recorded as spent by apply |
| `Refresh.SyncKeepsSafe` | crates/omnigraph-cluster/src/lib.rs:1480-1720 | every world in the log of a refresh or import is safe for every covered graph its probes do not strand |
| `Refresh.SyncCoversIff` | crates/omnigraph-cluster/src/lib.rs:1634-1720 | the ledger a sync writes covers a graph if and only if it was covered or is conclusively observed, and the observation, or else the sweep, does not strand it |
| `Refresh.ObserveOneCoversIff` | crates/omnigraph-cluster/src/config.rs:313-465 | an observed graph ends covered if and only if its probe did not miss an existing root or a covering sidecar is left; an inconclusive observation changes nothing |
| `Refresh.SyncAdopts` | crates/omnigraph-cluster/src/config.rs:313-465 | from any world, a sync that writes leaves every declared graph with an exact probe, open or absent, in step |
| `Drift.SyncAnswers` | crates/omnigraph-cluster/src/config.rs:313-465 | on the ledger a sync writes, every declared graph and its schema are Applied if and only if the probe opened at the declared digest, drifted by schema if and only if it opened elsewhere, missing if and only if absent, in error if and only if it did not open; and the four fields of the stored observation say the same |
| `Drift.SyncPayloads` | crates/omnigraph-cluster/src/lib.rs:1640-1675 | every recorded query and policy: in error and kept if its blob is unreadable, drifted and dropped if it is missing or wrong, else stored as swept |
| `Drift.SyncElsewhere` | crates/omnigraph-cluster/src/lib.rs:1634-1677 | every other address is stored as the sweep left it |
| `Drift.SyncedHeader` | crates/omnigraph-cluster/src/lib.rs:1698-1702 | a refresh counts one revision up and keeps the applied config digest; an import starts at revision one with its own |
| `Drift.ImportWritesIff` | crates/omnigraph-cluster/src/lib.rs:1634-1712 | an import writes if and only if there is no ledger yet, no listed create is incomplete, every declared graph opens or is absent, and the put lands; unreadable payloads never come into it |
| `Drift.ImportedLedgerHasNoErrors` | crates/omnigraph-cluster/src/lib.rs:1685-1696 | the ledger an import writes carries no Error status |
| `RefreshRetires.SyncRetires` | crates/omnigraph-cluster/src/lib.rs:1704-1716 | a finished sync leaves exactly the sidecars its sweep did not complete, and those whose drop failed, and marks exactly the listed files its sweep consumed |
| `RefreshRetires.SyncMarksSpent` | crates/omnigraph-cluster/src/lib.rs:1704-1716 | a listed file ends consumed if and only if it was, or a removal of the sweep names its approval and marking goes through |
| `RefreshRetires.SyncedTombstonesAreMarked` | crates/omnigraph-cluster/src/sweep.rs:410-436 | every approval a new tombstone of the synced ledger names ends consumed in its listed file when marking goes through |
| `Coverage.ClassifyingIsSafeIff` | crates/omnigraph-cluster/src/sweep.rs:51-372 | for every kind of sidecar and everything a probe may report, a covered graph is still covered after the classification and its retirement if and only if the probe did not strand it |
| `Coverage.SweepCoversIff` | crates/omnigraph-cluster/src/sweep.rs:13-49 | after a sweep over any list, retiring all it completed, a graph is covered if and only if it was and no classification stranded it |
| `Servability.ClassifyingKeepsTrustIff` | crates/omnigraph-cluster/src/sweep.rs:51-372 | a graph unrecorded or covered stays so if and only if the classification is not a create intent retired unseen beside a stale entry |
| `Scenarios.BlindRefresh` | crates/omnigraph-cluster/src/config.rs:313-465 | one admissible refresh from a world in step whose failed probe loses a healthy graph, unfenced |
| `Scenarios.StaleGraphIsServed` | crates/omnigraph-cluster/src/sweep.rs:66-69 | three admissible commands from a world in step after which a graph is served at a schema that is not live |
| `SweepFixpoint.SecondSweepLeavesLedger` | crates/omnigraph-cluster/src/sweep.rs:13-372 | after one committed sweep any further sweep of the same live graphs leaves the ledger unchanged, whatever the number and order of sidecars |
| `SweepFixpoint.TwoSweepsRetire` | crates/omnigraph-cluster/src/sweep.rs:13-372 | two committed sweeps clear a graph of sidecars if and only if its root, the ledger and its sidecars' intents make it resolvable |
| `SweepFixpoint.FinalRecorded` | crates/omnigraph-cluster/src/sweep.rs:66-292 | an open graph's recorded digest ends at the live one if and only if the ledger or some create or schema sidecar knew it |
| `SweepFixpoint.SweepKeepsBound` | crates/omnigraph-cluster/src/sweep.rs:13-372 | a sweep over any sidecar list keeps every `graph.<id>` digest equal to the composite of its own ledger components |
| `Recoveries.RecoveryRecordIff` | crates/omnigraph-cluster/src/sweep.rs:66-372 | a sweep writes the recovery record of a sidecar, with its kind, graph and actor, if and only if classifying it over the ledger the earlier ones left moved the recorded resources; any other record stays |
| `Recoveries.StepStatuses` | crates/omnigraph-cluster/src/sweep.rs:51-372 | the status of every address after one classification: Applied where the live schema was rolled forward, pending or incomplete where the sidecar is held, cleared under a removed graph, else unchanged |
| `Recoveries.StepAudit` | crates/omnigraph-cluster/src/sweep.rs:310-422 | one classification writes a record, tombstone and consumed approval exactly where the resources moved, and touches neither revision nor config digest |
| `Recoveries.SweepConsumesIff` | crates/omnigraph-cluster/src/sweep.rs:344-372 | a sweep reports an approval consumed if and only if one of its removals names it |
| `RefreshRetires.TwoRefreshesRetire` | crates/omnigraph-cluster/src/lib.rs:1634-1720 | two finished syncs with full exact listings and all drops done leave no sidecar of a graph if and only if it was resolvable, or opens and is declared to the first |
| `ApplyRetries.TwoAppliesRetire` | crates/omnigraph-cluster/src/lib.rs:1147-1188 | of the sidecars a finished apply found of a graph, none is left after the next finished apply if and only if the graph was resolvable, whatever else the two runs do |
| `CrashRepair.CrashLeavesMendable` | crates/omnigraph-cluster/src/lib.rs:445-1188 | wherever an apply with a full exact listing stops, a covered graph a sweep could finish with is still one, or a create left its root half made, unless the run was deleting a graph for which a schema intent was still stored |
| `CrashRepair.TwoRefreshesMend` | crates/omnigraph-cluster/src/lib.rs:1634-1720 | so after an apply stopped anywhere two finished syncs with full exact listings leave no sidecar of any such graph whose root is not half made |
| `CrashRepair.RemovalStrandsIntent` | crates/omnigraph-cluster/src/sweep.rs:193-308 | the excepted case exactly: once such a delete took the root, a sweep can finish with the graph if and only if no schema intent of it was stored |
| `CrashRepair.SchemaIntentOutlives` | crates/omnigraph-cluster/src/sweep.rs:193-308 | and no sweep over the absent root ever retires such an intent |
| `StuckIntents.SchemaIntentIsStuck` | crates/omnigraph-cluster/src/sweep.rs:193-308 | two admissible applies from a world in step, crashed behind their engine calls, that leave one |
| `Digests.GraphDigestBinds` | crates/omnigraph-cluster/src/lib.rs:2153-2211 | equal composites mean equal graph id, schema, query digests, provider binding and Blob policy |
| `Plan.PlanFacts` | crates/omnigraph-cluster/src/diff.rs:6-133 | the plan is address-sorted, names each address at most once and lists exactly the required changes |
| `Plan.PlanIsExact` | crates/omnigraph-cluster/src/diff.rs:6-133 | replaying the plan on the prior ledger gives exactly the desired digests, bindings and profiles |
| `Plan.PlanEmptyIffAgrees` | crates/omnigraph-cluster/src/diff.rs:6-133 | the plan is empty if and only if digests, bindings and profiles already agree |
| `Plan.PlanRow` | crates/omnigraph-cluster/src/diff.rs:6-133 | each planned change carries exactly the recorded and the desired digest, its operation says which of them exist, and a change of equal digests is one of bindings or else of profile |
| `ChangeLists.DiffResources` | crates/omnigraph-cluster/src/diff.rs:6-54 | the two loops and the sort produce a sorted list holding exactly the create, update and delete that each address needs |
| `ChangeLists.ChangeList.AppendPolicyBindingChanges` | crates/omnigraph-cluster/src/diff.rs:62-93 | keeps the list sorted and adds exactly the binding-only updates at addresses not yet mentioned |
| `ChangeLists.ChangeList.AppendEmbeddingProfileChanges` | crates/omnigraph-cluster/src/diff.rs:99-133 | keeps the list sorted and adds exactly the profile-only updates at addresses not yet mentioned |
| `ChangeLists.ComputePlan` | crates/omnigraph-cluster/src/lib.rs:451-454 | the three passes together compute the plan |
| `ChangeLists.MatchApprovals` | crates/omnigraph-cluster/src/diff.rs:188-222 | the approved addresses are exactly those whose change has an unconsumed artifact bound to this config and its exact digests |
| `ChangeLists.ChangeList.ClassifyChanges` | crates/omnigraph-cluster/src/diff.rs:260-407 | both loops together stamp every change with the verdict of the gate gathered from the whole list and change nothing else; `Dispositions` says what each verdict is |
| `ChangeLists.ChangeList.DemoteDependentsOfFailedGraphs` | crates/omnigraph-cluster/src/diff.rs:421-464 | exactly the executable changes that belong to or depend on a failed graph become blocked, with their reason |
| `ChangeLists.SortedChangesUnique` | crates/omnigraph-cluster/src/diff.rs:52-53 | a set of changes has one address-sorted arrangement |
| `Classify.DeleteGate` | crates/omnigraph-cluster/src/diff.rs:154-407 | a delete in a dropped graph's subtree is executable if and only if an unconsumed artifact is bound to this config and that graph's exact before and after digests and no recovery of it is pending |
| `Classify.ApprovalInvariantHolds` | crates/omnigraph-cluster/src/diff.rs:154-184 | no change the approval gate covers is executable without its approval |
| `Convergence.RefusalIsUnreachable` | crates/omnigraph-cluster/src/lib.rs:468-492 | the defensive refusal in apply never fires |
| `Classify.ApprovedDeleteConsumes` | crates/omnigraph-cluster/src/lib.rs:966-975 | an approved delete always finds an artifact to consume |
| `Classify.ConsumesAuthorizingIff` | crates/omnigraph-cluster/src/lib.rs:966-975 | it is one that authorizes the delete if and only if no stale artifact for that graph and config is listed before |
| `Classify.StaleApprovalConsumed` | crates/omnigraph-cluster/src/lib.rs:966-975 | a listing where a stale artifact is consumed in place of the authorizing one |
| `ApplyLedger.GraphDispositions` | crates/omnigraph-cluster/src/diff.rs:308-366 | exactly which graph and schema changes are executable; pairing makes a schema move with its graph |
| `Dispositions.QueryDispositions` | crates/omnigraph-cluster/src/diff.rs:361-383 | a query create or update is Applied if and only if no recovery of its graph is pending and its schema is neither deleted nor created without its graph in the plan; a query delete if and only if its graph stays or its delete is approved and not pending; each with its blocking reason |
| `Dispositions.PolicyDispositions` | crates/omnigraph-cluster/src/diff.rs:384-400 | a policy create or update is Applied if and only if none of its dependencies names a graph with a pending recovery, else blocked as recovery pending; a policy delete always |
| `Dispositions.GraphVerdicts` | crates/omnigraph-cluster/src/diff.rs:337-360 | disposition and reason of every graph change, from the plan, the approvals and what is pending |
| `Dispositions.SchemaVerdicts` | crates/omnigraph-cluster/src/diff.rs:302-336 | disposition and reason of every schema change, from the plan, the approvals and what is pending |
| `Dispositions.OtherVerdicts` | crates/omnigraph-cluster/src/diff.rs:401-406 | providers are always executed and unknown kinds always deferred |
| `Dispositions.QueriesWaitForRecoveryOnly` | crates/omnigraph-cluster/src/diff.rs:361-383 | against a paired ledger a query of a declared graph is held up by a pending recovery and by nothing else |
| `Dispositions.DemotionExact` | crates/omnigraph-cluster/src/diff.rs:421-464 | demotion blocks exactly the executable changes in the subtree of a failed graph and the policies that depend on one, each with the reason its own failure calls for, and leaves every other change as it is |
| `AppliedRecords.FinalReport` | crates/omnigraph-cluster/src/lib.rs:857-1070 | against the classified plan, the final report of a run blocks exactly the executable changes hit by a failure in any phase, with its reason, and reports the rest as classified |
| `AppliedRecords.FailureOrigin` | crates/omnigraph-cluster/src/lib.rs:508-1066 | a graph is reported failed with the operation the run had planned for it |
| `ApplyTheorems.FailedGraphIsFenced` | crates/omnigraph-cluster/src/lib.rs:1068-1134 | a graph whose create, schema apply or delete failed or was skipped keeps its swept schema digest, every query entry and its Blob policy in the ledger the run writes |
| `ApplyTheorems.FailedGraphTakesDesiredProvider` | crates/omnigraph-cluster/src/lib.rs:1876-1912 | its embedding provider is the desired one all the same |
| `Severances.FailedApplyChangesProvider` | crates/omnigraph-cluster/src/lib.rs:1876-1912 | an admissible run in which the engine rejects the schema apply and the entry changes its provider |
| `ApplyStops.ReportMatchesCalls` | crates/omnigraph-cluster/src/lib.rs:508-1070 | at the state write a create is still Applied if and only if init succeeded for that graph in this run, a schema update if and only if its schema apply did, a delete if and only if its removal did, and exactly then the ledger leaves the swept digest |
| `ApplyReport.ApplyIsOrdered` | crates/omnigraph-cluster/src/lib.rs:494-1066 | creates, then schema applies, then payloads, then removals, then the state write; no engine call follows a failed one |
| `ApplyStops.ApplyStopsAtFirstFailure` | crates/omnigraph-cluster/src/lib.rs:508-1066 | in visit order across all three phases, once a graph failed for any reason every later one is reported failed and no engine call is made for it; and at every removal and at the state write each payload of the run is in the catalog |
| `ApplyStops.SuccessMeansPaid` | crates/omnigraph-cluster/src/lib.rs:880-925 | a payment phase that reports success left every needed payload in the catalog and took none out |
| `Payments.PaysIff` | crates/omnigraph-cluster/src/lib.rs:880-925 | the payment phase succeeds if and only if every needed payload is already in the catalog or its source still has the planned digest and its put goes through |
| `Payments.CatalogOfRun` | crates/omnigraph-cluster/src/lib.rs:880-925 | a run adds to the catalog exactly the payloads its changes need and can be written, each from its source, and replaces none |
| `Payments.ApplyEndsIff` | crates/omnigraph-cluster/src/lib.rs:880-1176 | a run that passed its gates stops at a payload, stops at its write or finishes, each under its exact condition |
| `Guards.EngineCallsAreGuarded` | crates/omnigraph-cluster/src/lib.rs:523-1066 | in every run each init is made over a source re-read at the planned digest, each schema apply also over an open, ready graph, each removal only without a running export; directly before each call its own sidecar was written with kind, graph, digest, approval and actor |
| `VisitRows.RunIsDetermined` | crates/omnigraph-cluster/src/lib.rs:508-1066 | graph by graph, up to the first visit that fails each visited graph has exactly the events its own outcomes call for, an intent being taken back only over a changed source or a refusal that moved nothing; after it no graph has any; no other graph is touched |
| `ApplyTheorems.ApplyBindingExact` | crates/omnigraph-cluster/src/lib.rs:1855-1914 | the written ledger binds every declared graph to its composite, and an undeclared one if and only if the config does not disturb the provider it binds |
| `RefreshBinding.RefreshBindingExact` | crates/omnigraph-cluster/src/lib.rs:1634-1677 | a refresh binds every declared graph that opens, and any other if and only if none of its query blobs was missing or wrong |
| `Severances.DisturbedProviderSevers` | crates/omnigraph-cluster/src/lib.rs:434-444 | whenever an apply disturbs the provider of an undeclared graph and commits, the next command refuses the ledger |
| `Severances.ProviderChangeSevers` | crates/omnigraph-cluster/src/lib.rs:434-444 | an admissible apply from a world in step for which that happens |
| `Severances.DroppedQuerySevers` | crates/omnigraph-cluster/src/lib.rs:434-444 | likewise whenever a refresh drops a query blob of a graph it does not observe |
| `Severances.LostBlobSevers` | crates/omnigraph-cluster/src/lib.rs:1636-1676 | an admissible refresh for which that happens |
| `Payloads.RecordedPayloadsExist` | crates/omnigraph-cluster/src/lib.rs:880-925 | in every world of a history each recorded query and policy has its blob at its digest, with the content the digest names |
| `Convergence.ApplyConvergesInOneRun` | crates/omnigraph-cluster/src/lib.rs:1072-1188 | from a paired ledger of known kinds without sidecars, all deletes approved and no step failing, one run ends with no residual change and the desired config digest recorded |
| `Convergence.SecondApplyWritesNothing` | crates/omnigraph-cluster/src/lib.rs:1136-1150 | on a converged ledger apply finds no change and takes no storage or engine step |
| `Convergence.ApplyTwiceIsIdle` | crates/omnigraph-cluster/src/lib.rs:1072-1188 | the run after a converging one takes no step, whatever its environment would do |
| `FirstRun.FirstApply` | crates/omnigraph-cluster/src/lib.rs:307-1188 | the hypotheses of the history and convergence theorems hold together: a one-graph configuration applied to an empty ledger ends recorded at its declared schema with no sidecar left |
| `Serve.SnapshotAvoidsQuarantine` | crates/omnigraph-cluster/src/serve.rs:268-427 | no served graph, query or policy binding names a quarantined graph, and every healthy applied graph is served |
| `Serve.NeverServeOutOfStep` | crates/omnigraph-cluster/src/serve.rs:202-454 | in a safe world each served graph's recorded schema is the one live at its root |
| `Serve.QuarantineNonInterference` | crates/omnigraph-cluster/src/serve.rs:268-427 | worlds differing only in entries and query blobs of quarantined graphs give the same successful snapshot |
| `Snapshots.ServedQueries` | crates/omnigraph-cluster/src/serve.rs:370-388 | on success every recorded query of a graph outside quarantine is served once, in address order, with a source of its recorded digest, and nothing else is served as a query |
| `Snapshots.ServedPolicies` | crates/omnigraph-cluster/src/serve.rs:389-423 | on success every policy with a binding outside quarantine is served once, in address order, with a source of its recorded digest and its recorded bindings minus the quarantined graphs, in order, and nothing else is served as a policy |
| `Snapshots.ServedGraphs` | crates/omnigraph-cluster/src/serve.rs:315-368 | on success every recorded graph outside quarantine is served once, in address order, with its recorded Blob policy and the profile its provider's digest names, and no other |
| `Snapshots.SnapshotIff` | crates/omnigraph-cluster/src/serve.rs:202-454 | a snapshot is handed out if and only if there is a ledger, every sidecar was read and names a graph, some graph is outside quarantine, and everything to be served is bound, usable and readable at its recorded digest |
| `ServeRun.ReadSnapshot` | crates/omnigraph-cluster/src/serve.rs:202-454 | the loops with their early exits hand out exactly the snapshot that `Snapshots.ServedGraphs`, `Snapshots.ServedQueries` and `Snapshots.ServedPolicies` describe, or nothing, exactly as `Snapshots.SnapshotIff` says |
| `ServeRun.CollectQuarantine` | crates/omnigraph-cluster/src/serve.rs:224-245 | the quarantined graphs are exactly those with a sidecar, and a sidecar without graph id is always noticed |
| `ServeRun.CollectProfiles` | crates/omnigraph-cluster/src/serve.rs:271-313 | exactly the providers bound by healthy graphs whose recorded profile matches its digest are usable |
| `ServeRun.GatherServing` | crates/omnigraph-cluster/src/serve.rs:315-427 | the loop fails if and only if some entry fails its check, and otherwise gathers the graphs, queries and policies of the whole ledger in address order |
| `ClusterStates.ClusterState.RecordLiveSchema` | crates/omnigraph-cluster/src/sweep.rs:87-125 | the schema entry and then the composite over what the ledger now holds are replaced, nothing else |
| `ClusterStates.ClusterState.TombstoneGraphSubtree` | crates/omnigraph-cluster/src/sweep.rs:376-405 | exactly the graph's own entries and statuses go, and a tombstone observation is left |
| `ClusterStates.ClusterState.RecordApprovalConsumed` | crates/omnigraph-cluster/src/sweep.rs:410-422 | the approval is recorded with its operation, nothing else changes |
| `ClusterStates.SweepGraphCreateSidecar` | crates/omnigraph-cluster/src/sweep.rs:51-191 | rows 1, 2, 4, 5 and 6 on ledger and outcome |
| `ClusterStates.SweepSchemaApplySidecar` | crates/omnigraph-cluster/src/sweep.rs:193-308 | the schema-apply rows on ledger and outcome |
| `ClusterStates.SweepGraphDeleteSidecar` | crates/omnigraph-cluster/src/sweep.rs:310-372 | rows 7, 7b and 8 on ledger and outcome |
| `ClusterStates.SweepRecoverySidecars` | crates/omnigraph-cluster/src/sweep.rs:13-49 | the loop classifies each listed sidecar against the ledger the earlier ones left |
| `ApplyRun.ApplyConfigDir` | crates/omnigraph-cluster/src/lib.rs:307-1188 | the whole imperative command computes exactly the run, the reported changes and the outcome the theorems speak of |
| `ApplyRun.Session.CreateGraph` | crates/omnigraph-cluster/src/lib.rs:523-651 | one sidecar-fenced create with every failure branch |
| `ApplyRun.Session.ApplySchema` | crates/omnigraph-cluster/src/lib.rs:666-855 | one sidecar-fenced schema apply, including the eager retirement when nothing moved |
| `ApplyRun.Session.WritePayloads` | crates/omnigraph-cluster/src/lib.rs:880-925 | every executable query and policy payload is written or reused, and any failure is remembered |
| `ApplyRun.Session.DeleteGraph` | crates/omnigraph-cluster/src/lib.rs:955-1066 | one sidecar-fenced delete with the approval it will consume |
| `ApplyRun.Session.MarkApprovalsConsumed` | crates/omnigraph-cluster/src/sweep.rs:425-436 | exactly the listed, not yet consumed files among the given ids are marked, each best effort |
| `ApplyRun.ApplyChanges` | crates/omnigraph-cluster/src/lib.rs:1072-1122 | resources and statuses after the loop over the final changes |
| `ApplyRun.RecomputeStateGraphDigests` | crates/omnigraph-cluster/src/lib.rs:1855-1914 | the entries of recorded declared graphs are rebuilt in place, a blocked graph keeping its recorded Blob policy |
| `ApplyRun.BuildNewLedger` | crates/omnigraph-cluster/src/lib.rs:1072-1145 | the new ledger; `AppliedRecords` and `DeclaredEntries` say what it records |
| `ApplyRun.WriteAndRetire` | crates/omnigraph-cluster/src/lib.rs:1147-1188 | the one state write; sidecars and approval files are touched only after it did not fail, and then as `Retirement` says |
| `RefreshRun.SyncConfigDir` | crates/omnigraph-cluster/src/lib.rs:1480-1720 | the whole imperative refresh or import computes exactly the run the theorems speak of |
| `RefreshRun.VerifyCatalogPayloads` | crates/omnigraph-cluster/src/lib.rs:1747-1771 | the loop reports, in address order, exactly the payloads that are unreadable, missing or wrong |
| `RefreshRun.ObserveDeclaredGraphs` | crates/omnigraph-cluster/src/config.rs:313-465 | the loop records and judges what is live at every declared root, as `Drift.SyncAnswers` says |
| `Refresh.VerifiedAt` | crates/omnigraph-cluster/src/lib.rs:1636-1676 | verification drops exactly the queries and policies whose blob is missing or wrong and keeps every other entry as it was |
| `Configs.LoadedConfigIsSound` | crates/omnigraph-cluster/src/config.rs:529-938 | every configuration that loads has what planning and convergence assume: paired addresses, unique graphs, composites of its own digests, providers of the right kind |
| `Configs.LoadedConfigIsExact` | crates/omnigraph-cluster/src/config.rs:529-938 | what a loaded configuration hands to the planner is exactly what was declared: digests, normalized bindings in order, profiles and their digests, graphs in order |
| `Configs.PolicyWaitsOnBindings` | crates/omnigraph-cluster/src/config.rs:763-893 | a policy depends on exactly the graphs it is bound to |
| `Addresses.ValidIdHasNoDot` | crates/omnigraph-cluster/src/config.rs:1080-1095 | valid ids contain no dot |
| `Addresses.KindOfRender` | crates/omnigraph-cluster/src/diff.rs:234-254 | reading a rendered address gives the address back, for dot-free ids |
| `Addresses.RenderOfKind` | crates/omnigraph-cluster/src/diff.rs:234-254 | rendering what was read gives the text back, for every text |
| `Addresses.QueryPrefixSelectsGraph` | crates/omnigraph-cluster/src/sweep.rs:384-390 | the `query.<id>.` prefix selects exactly the queries of that graph |
| `StateCas.WritesNeverLoseUpdates` | crates/omnigraph-cluster/src/store.rs:551-616 | in every interleaving a landed write replaces exactly the content its command read, and below `u64::MAX` nothing was written in between |
| `StateCas.UpdatesAreLostIffSaturated` | crates/omnigraph-cluster/src/store.rs:551-616 | for every content, some interleaving overwrites versions written over it unseen if and only if its revision is `u64::MAX` |
| `StateCas.StateObject.ReadState` | crates/omnigraph-cluster/src/store.rs:489-541 | the read step and the content it hands over |
| `StateCas.StateObject.CheckState` | crates/omnigraph-cluster/src/store.rs:551-569 | the fresh read compares content with what the command read |
| `StateCas.StateObject.PutState` | crates/omnigraph-cluster/src/store.rs:580-607 | the conditional put lands exactly if the version token is unchanged |
| `StateLock.LockExclusion` | crates/omnigraph-cluster/src/state_lock.rs:98-172 | without force-unlock, in every interleaving with crashes, at most one command is inside and no release deletes another's lock file |
| `StateLock.ForceDeleteSafeIff` | crates/omnigraph-cluster/src/store.rs:653-697 | the delete of a force-unlock leaves at most one command inside over everything that may follow if and only if no live command is inside when it fires |
| `StateLock.CarefulForcingIsExclusive` | crates/omnigraph-cluster/src/store.rs:653-697 | in every interleaving with force-unlocks whose deletes fire with nobody inside, at most one command is inside and no release deletes another's lock file |
| `StateLock.ForceUnlockBreaksExclusion` | crates/omnigraph-cluster/src/store.rs:653-697 | a run in which forcing a live lock puts two commands inside |
| `StateLock.LockObject.AcquireStateLock` | crates/omnigraph-cluster/src/state_lock.rs:146-172 | creates the file under a fresh id exactly if there is none |
| `StateLock.LockObject.ReadForRelease` | crates/omnigraph-cluster/src/state_lock.rs:133-140 | the ownership read of a release |
| `StateLock.LockObject.DeleteForRelease` | crates/omnigraph-cluster/src/state_lock.rs:141-144 | the delete of a release, failing or not |
| `StateLock.LockObject.ReadForForce` | crates/omnigraph-cluster/src/store.rs:653-687 | only the named id is forced |
| `StateLock.LockObject.DeleteForForce` | crates/omnigraph-cluster/src/store.rs:688-697 | the delete that looks at nothing again |
| `BlobRange.NewRequestExact` | crates/omnigraph-cli/src/blob_cli.rs:65-79 | exactly which flag pairs are refused, and that every request built is free of overflow |
| `BlobRange.HeaderSelectsResolved` | crates/omnigraph-cli/src/blob_cli.rs:82-99 | reading the header by section 14.1.2 of RFC 9110 selects exactly what `resolve` returns, for every request and total |
| `BlobRange.AcceptedIffResolved` | crates/omnigraph-cli/src/client.rs:1188-1230 | a Content-Range is accepted if and only if it parses, its bounds are `resolve` of its own total and the served length matches |
| `BlobRange.HonestAnswerAccepted` | crates/omnigraph-cli/src/client.rs:1188-1230 | the answer section 14.4 of RFC 9110 prescribes is accepted |
| `BlobRead.BlobGet` | crates/omnigraph-cli/src/client.rs:1010-1035 | the loop terminates, asks for contiguous disjoint non-empty chunks within the bound, and on success has written exactly the selected bytes |
| `BlobRead.JoinedIsSlice` | crates/omnigraph-cli/src/client.rs:1016-1033 | honest replies over any such tiling join to one slice of the Blob |
| `Credentials.ReadCredential` | crates/omnigraph-cli/src/operator.rs:389-424 | the scan with its section flag returns what the specified reader returns |
| `Credentials.ReadIsFirstHit` | crates/omnigraph-cli/src/operator.rs:401-423 | which is the first token line whose nearest header names the server, empty as none |
| `Credentials.RewriteCredentials` | crates/omnigraph-cli/src/operator.rs:443-480 | the scan copies every line outside the target's sections verbatim and appends the new block |
| `Credentials.WriteThenFind` | crates/omnigraph-cli/src/operator.rs:443-480 | after a login, for any prior file and any token text, every server has the entry that survived or else what the new block alone says |
| `Credentials.RoundTripIff` | crates/omnigraph-cli/src/operator.rs:389-480 | a newline-free token comes back as written if and only if name and token are trimmed and the token is nonempty and unquoted |
| `Credentials.WriteThenReadSelf` | crates/omnigraph-cli/src/operator.rs:389-480 | what is read back is the trimmed, unquoted token, under a trimmed name only |
| `Credentials.RemoveThenRead` | crates/omnigraph-cli/src/operator.rs:389-480 | after a removal the server reads none and every other server reads as before, duplicate sections included |
| `Credentials.WriteFrame` | crates/omnigraph-cli/src/operator.rs:443-480 | after a login under a trimmed name every other server reads as before |
| `Credentials.WriteFrameIff` | crates/omnigraph-cli/src/operator.rs:443-480 | for a token of any text another server reads as before, for all files, if and only if the lines after the token's first newline, read as a file, hold no token for it (and, under the trimmed name, the first line is empty) |
| `Credentials.MultiLineTokenReachesOther` | crates/omnigraph-cli/src/operator.rs:471-480 | every token that carries a section for another server after its first line reaches that server |

## Left out

- Parsing of YAML, schemas, queries and Cedar policies, query discovery and the duplicate-key scanner: `Configs` starts from parsed declarations with their sources hashed.
- Configs.LoadedConfigIsSound: `load_desired` is modelled as a function of its inputs, not as loops filling maps; the order in which it reports its errors is not captured.
- The graph engine, Lance, migration preview and export exclusion: each is one step with the outcomes named above.
- Partial removal of a graph root, beyond the lemma that shows its consequence.
- Serving while a command runs: the snapshot's separate reads of sidecars, ledger and blobs are taken from one world.
- ApplyRun.Session.MarkApprovalsConsumed: single use of an approval across crashes is not claimed, since marking its file is best effort.
- RefreshRun.SyncConfigDir: the errors that stop an import are collected in one predicate instead of being counted on the way.
- ServeRun.GatherServing: lists are threaded through the loop body as one value instead of three pushed vectors.
- Blast radius, diagnostics text, observation JSON, output structs, `plan`, `status` and `validate`: reporting only.
- Approval creation beyond writing an unconsumed artifact; listing errors of sidecars and approvals outside the snapshot.
- Manifest-version pins, `state_cas_base` and timestamps in sidecars and records: forensic fields no decision of the model reads.
- Storage adapters, URI forms, S3 versus local dispatch, and the async runtime handling in lock release: backend plumbing.
- File permissions, temp-file rename and read errors around the credentials file, and the environment-variable token chain.
- Remote HTTP verbs, bearer tokens, flag tables, output formatting and the API types of the command line: easy or foreign.
