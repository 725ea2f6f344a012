# Verification of the AWS workload identity operator

This project models the protocols at the core of the AWS workload identity
operator and proves what they promise, for every input, every interleaving and
every reachable state.

- **Remote-cluster provider** (`ClusterRegistry`, `EngageProtocol`). The
  provider's maps are the fields of a class whose methods are its lock
  sections. A transition system then interleaves the ClusterProfile reconciler,
  one monitor goroutine per launched cluster and callers of `IndexField`.
- **Role ReplicaSet fan-out** (`Fleet`, `FleetRollout`, `FleetStatus`,
  `FleetRuns`). Planning, applying, pruning, counting and aggregating over the
  selected clusters, on one consistent snapshot of the hub per pass; then runs
  of passes by any number of ReplicaSet incarnations.
- **Role delivery and finalization** (`Inventory`, `GuardedPatch`,
  `RoleDelivery`, `RolePass`). Status and ACK children on the hub, the annotated
  ServiceAccount on a workload cluster, JSON merge patches (section 2 of RFC
  7396) guarded by resourceVersion, and crashes between any two API calls.
  `RolePass` is the sequential code; each of its calls is a step of the machine.
- **Webhook runtime** (`RequeueSchedule`, `WebhookRuntime`, `WebhookPass`).
  Ordered installation and removal, the trust chain and the renewal schedule. A
  certificate is its key, its signer, its DNS names and its notAfter.
- **Canonical digest and bounded names** (`IssuerDigest`, `ResourceNames`,
  `Ordering`). SHA-256 (FIPS 180-4) is a parameter, so the results hold for
  every hash function.

The theorems a reader may want first: `EngageProtocol.StoppedClusterIsEvicted`,
`EngageProtocol.NoClusterLeaks`, `FleetStatus.RolledOutIff`,
`FleetStatus.ReadyIff`, `FleetRuns.FanOutConverges`,
`FleetRuns.OtherIncarnationsKeepChild`, `RoleDelivery.WriteAheadDelivery`,
`RoleDelivery.FinalizationCompleteIff`, `GuardedPatch.AcceptedPatchIsAtomic`,
`WebhookRuntime.AdmissionIsBacked`, `WebhookRuntime.ReadyIsTrusted` and
`IssuerDigest.SetStreamIdentifies`.

One promise of the code turns out to need a condition. The manager always runs
the annotation repair controller
(internal/controller/selfhosted_serviceaccount_controller.go:79-127) beside the
role reconciler. It can read the ServiceAccount and list the role before the
deletion, and commit its guarded patch after a cleanup that found nothing of its
own to remove and therefore wrote nothing. `RoleDelivery.RepairCanOutliveRole`
gives the run. `RoleDelivery.FinalizationCompleteIff` and
`RoleDelivery.DeletionStaysCleanIff` give the exact condition over all
continuations, and `RoleDelivery.CleanupIsFinalIff` says that a cleanup that did
erase the ARN is final. The children are gone in every case.

## Assumptions

- Reads are fresh: a pass of the ReplicaSet controller works on one snapshot, a
  role pass reads what is stored.
- The OCM rollout SDK is an oracle with two assumptions
  (`FleetRollout.FromGroups`, `FleetRollout.TimesOutUnfinished`): it reports only
  on clusters of the groups it was given, and it times out no cluster that
  succeeded.
- Delivery type and webhook namespace are fixed for the life of an object, and
  ACK reports one ARN for a role, as the API validation and ACK promise. Nobody
  else deletes the role's own IAM Role object while the role lives.
- Foreign writers of a ServiceAccount never write the role's ARN themselves.
- The repair controller may look at a ServiceAccount at any time, which is more
  often than its watch predicate lets it.
- Convergence of the fan-out assumes strategy All, existing cluster namespaces,
  accepted calls and deletes that finish between passes
  (`FleetRuns.Unhindered`, `FleetRuns.Settles`); foreign objects may come and go
  anywhere but in the children's places.
- Selections and child lists have fewer than 2^31 entries, so that the int32
  counters do not saturate.

## Model

| member | source | states |
|---|---|---|
| `ClusterRegistry.Provider.DisengageLocked` | internal/inventory/provider_options.go:716-724 | cancels the stored cancel function of the key and takes the key out of all three maps, nothing else |
| `ClusterRegistry.Provider.DisengageIfCurrent` | internal/inventory/provider_options.go:726-735 | does so only if the given instance is the published one |
| `ClusterRegistry.Provider.IsCurrentCluster` | internal/inventory/provider_options.go:737-742 | says whether the instance is the published one of its key |
| `ClusterRegistry.Provider.PublishCluster` | internal/inventory/provider_options.go:403-410 | files instance, cancel function and kubeconfig under one key |
| `ClusterRegistry.Provider.KeepExistingCluster` | internal/inventory/provider_options.go:316-331 | keeps the entry if and only if it is stored with an equal configuration, and then changes nothing; otherwise a stored entry is out of all three maps and its cancel function was called |
| `ClusterRegistry.Provider.DisengageLogicalIfUnreferencedLocked` | internal/inventory/provider_options.go:706-714 | evicts the key exactly when no remembered profile names it |
| `ClusterRegistry.Provider.RememberProfileKey` | internal/inventory/provider_options.go:662-672 | the profile names its new cluster; the old one goes exactly when no other profile names it |
| `ClusterRegistry.Provider.DisengageProfile` | internal/inventory/provider_options.go:674-702 | the profile's own entry is gone; of the keys it may stand for exactly those no other profile names leave the maps |
| `ClusterRegistry.Provider.RegisterIndex` | internal/inventory/provider_options.go:413-435 | appends the index and copies exactly the published clusters it must reach |
| `ClusterRegistry.WithoutTwice` | internal/inventory/provider_options.go:674-702 | evicting key by key is evicting the union, with the same contexts cancelled |
| `EngageProtocol.StepKeeps` | internal/inventory/provider_options.go:201-314 | every lock section and foreign call of reconciler, monitors and index callers keeps the protocol invariant |
| `EngageProtocol.ReachableInv` | internal/inventory/provider_options.go:201-435 | the invariant holds after every interleaving |
| `EngageProtocol.StoppedClusterIsEvicted` | internal/inventory/provider_options.go:258-314 | for every interleaving, a cluster whose monitor is done and which is not being set up is not published while the parent context is live |
| `EngageProtocol.LateStopSparesReplacement` | internal/inventory/provider_options.go:294-314 | a monitor's steps remove and cancel at most its own instance, never its replacement |
| `EngageProtocol.NoClusterLeaks` | internal/inventory/provider_options.go:201-252 | a launched cluster with a live context is the published one of its key or the one being set up under the operations lock |
| `EngageProtocol.MapsShareOneDomain` | internal/inventory/provider_options.go:403-410 | clusters, cancelFns and kubeconfigs share one domain in every reachable state, and every stored cancel function is live |
| `EngageProtocol.PublishNeverOverwrites` | internal/inventory/provider_options.go:258-288 | publishing finds its key vacant and leaves every other entry in place |
| `EngageProtocol.KubeconfigIsCreatedWith` | internal/inventory/provider_options.go:403-410 | in every reachable state the stored kubeconfig is the one the published instance was created with |
| `EngageProtocol.ChangedConfigEvicts` | internal/inventory/provider_options.go:316-331 | a published cluster whose configuration is unchanged ends the pass untouched; with another one it is cancelled and out of all maps before anything is built |
| `EngageProtocol.PassReplacesConfig` | internal/inventory/provider_options.go:201-252 | while a pass builds a cluster, every instance of its key with another configuration is cancelled |
| `EngageProtocol.FinishedPassIsPublished` | internal/inventory/provider_options.go:258-288 | a pass through its last check leaves its key published with its instance and its configuration |
| `EngageProtocol.FailedSetupIsUndone` | internal/inventory/provider_options.go:201-288 | after a failed sync, a failed engagement, a stop or a lost publication, whatever interleaves, the instance ends cancelled and unpublished |
| `EngageProtocol.PublishedKeysAreNamed` | internal/inventory/provider_options.go:161-199 | every published key is the logical key of a remembered profile |
| `ClusterRegistry.OthersName` | internal/inventory/provider_options.go:706-714 | a cluster is named by another profile if and only if its key is among the remaining references |
| `EngageProtocol.DropSparesShared` | internal/inventory/provider_options.go:674-714 | after dropping a profile a cluster is published if and only if another profile names it; survivors keep instance and context, the others are cancelled |
| `EngageProtocol.RemapSparesShared` | internal/inventory/provider_options.go:662-672 | the same for remapping, where the new name counts |
| `EngageProtocol.IndexersComplete` | internal/inventory/provider_options.go:333-435 | with the operations lock free and no failed index call, every published cluster carries the registered indexers once each and in order |
| `Fleet.TemplateIsOwned` | internal/controller/role_replicaset_controller.go:1034-1107 | what the template creates or patches is owned, drift-free and has the template's subject, even if template metadata uses the stamped keys |
| `Fleet.TemplateIsCarried` | internal/controller/role_replicaset_controller.go:1034-1071 | a child carries the template's metadata, the stamps and nothing else, and the template's spec |
| `Fleet.OwnsIff` | internal/controller/role_replicaset_controller.go:1079-1107 | ownership if and only if managed-by label, UID label and owner-ref annotation all match |
| `Fleet.OwnersShareUid` | internal/controller/role_replicaset_controller.go:1079-1107 | two ReplicaSets owning one child have the same UID and name |
| `Fleet.IndexChildren` | internal/controller/role_replicaset_controller.go:364-380 | lists each owned child once and indexes one owned child for exactly the namespaces that have any |
| `Fleet.SucceededMeansReady` | internal/controller/role_replicaset_controller.go:731-801 | a cluster counts as Succeeded if and only if its namespace and an owned, drift-free child ready at its generation are there |
| `Fleet.ExistingIsExact` | internal/controller/role_replicaset_controller.go:731-801 | each planning phase and rollout state if and only if its condition on namespace, child and foreign object |
| `Fleet.RefusalIsReported` | internal/controller/role_replicaset_controller.go:268-331 | an apply fails if and only if a needed write is refused, and then the cluster ends Failed; otherwise it keeps its phase and is no longer parked |
| `Fleet.TouchedOnce` | internal/controller/role_replicaset_controller.go:268-331 | when no key is written twice, a key ends as its own write alone makes it |
| `FleetRollout.ResolvePlacements` | internal/controller/role_replicaset_controller.go:393-428 | the selection is the union of all refs' clusters, and fails if any ref fails |
| `FleetRollout.PlanRollout` | internal/controller/role_replicaset_controller.go:490-590 | every selected cluster gets the verdict of the last ref holding it; rollout and time-out sets are exactly what the SDK named |
| `FleetRollout.TimedOutIsPlanned` | internal/controller/role_replicaset_controller.go:551-560 | by the last time-out report of the last ref holding it, a cluster is planned TimedOut, Failed, Ready or parked, and its status is the reported one |
| `FleetRollout.OthersArePlanned` | internal/controller/role_replicaset_controller.go:500-550 | any other cluster is planned as observed, with the status of the last rollout report if there is one |
| `FleetRollout.RecordTimeOut` | internal/controller/role_replicaset_controller.go:551-560 | the last time-out report about a cluster replaces its status and its summary |
| `FleetRollout.LastReportIsReported` | internal/controller/role_replicaset_controller.go:542-560 | a cluster has a last report exactly when the SDK named it; reports without a name are skipped |
| `FleetStatus.VerdictIsExisting` | internal/controller/role_replicaset_controller.go:500-560 | outside the SDK's sets the plan is what was observed; a timed-out cluster is never planned as Ready |
| `FleetStatus.NewRolloutSummary` | internal/controller/role_replicaset_controller.go:636-677 | the five counts are cardinalities of disjoint sets, and completeness is their exact condition |
| `FleetStatus.RolledOutIff` | internal/controller/role_replicaset_controller.go:603-677 | PlacementRolledOut=True if and only if the SDK names no cluster and every cluster of the union has its namespace and an owned, drift-free child Ready at its own generation |
| `FleetStatus.Status.UpdateCounts` | internal/controller/role_replicaset_controller.go:1133-1150 | each counter moves by one exactly for its phase and reason |
| `FleetStatus.Status.AppendSummary` | internal/controller/role_replicaset_controller.go:1152-1173 | the listings stay the first 100 summaries and the first 50 failing ones |
| `FleetStatus.Status.ApplyRolloutClusters` | internal/controller/role_replicaset_controller.go:186-202 | counts, listings, writes and the error are those of the final summaries in sorted order |
| `FleetStatus.PruneChildren` | internal/controller/role_replicaset_controller.go:338-362 | counts exactly the unselected children that are going or gone, and fails exactly when a delete was refused |
| `FleetStatus.Status.SetAggregateConditions` | internal/controller/role_replicaset_controller.go:1175-1209 | the three aggregate conditions as conditions on the counts |
| `FleetStatus.StatusConserves` | internal/controller/role_replicaset_controller.go:1133-1173 | Ready + Conflict + Failure + Pending is the number selected; Applied is Ready plus pending not parked; listings are in cluster order and the failing one holds exactly the failing summaries |
| `FleetStatus.CountsAre` | internal/controller/role_replicaset_controller.go:1133-1150 | every counter is the number of clusters ending in its phase or pending for its reason |
| `FleetStatus.ListingsAre` | internal/controller/role_replicaset_controller.go:1152-1173 | the listings are the first 100 clusters in order and the first 50 failing ones |
| `Ordering.ListsAscending` | internal/controller/role_replicaset_controller.go:188-188 | a listing ascends in byte order, each cluster once |
| `FleetStatus.ReadyEqualsDesired` | internal/controller/role_replicaset_controller.go:592-601 | Ready equals Updating + Succeeded if and only if every admitted cluster is Ready |
| `FleetStatus.ReadyIff` | internal/controller/role_replicaset_controller.go:1175-1209 | without a prune error, Ready=True if and only if no cluster ended Failed, TimedOut or Conflict, every admitted cluster is Ready and no owned child lies outside the selection |
| `FleetStatus.TimedOutEndsTimedOut` | internal/controller/role_replicaset_controller.go:551-560 | a cluster the SDK timed out ends the pass in phase TimedOut, admitted or not |
| `FleetStatus.TimedOutIsCounted` | internal/controller/role_replicaset_controller.go:1133-1150 | so a pass with such a cluster counts a failure |
| `FleetStatus.Status.PlanStatus` | internal/controller/role_replicaset_controller.go:592-616 | records the desired count and PlacementRolledOut from the plan |
| `FleetStatus.Status.Reconcile` | internal/controller/role_replicaset_controller.go:111-184 | one pass: its writes and errors, its counts and listings, PlacementRolledOut and Ready under their exact conditions, and never Ready with a timed-out cluster |
| `FleetRuns.PassIsSafe` | internal/controller/role_replicaset_controller.go:268-362 | a pass writes no key twice, creates over nothing, and patches or deletes owned children only |
| `FleetRuns.PassKeepsForeign` | internal/controller/role_replicaset_controller.go:186-362 | after a pass every child not owned is unchanged, created ones are owned and drift-free, owned ones stay owned |
| `FleetRuns.DeletionIsSafe` | internal/controller/role_replicaset_controller.go:204-227 | a deletion pass deletes owned children only, each at most once |
| `FleetRuns.DeleteWritesComplete` | internal/controller/role_replicaset_controller.go:204-227 | a deletion pass gets through if and only if no needed delete is refused, and then it has deleted everything not already going |
| `FleetRuns.OtherIncarnationsKeepChild` | internal/controller/role_replicaset_controller.go:204-362 | over any run of normal passes and deletion passes by ReplicaSets with other UIDs, with anything else happening elsewhere, a child labelled with this UID stays exactly as it is |
| `FleetRuns.SurvivorIsConflict` | internal/controller/role_replicaset_controller.go:757-776 | an earlier incarnation's child is reported as Conflict and never adopted |
| `FleetRuns.DeleteReplicaSet` | internal/controller/role_replicaset_controller.go:204-261 | issues exactly the writes of a deletion pass, fails if and only if a needed delete is refused, and drops the finalizer exactly when no owned child is left |
| `FleetRuns.SlotWriteIs` | internal/controller/role_replicaset_controller.go:268-331 | what an unhindered pass writes for a cluster depends on its slot alone |
| `FleetRuns.SelectedAfterPass` | internal/controller/role_replicaset_controller.go:186-202 | one unhindered pass creates the missing child, repairs the drifted one under a new generation if its spec changed, and removes the one for another ServiceAccount |
| `FleetRuns.RoundPrepares` | internal/controller/role_replicaset_controller.go:186-362 | after one settled pass all owned children are drift-free and in selected namespaces |
| `FleetRuns.RoundFills` | internal/controller/role_replicaset_controller.go:186-362 | after the next one every selected namespace has its child |
| `FleetRuns.SilentIffConverged` | internal/controller/role_replicaset_controller.go:186-362 | with no delete under way a pass writes nothing if and only if the fan-out has converged |
| `FleetRuns.FanOutConverges` | internal/controller/role_replicaset_controller.go:186-362 | after two settled passes the owned children are exactly one drift-free child per selected namespace, and no later pass writes |
| `FleetRuns.FirstRoundFills` | internal/controller/role_replicaset_controller.go:186-202 | a round as convergence assumes it exists from the empty hub, and it converges |
| `GuardedPatch.MergeUndoesDiff` | internal/controller/selfhosted_serviceaccount_controller.go:218-252 | merging the diff of an edit into its base gives the edit back, finalizer list included |
| `GuardedPatch.PlanAnnotate` | internal/controller/selfhosted_serviceaccount_controller.go:218-252 | edits exactly the managed annotations that differ, and nothing when all are in place |
| `GuardedPatch.AnnotateWhenNeeded` | internal/controller/selfhosted_annotations.go:31-53 | an apply writes if and only if one of the four values is missing or different |
| `GuardedPatch.PlanUnannotate` | internal/controller/selfhosted_serviceaccount_controller.go:254-288 | removes the managed annotations exactly when they carry the given ARN |
| `GuardedPatch.AcceptedPatchIsAtomic` | internal/controller/selfhosted_serviceaccount_controller.go:218-288 | in every interleaving an accepted patch stores exactly the client's edit of what is stored at that moment |
| `GuardedPatch.NothingWrittenBetween` | internal/controller/selfhosted_serviceaccount_controller.go:218-288 | if a patch is accepted, nobody wrote between its read and its commit |
| `GuardedPatch.RemovalErasesOwnArnOnly` | internal/controller/selfhosted_serviceaccount_controller.go:254-288 | a committed removal takes away the managed annotations of an object carrying its own ARN and nothing else |
| `GuardedPatch.ApplySparesUnmanaged` | internal/controller/selfhosted_serviceaccount_controller.go:218-252 | after a committed apply the four managed annotations have their values, and every other annotation and all finalizers are as before |
| `GuardedPatch.FinalizerPatchSparesForeign` | internal/controller/common.go:154-192 | a committed finalizer patch keeps every other finalizer although the list is replaced whole |
| `GuardedPatch.UnguardedPatchDropsForeign` | internal/controller/common.go:154-192 | without the version guard a concrete interleaving drops a foreign finalizer |
| `Inventory.NameRoundTrip` | internal/controller/common.go:301-308 | parsing a rendered name gives it back if and only if both parts are non-empty and the namespace has no slash |
| `Inventory.ParseIsFaithful` | internal/controller/common.go:301-308 | whatever parses renders back to the same text |
| `Inventory.PartitionClusterProfilesByAccess` | internal/inventory/resolver.go:163-202 | keeps exactly the profiles with an access provider, in order |
| `Inventory.MatchesIff` | internal/inventory/resolver.go:163-170 | a profile is a candidate if and only if both labels match |
| `Inventory.ReadyIsUnambiguous` | internal/inventory/resolver.go:115-202 | ready exactly when one matching profile has access; each failure reason if and only if its condition |
| `Inventory.ReadyNamesNamespace` | internal/inventory/resolver.go:115-237 | a ready resolution always names namespace/namespace |
| `RoleDelivery.BaseKept` | internal/controller/role_controller.go:110-177 | every API call, crash and foreign write keeps the write-ahead invariant |
| `RoleDelivery.UsesAnnotationsIff` | api/v1alpha1/condition_types.go:42-44 | every delivery but Pod Identity annotates |
| `RoleDelivery.WriteAheadDelivery` | internal/controller/role_controller.go:110-177 | in every state reachable with crashes, a ServiceAccount carrying the ARN is the one of the recorded cluster and the stored status holds ARN, delivery type and cluster |
| `RoleDelivery.AcceptedEditsStored` | internal/controller/selfhosted_serviceaccount_controller.go:218-288 | in every reachable state an accepted patch of deliverer, cleanup or repair edits exactly what is stored |
| `RoleDelivery.ResolvedIsHome` | internal/controller/role_controller.go:311-318 | whatever the inventory holds, the cluster a pass resolves is the role's namespace/namespace |
| `RoleDelivery.NoFinalizerMeansClean` | internal/controller/role_controller.go:654-762 | a role without finalizer has left no child its UID controls, with the repair controller running; and no annotation, in every run where no repair commits while the role is being deleted |
| `RoleDelivery.FinalizerRemovedWhenClean` | internal/controller/role_controller.go:654-706 | the finalizer is removed only in a state that is clean in the same sense |
| `RoleDelivery.ForeignChildrenUntouched` | internal/controller/role_controller.go:722-762 | deletion leaves same-named children of other controllers as they are |
| `RoleDelivery.RepairCanOutliveRole` | internal/controller/selfhosted_serviceaccount_controller.go:79-127 | the condition is needed: a concrete run, starting from a ServiceAccount with another role's ARN, finalizes the role while a granted repair is in flight, which then puts the ARN there |
| `RoleDelivery.FinalizationCompleteIff` | internal/controller/role_controller.go:781-889 | from every finalized state, with the repair controller running: no controlled child ever comes back; no later state carries the ARN if and only if none carries it now and no granted repair would still be accepted |
| `RoleDelivery.DeletionStaysCleanIff` | internal/controller/role_controller.go:654-706 | the same condition is exact from every state of a deletion, before the finalizer is gone as well |
| `RoleDelivery.CleanupIsFinalIff` | internal/controller/selfhosted_serviceaccount_controller.go:254-288 | when the cleanup hands over to the children nothing carries the ARN, and nothing ever will if and only if no repair is in flight; always so after a cleanup whose read found the ARN and whose erase committed |
| `RolePass.Stores.ReconcileGeneratedPolicy` | internal/controller/role_controller.go:516-574 | with a policy document the child is applied, without one an owned child is deleted, otherwise the children stay; fails only on another controller's object |
| `RolePass.Stores.ReconcileIamRole` | internal/controller/role_controller.go:363-390 | one step of the machine: the status copy takes the ARN the child reports |
| `RolePass.Stores.ApplyChildren` | internal/controller/role_controller.go:131-147 | succeeds if and only if no other controller holds the names; then policy and IAM Role are there under this UID and the ARN is the reported one |
| `RolePass.Stores.DeliverAnnotations` | internal/controller/role_controller.go:504-514 | the recorded cluster's ServiceAccount, if it exists, carries the ARN afterwards, no other changes, and the record was there before |
| `RolePass.Stores.PatchAnnotations` | internal/controller/selfhosted_serviceaccount_controller.go:205-252 | the target, if it exists, carries the ARN afterwards, and no other ServiceAccount changes |
| `RolePass.Stores.PersistOrDeliver` | internal/controller/role_controller.go:139-169 | with the record in place the ServiceAccount is annotated, without it nothing remote is touched and the record is persisted; a Pod Identity role gets its association |
| `RolePass.Stores.ReconcileNormal` | internal/controller/role_controller.go:110-169 | whatever a pass newly annotates was recorded before; with the finalizer on, a ready inventory and appliable children the pass applies them, records the reported ARN, and delivers once the record is there |
| `RolePass.Stores.ReconcileTwice` | internal/controller/role_controller.go:110-169 | two undisturbed passes after ACK has reported the ARN leave the ServiceAccount, if it exists, annotated and the status recorded |
| `RolePass.Stores.RemoveAnnotations` | internal/controller/selfhosted_serviceaccount_controller.go:254-288 | erases if and only if the target carries the ARN; afterwards it does not, no other ServiceAccount changes, and after an erase no repair is in flight |
| `RolePass.Stores.DeleteRoleChildIfOwned` | internal/controller/role_controller.go:722-762 | deletes the child exactly when this UID controls it, and reports whether it is still there |
| `RolePass.Stores.CleanupRemote` | internal/controller/role_controller.go:781-889 | on success nothing carries the ARN, and if the recorded ServiceAccount did, no repair is in flight; on failure nothing was written |
| `RolePass.Stores.PlanRemoteCleanup` | internal/controller/role_controller.go:781-873 | where the ARN is, the plan is to look for it; a plan without a place to look means it is nowhere |
| `RolePass.Stores.ReconcileDelete` | internal/controller/role_controller.go:654-706 | with the repair controller running, the finalizer goes only with no annotation and no controlled child left, and with a usable record it goes if and only if no controlled child is held; the ARN never comes back if and only if no repair is in flight, always so if the ServiceAccount carried it when the pass began; foreign children are unchanged |
| `RequeueSchedule.MinNonZeroDuration` | internal/controller/config_controller.go:518-532 | the least positive duration, or zero exactly when there is none |
| `RequeueSchedule.FirstNonZeroIs` | internal/controller/config_controller.go:510-516 | the value after a run of zeros, and zero only when all are |
| `RequeueSchedule.NextWebhookCertRequeueIs` | internal/controller/selfhosted_webhook_runtime_controller.go:894-905 | the time to thirty days before expiry, clamped to a minute and a day |
| `RequeueSchedule.WebhookRuntimeRequeueAfter` | internal/controller/config_controller.go:510-516 | when ready the renewal time, else the retry time, else the default, whichever is first non-zero; when not ready the least positive; positive for non-negative schedules |
| `RequeueSchedule.ConfigPassRequeue` | internal/controller/config_controller.go:434-478 | every error-free pass reaching the webhook step asks to rerun within (0, 1h]: exactly the clamped time to the renewal threshold when ready, thirty seconds otherwise |
| `RequeueSchedule.RequeuePrecedesExpiry` | internal/controller/selfhosted_webhook_runtime_controller.go:894-905 | a rerun on time starts with more than 29 days left on the certificate |
| `WebhookRuntime.StepKeeps` | internal/controller/selfhosted_webhook_runtime_controller.go:218-362 | every API call, cut-off, wait and status change keeps the runtime invariant |
| `WebhookRuntime.AdmissionIsBacked` | internal/controller/selfhosted_webhook_runtime_controller.go:218-362 | across passes cut off anywhere, a managed admission configuration exists only while both Secrets, RBAC, Service and Deployment exist |
| `WebhookRuntime.FirstInstallNeedsRollout` | internal/controller/selfhosted_webhook_runtime_controller.go:304-362 | admission is first installed only with a fully rolled-out Deployment carrying the current certificate |
| `WebhookRuntime.ReadyIsTrusted` | internal/controller/selfhosted_webhook_runtime_controller.go:286-362 | Ready implies bundle, CA, serving certificate and rolled-out template agree, and thirty days were left at the check |
| `WebhookRuntime.CertificateNeverExpires` | internal/controller/selfhosted_webhook_runtime_controller.go:664-708 | if the last ensuring pass is under thirty days ago, the stored certificate has not expired |
| `WebhookRuntime.ReadyMeansRolledOut` | internal/controller/selfhosted_webhook_runtime_controller.go:1207-1258 | each readiness reason if and only if its condition; Ready if and only if generation observed, updated, available and condition all hold |
| `WebhookPass.RemoteCluster.EnsureCaSecret` | internal/controller/selfhosted_webhook_runtime_controller.go:614-662 | a managed CA with thirty days left is returned and nothing is written; otherwise a ten-year CA with a new key is stored; an unmanaged Secret is refused |
| `WebhookPass.RemoteCluster.WriteCaSecret` | internal/controller/selfhosted_webhook_runtime_controller.go:614-662 | the same, and exactly the machine's step |
| `WebhookPass.RemoteCluster.EnsureServingSecret` | internal/controller/selfhosted_webhook_runtime_controller.go:664-708 | a matching certificate by this CA for the Service with thirty days left is returned and nothing is written; otherwise a one-year certificate for the Service's four names is stored; unmanaged is refused |
| `WebhookPass.RemoteCluster.WriteServingSecret` | internal/controller/selfhosted_webhook_runtime_controller.go:664-708 | the same, and exactly the machine's step |
| `WebhookPass.RemoteCluster.EnsureSupporting` | internal/controller/selfhosted_webhook_runtime_controller.go:367-398 | succeeds if and only if all four objects may be written, and then exactly those four are written, present and managed |
| `WebhookPass.RemoteCluster.EnsureDeploymentObject` | internal/controller/selfhosted_webhook_runtime_controller.go:1019-1058 | the template carries the fingerprint; a new generation starts exactly when it changed |
| `WebhookPass.RemoteCluster.FinishAdmission` | internal/controller/selfhosted_webhook_runtime_controller.go:304-362 | waits if the Deployment is not rolled out and no admission exists; otherwise writes Service and bundle, and is Ready exactly for a full rollout |
| `WebhookPass.RemoteCluster.ApplyRemoteWebhookRuntime` | internal/controller/selfhosted_webhook_runtime_controller.go:218-284 | a ready pass leaves one coherent chain with thirty days left; after any pass without error a second one writes nothing at all; unmanaged objects are spared |
| `WebhookPass.RemoteCluster.DeleteRemoteWebhookRuntime` | internal/controller/selfhosted_webhook_runtime_controller.go:1275-1311 | admission first; success leaves no managed object and no unmanaged cluster-scoped one |
| `WebhookPass.RemoteCluster.DeleteBacking` | internal/controller/selfhosted_webhook_runtime_controller.go:1290-1308 | success leaves no managed backing object of the namespace and no unmanaged cluster-scoped one |
| `WebhookPass.RemoteCluster.DeleteManaged` | internal/controller/selfhosted_webhook_runtime_controller.go:1339-1376 | deletes a managed object, skips an unmanaged namespaced one, refuses an unmanaged cluster-scoped one |
| `IssuerDigest.DecimalInjective` | internal/oidc/documents.go:129-135 | different lengths print differently |
| `IssuerDigest.DecimalReadsBack` | internal/oidc/documents.go:129-135 | the printed length reads back as the length, in digits without a leading zero |
| `IssuerDigest.ObjectStreamIs` | internal/oidc/documents.go:129-135 | the bytes of an object with the format text written out |
| `IssuerDigest.ObjectSplits` | internal/oidc/documents.go:129-135 | a stream starts with one object only, whatever its body holds |
| `IssuerDigest.StreamInjective` | internal/oidc/documents.go:108-135 | equal byte streams come from equal lists of objects, for newline-free keys and content types |
| `IssuerDigest.SortedIsUnique` | internal/oidc/documents.go:115-127 | distinct keys have one sorted arrangement |
| `IssuerDigest.SetStreamIgnoresOrder` | internal/oidc/documents.go:115-127 | the set stream is the same for every permutation of the input |
| `IssuerDigest.SetStreamIdentifies` | internal/oidc/documents.go:115-127 | two sets give the same stream if and only if they hold the same objects |
| `IssuerDigest.SetDigestIgnoresOrder` | internal/oidc/documents.go:115-127 | for distinct keys two runs over permuted inputs return the same digest |
| `IssuerDigest.PublicationStream` | internal/oidc/documents.go:91-127 | for the two published keys the set stream is the discovery document's bytes, then the key set's |
| `IssuerDigest.WriteIssuerObjectDigest` | internal/oidc/documents.go:129-135 | the hash is fed exactly the object's stream |
| `IssuerDigest.ComputeIssuerObjectDigest` | internal/oidc/documents.go:108-113 | the digest is the hash of that stream |
| `IssuerDigest.SortByKey` | internal/oidc/documents.go:115-127 | a sorted permutation of the input |
| `Ordering.LeqIff` | internal/oidc/documents.go:115-119 | the order compares as byte strings do: prefix, or smaller at the first difference |
| `IssuerDigest.SortedAscends` | internal/oidc/documents.go:115-119 | sorted objects ascend in that sense |
| `IssuerDigest.ComputeIssuerObjectSetDigest` | internal/oidc/documents.go:115-127 | the digest is the hash of the sorted objects' stream, and the input is not changed |
| `IssuerDigest.DigestPublication` | internal/oidc/documents.go:77-87 | sets each object's own digest in place and changes nothing else |
| `ResourceNames.SafeDnsPartKeepsLabels` | internal/aws/iam_names.go:36-46 | sanitising leaves a DNS label alone |
| `ResourceNames.SafeDnsPartIsIdempotent` | internal/aws/iam_names.go:36-46 | sanitising twice is sanitising once, for all inputs |
| `ResourceNames.UnsafeRunIsHyphen` | internal/aws/iam_names.go:36-46 | a run of unsafe characters between labels becomes one hyphen |
| `ResourceNames.NothingSafeIsX` | internal/aws/iam_names.go:36-46 | a text with nothing safe in it becomes the placeholder |
| `ResourceNames.ComputeJoinedBase` | internal/aws/iam_names.go:69-83 | the loop joins the sanitised parts with hyphens |
| `ResourceNames.JoinedBaseIsLabel` | internal/aws/iam_names.go:69-83 | a joined base is a DNS label for all inputs |
| `ResourceNames.BoundedShape` | internal/aws/iam_names.go:54-67 | a bounded name fits its limit, is a DNS label and ends in the whole tail |
| `ResourceNames.TailsSeparateNames` | internal/aws/iam_names.go:54-67 | names differ whenever their hash tails differ, whatever bases and limits |
| `ResourceNames.HashedTextSettlesParts` | internal/aws/iam_names.go:48-52 | for parts without slashes the hashed text settles them |
| `ResourceNames.GeneratedNamesAreValid` | internal/aws/iam_names.go:85-97 | bucket, role, policy and owner-label names satisfy pattern and length for all inputs |
| `ResourceNames.HashedParts` | internal/aws/iam_names.go:85-97 | which parts each name hashes, in which order |
| `ResourceNames.ShortNamesAreWhole` | internal/aws/iam_names.go:69-97 | names that fit are prefix, kind, parts and hash, in full |
| `ResourceNames.RoleNamesSeparate` | internal/aws/iam_names.go:90-92 | equal role names mean equal 10-character hashes, and equal hashed texts mean the same role |

## Left out

- Manager start-up, flags, logging, metrics, events, watch predicates and map functions: plumbing around the protocols.
- Stale informer caches; the AlreadyExists answer of a create is modelled from the snapshot.
- The field-by-field comparison of two rest.Config values: a configuration is compared as a value.
- The wait for the remote cache: its outcome is a free choice, except that a reported start error is never overlooked.
- Condition messages, observed generations of conditions, and per-placement rollout status and messages.
- Read errors inside a ReplicaSet pass, which end the pass before it writes; requeue times from the SDK.
- reconcileDuplicateBindingConflict and prepareRoleInputs in the role reconciler: failing there ends the pass as a crash does.
- The ACKResources list of the role status and the trust policy text.
- Creation of the webhook namespace, the immutable Deployment selector, and fields of the webhook's Pods other than the certificate fingerprint.
- PEM, RSA and x509 encodings, notBefore, the OpenID discovery document and the JWK Set: they stay abstract.
- Unicode lower-casing and regular expressions: lower-casing of one character is a parameter.
- Sort order of candidate ClusterProfiles in error messages.
- AWS, STS and S3 calls, `pkg/remoteirsa` and the command line tools: linear validation.
- CRD schema markers and generated code.
- Parallel calls of one webhook pass run in any order in `WebhookRuntime`; `WebhookPass` runs them one after another.
