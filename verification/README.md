# Verification of the MigrationBackup controller

This project models the controller that turns a `StatefulMigration` into `CheckpointBackup` objects
(one for each pod and source cluster) and Karmada `PropagationPolicy` objects, and proves what the
controller keeps true whatever the network, crashes, and other users do.

## How the model is built

1. **The store** (`Objects.dfy`, `Cluster.dfy`). Everything that outlives the controller is one value:
   migrations with their finalizers and deletion mark, workloads, pods, pods seen through the proxy
   of a member cluster, namespaces, clusters with the CRD, backups and policies. An update is refused
   when the stored object is not the one that was read; a new finalizer on an object that is being
   deleted is refused; an object that is being deleted disappears with its last finalizer. Each request
   meets one of three fates: it is answered, it is lost, or it takes effect and an error is reported.
2. **One pass** (`Machine.dfy`). A pass is a list of tasks. A task makes one API request and may put
   further tasks in front of the rest, so the list is the program counter. `Step` is one request,
   `Exec` a whole pass in an otherwise quiet cluster; a pass that runs out of replies has crashed
   between two requests.
3. **The code** (`ApiServer.dfy`, `KarmadaClient.dfy`, `MemberClusterClient.dfy`, `Reconciler.dfy`).
   Classes with the fields, loops, early returns and order of writes of the Go code. Every method is
   tied to its tasks: the store, the replies that are left and the outcome are exactly those of `Exec`
   on a store that nobody else changes meanwhile. What is proved about `Exec` is therefore proved about
   the methods. Results about interleaved passes are about the same `Step`, taken request by request in
   the transition system; the methods themselves are not interleaved.
4. **The system** (`System.dfy`). Passes over different migrations interleave request by request with
   each other, with restarts of the process, and with anything the environment may do: create and edit
   migrations, request deletions, change pods and workloads, delete backups and policies, relabel.
5. **The results.** `Naming.dfy`: when generated names collide. `Safety.dfy`: no backup outlives its
   migration, over all runs and any number of workers. `Effect.dfy`, `Pass.dfy`, `Iterations.dfy`,
   `Frame.dfy`, `Convergence.dfy`: the exact effect of a pass whatever collides and in whatever order the
   pods are listed, what it never touches, and that cut-off passes do not change where a successful one
   ends. `Exactness.dfy`: counting, policies, two migrations. `CollisionFree.dfy`: the results under one
   naming rule that a user can check. `Repair.dfy`, `Rising.dfy`: when no request makes things worse.
   `Interleaving.dfy`: the requests of two passes may be interleaved in any way. `Deletion.dfy`,
   `PassRuns.dfy`: deletion. `FaultFree.dfy`, `Progress.dfy`: when a pass gets through, and when passes
   converge. `Placement.dfy`: placement and Karmada's labels over all runs. `SingleWorker.dfy`: what holds
   because the manager runs one worker. `Counterexamples.dfy`: runs on which the results fail without
   their conditions. `Observed.dfy`, `ObservedLoop.dfy`: what can be seen in the cluster after a pass, object
   by object and field by field, with every label, name and kind written out.

## What is assumed

- Reads are linearizable: the informer cache behind the manager's client is never stale.
- At most one pass per migration key runs at a time, which the work queue guarantees.
- Nobody else removes the controller's finalizer, takes a deletion request back, makes or relabels
  backups that carry the label `stateful-migration`, makes or redirects policies of backups or the
  policy of the shared namespace, or uninstalls the CRD (`System.Permitted`). Backups without the label and
  policies of other objects are anybody's.
- Nobody else changes the owner or the `podRef` of a backup with that label (`System.Permitted`).
- The API server keys a pod by its own namespace and name, on member clusters too (`Iterations.KeyedPods`, part
  of `Convergence.Fits`, and `CollisionFree.KeyedMemberPods`).
- Deleting a backup removes it at once.
- Resource versions are compared by the value of the object: the model lets an update through also when
  the object was changed and changed back, so it allows more behaviour than the API server does.
- The order of a list is chosen by the reply. The map that the label merge iterates over is taken in
  any order.
- For the life of a migration and its label, no other migration has the same target.

## Where the code and its documentation disagree

The model follows the code.

- The comment on the policy update (`internal/controller/karmada_client.go:115`) says that annotations are
  preserved. They are not: a pass leaves every policy that it upserts without any
  (`Exactness.AnnotationsAreLost`).
- `examples/README.md:147-150` promises that deleting a migration cleans up all resources. Backups are
  deleted; their policies stay (`Deletion.LifeOfAMigration`), and no request ever removes a policy
  (`Placement.NoRequestLosesSystemLabels`).
- The same list promises one backup for each pod and cluster. A backup for a cluster that was removed
  from `sourceClusters` stays as long as its pod lives (`CollisionFree.OldClustersStay`), and names may
  collide (`Naming.CollisionWithin`, `Naming.CollisionAcross`). The promise is kept exactly when a pass finds no
  m-backup of a live pod but those of source clusters, nothing else on the names of these, and no two pairs
  share a name (`Exactness.BackupCount`); `Counterexamples.RemovedClusterLeavesTwo` is a run on which it is not.
- A pod target is found on each source cluster, and the backups of all clusters then describe the pod
  of the last one (`CollisionFree.LastPodWins`).
- A migration of an unsupported kind gets the finalizer before its kind is looked at, and no delete pass
  can release it (`Deletion.UnsupportedKindIsStuck`, `Progress.DeletePassCanSucceed`,
  `Counterexamples.UnsupportedKindGetsStuck`).
- Convergence and idempotence, for a target that is there, fail exactly when a desired name is taken by
  an m-backup of a dead pod, which the clean-up of the same pass then deletes
  (`Progress.ConvergesIffStable`, `Convergence.IdempotentIffStable`). No such backup exists when no cluster
  name, of a source cluster or on an m-backup, ends in a dash followed by another
  (`CollisionFree.RuleMakesStable`). Whenever one does, there is a run that leads to such a backup
  (`Counterexamples.DashSuffixBreaksConvergence`).

"m-backup" is short for a backup in the namespace of migration m that is labelled with m.

## Model

| member | source | states |
|---|---|---|
| `Naming.CollisionWithin` | internal/controller/migrationbackup_controller.go:525 | within one migration two different (pod, cluster) pairs can share a name if and only if one cluster name ends in a dash followed by the other |
| `Naming.SameMigrationCollision` | internal/controller/migrationbackup_controller.go:525 | two pairs that do share a name are equal, or their clusters are in this relation |
| `Naming.DashSuffixCollides` | internal/controller/migrationbackup_controller.go:525 | for such cluster names every pod name takes part in a collision |
| `Naming.SamePodSameCluster` | internal/controller/migrationbackup_controller.go:525 | the backups of one pod never share a name |
| `Naming.CollisionAcross` | internal/controller/migrationbackup_controller.go:525 | two migrations of a namespace can share a name if and only if one name followed by a dash is a prefix of the other |
| `Naming.InjectiveForAllPods` | internal/controller/migrationbackup_controller.go:525 | a set of cluster names is free of collisions for every choice of pods if and only if none dash-ends in another |
| `Naming.PolicyNameInjective` | internal/controller/migrationbackup_controller.go:602 | different backups have different policy names |
| `Naming.NamespacePolicyIsNoBackupPolicy` | internal/controller/migrationbackup_controller.go:230-231 | the policy of the shared namespace is never the policy of a backup |
| `ApiServers.ApiServer.Get` | internal/controller/migrationbackup_controller.go:557-558 | a read changes nothing and returns the object, "not found", or an error |
| `ApiServers.ApiServer.Put` | internal/controller/migrationbackup_controller.go:560-571 | a write takes effect and succeeds, is refused without effect, or reports an error with or without effect |
| `ApiServers.ApiServer.List` | internal/controller/migrationbackup_controller.go:632-639 | a list request returns exactly the selected objects in some order without repetition, or fails |
| `KarmadaClients.KarmadaClient.PreserveSystemLabels` | internal/controller/karmada_client.go:122-133 | in whatever order the stored labels come, the result has the caller's labels overridden by the stored system labels |
| `KarmadaClients.KarmadaClient.CreateOrUpdatePropagationPolicy` | internal/controller/karmada_client.go:99-136 | carries out exactly the upsert task: get, then create or merge and put, stopping at the first error |
| `MemberClusterClients.MemberClusterClient.GetPodFromCluster` | internal/controller/member_cluster_client.go:36-58 | returns the pod of this cluster, keeping "not found" apart from other errors |
| `MemberClusterClients.MemberClusterClient.UpdatePodInCluster` | internal/controller/member_cluster_client.go:61-82 | carries out exactly the put of the pod that was read |
| `MemberClusterClients.MemberClusterClient.EnsureCRD` | internal/controller/member_cluster_client.go:176-212 | carries out exactly the CRD task: any error of the check is taken for "not installed" and leads to a create |
| `Reconciler.MigrationBackupReconciler.constructor` | cmd/main.go:214-217 | both clients are nil at the start |
| `Reconciler.MigrationBackupReconciler.Reconcile` | internal/controller/migrationbackup_controller.go:68-127 | creates missing clients; store, replies and outcome are those of a pass that starts with the fetch |
| `Reconciler.MigrationBackupReconciler.ReconcileNormal` | internal/controller/migrationbackup_controller.go:130-181 | carries out exactly the normal program: label, discovery, namespace, CRDs, backups with policies, clean-up, stopping at the first error |
| `Reconciler.MigrationBackupReconciler.EnsureCRDs` | internal/controller/migrationbackup_controller.go:151-161 | carries out the CRD tasks in cluster order, none without a client |
| `Reconciler.MigrationBackupReconciler.ReconcileCheckpointBackups` | internal/controller/migrationbackup_controller.go:163-171 | carries out the iterations of clusters and pods in the order of the nested loops |
| `Reconciler.MigrationBackupReconciler.ReconcileCheckpointBackupsOnCluster` | internal/controller/migrationbackup_controller.go:165-170 | the inner loop: the iterations of one cluster in pod order |
| `Reconciler.MigrationBackupReconciler.ReconcileCheckpointBackupForPod` | internal/controller/migrationbackup_controller.go:523-576 | carries out exactly one iteration, with the name, labels, owner and spec that the pair determines, the policy after the backup |
| `Reconciler.MigrationBackupReconciler.CreateOrUpdateBackup` | internal/controller/migrationbackup_controller.go:555-572 | creates the backup, or overwrites the spec and nothing else of an existing one |
| `Reconciler.MigrationBackupReconciler.ExtractContainerInfo` | internal/controller/migrationbackup_controller.go:579-590 | name and image of the main containers in order, init containers left out |
| `Reconciler.MigrationBackupReconciler.CreateOrUpdatePropagationPolicy` | internal/controller/migrationbackup_controller.go:593-626 | the upsert of the policy of this backup, or no request at all without a client |
| `Reconciler.MigrationBackupReconciler.CleanupOrphanedCheckpointBackups` | internal/controller/migrationbackup_controller.go:629-658 | lists the m-backups and deletes those whose pod label is missing or no current pod name |
| `Reconciler.MigrationBackupReconciler.PodNameSet` | internal/controller/migrationbackup_controller.go:641-645 | the set of names of the current pods |
| `Reconciler.MigrationBackupReconciler.DeleteOrphans` | internal/controller/migrationbackup_controller.go:647-655 | deletes exactly the dead ones of the listed backups in list order, stopping at the first error |
| `Reconciler.MigrationBackupReconciler.DeleteAllCheckpointBackups` | internal/controller/migrationbackup_controller.go:661-679 | lists the m-backups and deletes all of them |
| `Reconciler.MigrationBackupReconciler.DeleteCheckpointBackup` | internal/controller/migrationbackup_controller.go:673-675 | a backup that is already gone is no error |
| `Reconciler.MigrationBackupReconciler.ReconcileDelete` | internal/controller/migrationbackup_controller.go:284-308 | carries out exactly the delete program: label removal, backups, finalizer, stopping at the first error |
| `Reconciler.MigrationBackupReconciler.AddLabelToTargetResource` | internal/controller/migrationbackup_controller.go:311-375 | get and put of the target with the label added, with the error cases of a missing target, client or cluster and of the kind |
| `Reconciler.MigrationBackupReconciler.RemoveLabelFromTargetResource` | internal/controller/migrationbackup_controller.go:378-448 | get and put with the label removed; a missing target or client is no error, an unsupported kind is one |
| `Reconciler.MigrationBackupReconciler.RemoveLabelFromPods` | internal/controller/migrationbackup_controller.go:418-443 | the removal on each source cluster in order, passing over clusters without the pod |
| `Reconciler.MigrationBackupReconciler.GetPodsFromResourceRef` | internal/controller/migrationbackup_controller.go:451-502 | what is left of the pass after discovery is its body for exactly the returned pods, or the returned error |
| `Reconciler.MigrationBackupReconciler.GetPodsFromSelector` | internal/controller/migrationbackup_controller.go:505-520 | the pods that the selector matches in the namespace, or an error when it cannot be parsed |
| `Reconciler.MigrationBackupReconciler.GetPodsFromClusters` | internal/controller/migrationbackup_controller.go:483-497 | the pods of this name on the source clusters in cluster order, passing over clusters without one |
| `Reconciler.MigrationBackupReconciler.EnsureStatefulMigrationNamespace` | internal/controller/migrationbackup_controller.go:184-225 | creates the shared namespace when it is missing and then sees to its policy when there is a client |
| `Reconciler.MigrationBackupReconciler.EnsureNamespacePropagationPolicy` | internal/controller/migrationbackup_controller.go:228-281 | upserts the policy when the check finds none, and leaves an existing one alone |
| `Safety.NoLeakedBackups` | internal/controller/migrationbackup_controller.go:111-126 | in every reachable state, for any number of workers and all faults, restarts, edits and deletion requests, a labelled backup is keyed by its labels and its migration exists with the finalizer |
| `Safety.AdvanceSafe` | internal/controller/migrationbackup_controller.go:284-308 | one request of any pass keeps this invariant and the shape of what is left of the pass, and touches no other migration |
| `Safety.FinalizerAdvance` | internal/controller/migrationbackup_controller.go:299-304 | the request that removes the finalizer leaks nothing: no m-backup is left when it is made |
| `Effect.UpsertsAreOverlay` | internal/controller/migrationbackup_controller.go:557-572 | whatever the iterations, their joint effect is: desired specs over what was there, missing backups added, everything else as before |
| `Effect.DesiredExactly` | internal/controller/migrationbackup_controller.go:525-572 | under arbitrary duplicates and collisions a desired name has labels and owner of the first iteration that produces it and the spec of the last |
| `Effect.DesiredNames` | internal/controller/migrationbackup_controller.go:163-171 | the desired names are exactly those that some iteration produces |
| `Effect.DesiredPolicyExactly` | internal/controller/migrationbackup_controller.go:574-575 | the policy of a name is the one of the last iteration that produces the name |
| `Effect.PolicyUpsertsAreOverlay` | internal/controller/karmada_client.go:99-136 | the joint effect of the policy upserts, with the system labels of policies that were there before |
| `Passes.WantsRun` | internal/controller/migrationbackup_controller.go:163-171 | cut off anywhere, the loop has done its first n iterations and perhaps the backup of the next one |
| `Passes.CleanupRun` | internal/controller/migrationbackup_controller.go:629-658 | the clean-up deletes orphans only, and all of them when it gets through |
| `Passes.DiscoverRun` | internal/controller/migrationbackup_controller.go:451-502 | discovery changes nothing and yields the selected pods in some order, or for a pod target the pods in cluster order |
| `Iterations.AnyOrderSameBackups` | internal/controller/migrationbackup_controller.go:163-171 | whatever names collide, the loops have the same effect on backups for every order of the pods |
| `Iterations.AnyDiscovery` | internal/controller/migrationbackup_controller.go:504-520 | whatever list of pods discovery yields, the desired backups, policies and live pods are the same |
| `Iterations.InjectiveConsistent` | internal/controller/migrationbackup_controller.go:525 | with distinct pods and names that do not collide, iterations that share a name are the same iteration |
| `Convergence.NormalPass` | internal/controller/migrationbackup_controller.go:130-181 | the exact effect: a pass that gets through leaves the goal for the pods it discovered; one that fails early has added the finalizer and the label at most; however it ends, all other objects are untouched |
| `Convergence.PassKeepsGoal` | internal/controller/migrationbackup_controller.go:130-181 | a pass with any faults, cut off anywhere, with any collisions and any order of the pods, leaves the goal where it was, and reaches it when it gets through |
| `Convergence.CrashRestartConvergence` | internal/controller/migrationbackup_controller.go:130-181 | after any number of passes cut off anywhere, a pass that gets through ends in the same store as it would have from the start |
| `Convergence.IdempotentIffStable` | internal/controller/migrationbackup_controller.go:130-181 | a second successful pass changes nothing if and only if no desired name was taken by a dead backup of the migration |
| `Progress.ConvergesIffStable` | internal/controller/migrationbackup_controller.go:130-181 | for a target that is there, every sequence of cut-off passes followed by a successful one ends in the same store if and only if no desired name was taken by a dead backup of the migration |
| `Counterexamples.DashSuffixBreaksConvergence` | internal/controller/migrationbackup_controller.go:525-572 | for any two cluster names of which one dash-ends in the other there is a run to a store from which passes do not converge |
| `Exactness.GoalPointwise` | internal/controller/migrationbackup_controller.go:648-654 | what a pass makes of the backup at any one name: deleted if dead and of the migration, else respecified if wanted, else unchanged |
| `Exactness.OneBackupPerPair` | internal/controller/migrationbackup_controller.go:164-174 | a pass leaves exactly the pairs of a live pod and a source cluster as m-backups if and only if every m-backup of a live pod that it finds is such a pair and nothing else sits on the names of pairs |
| `Exactness.PairCount` | examples/README.md:82 | there are as many names as pods times clusters if and only if no two pairs share one |
| `Exactness.BackupCount` | examples/README.md:139 | a successful pass leaves, in number, the m-backups that survive it and the pairs whose names were free; only pairs exactly under the condition above; and then pods times clusters of them exactly if no two pairs share a name, hence none without pods |
| `Exactness.TidyHasOnlyPairs` | internal/controller/migrationbackup_controller.go:164-174 | well-formed m-backups that only mention source clusters, on names that nobody else uses, satisfy the condition in a stable start |
| `Counterexamples.RemovedClusterLeavesTwo` | internal/controller/migrationbackup_controller.go:648-654 | for any two clusters there is a run with successful passes only after which one pod and one source cluster have two backups |
| `Exactness.PolicyCoverage` | internal/controller/migrationbackup_controller.go:593-625 | after a successful pass with the Karmada client, every pair of a live pod and a source cluster has a policy that selects exactly its backup and places it on exactly its cluster if and only if no two pairs share a name |
| `Exactness.AnnotationsAreLost` | internal/controller/karmada_client.go:115-135 | a successful pass leaves every policy that it upserts without annotations, whatever was stored |
| `Exactness.PassFrame` | internal/controller/migrationbackup_controller.go:632-655 | a pass with any replies, cut off anywhere, leaves backups of other migrations alone unless their very name is wanted, adds wanted backups only, and touches policies under wanted names only and never an existing namespace policy |
| `Exactness.NamesMakeApart` | internal/controller/migrationbackup_controller.go:525 | in any store that satisfies the invariant of all runs, two migrations in different namespaces, or with names of which neither followed by a dash is a prefix of the other, do not meet |
| `Exactness.PassesCommute` | internal/controller/migrationbackup_controller.go:130-181 | successful passes of two such migrations give the same store in either order, but for the namespace policy |
| `Interleaving.InterleavingIsSerial` | internal/controller/migrationbackup_controller.go:130-181 | every interleaving of the requests of two passes, with any replies and wherever it is cut off, ends in the state of one pass after the other in either order, when names and targets are apart and the shared namespace, its policy and the CRDs are there |
| `Interleaving.RequestsCommute` | internal/controller/migrationbackup_controller.go:130-181 | two next requests of such passes can be made in either order |
| `Interleaving.StepHasEffect` | internal/controller/migrationbackup_controller.go:557-572 | one request changes at most one object |
| `CollisionFree.RuleMakesStable` | internal/controller/migrationbackup_controller.go:525 | in any store that satisfies the invariant of all runs, dash-free cluster names make a pass stable |
| `CollisionFree.CleanConvergence` | internal/controller/migrationbackup_controller.go:130-181 | convergence, nothing left wrong, and idempotence, all under conditions on names that can be checked beforehand |
| `CollisionFree.CleanRepair` | internal/controller/migrationbackup_controller.go:164-177 | monotone repair for workloads from the naming rule and the invariant of all runs alone |
| `CollisionFree.OldClustersStay` | internal/controller/migrationbackup_controller.go:648-654 | after a successful pass an m-backup is there exactly if its pod lives, with its labels, and with a new spec exactly if its name is wanted; under the naming rule that of a removed cluster is not wanted |
| `CollisionFree.LastPodWins` | internal/controller/migrationbackup_controller.go:483-497 | after a successful pass over a pod target the stored backup of every source cluster has the schedule, registry and reference of the migration, and the name, the namespace and the main containers of the pod on the last source cluster that has one |
| `Observed.KindByName` | internal/controller/migrationbackup_controller.go:314-372 | a target is a StatefulSet, a Deployment or a pod exactly when its kind is that word up to case, and unsupported otherwise |
| `Observed.SelectorMeans` | internal/controller/migrationbackup_controller.go:505-508 | a selector selects the pods with all its labels that meet all its requirements |
| `Observed.RequirementMeans` | internal/controller/migrationbackup_controller.go:505-508 | what each of the four operators asks of the labels of a pod |
| `Observed.MigrationAfterNormalPass` | internal/controller/migrationbackup_controller.go:111-118 | a successful normal pass adds the finalizer, keeps those of other controllers, and changes nothing else in any migration |
| `Observed.TargetAfterNormalPass` | internal/controller/migrationbackup_controller.go:311-375 | a successful normal pass sets checkpoint-migration.dcn.io to "true" on the object with the kind, namespace and name of the reference, for a pod on the first source cluster, keeps its other labels and its selector, and changes no other workload or member pod |
| `Observed.PodsOfWorkload` | internal/controller/migrationbackup_controller.go:454-476 | the pods of a workload are exactly those in the namespace of the reference that the selector of that very workload selects |
| `Observed.PodsOfPodTarget` | internal/controller/migrationbackup_controller.go:478-499 | the pods of a pod target are exactly those with its namespace and name on the source clusters |
| `Observed.InfraAfterNormalPass` | internal/controller/migrationbackup_controller.go:184-216 | after a successful normal pass the namespace is there, and with a client so is the CRD on every source cluster and on no other that lacked it |
| `Observed.NamespacePolicyAfterNormalPass` | internal/controller/migrationbackup_controller.go:228-281 | a missing namespace policy is created with all source clusters, the kind Namespace and its four labels, an existing one is left alone, and without a client no policy changes |
| `Observed.LostCheckInstalls` | internal/controller/member_cluster_client.go:176-212 | a CRD check that is lost is followed by the installation, and the task succeeds |
| `Observed.LostCheckOfInstalledFails` | internal/controller/member_cluster_client.go:176-212 | if the CRD is there after all the pass fails instead |
| `ObservedLoop.BackupsAfterNormalPass` | internal/controller/migrationbackup_controller.go:629-658 | which backups there are after a successful pass, name by name: one that is labelled with the migration and with no current pod goes, any other stays with its labels and owner, a free name is taken exactly if the loop produces it |
| `ObservedLoop.SpecAfterNormalPass` | internal/controller/migrationbackup_controller.go:543-548 | a backup with a name that the loop produces has the schedule, registry and reference of the migration, and the namespace, the name and the main containers of the pod of the last iteration that produces it |
| `ObservedLoop.LabelsAfterNormalPass` | internal/controller/migrationbackup_controller.go:533-555 | a new backup has the migration as its owner and exactly the three labels of the first iteration that produces its name |
| `ObservedLoop.PolicyAfterNormalPass` | internal/controller/migrationbackup_controller.go:593-626 | the policy of a produced backup selects this backup, places it on the cluster of the last iteration that produces the name, and has exactly the labels with the two Karmada prefixes that it had before |
| `ObservedLoop.OtherPoliciesAfterNormalPass` | internal/controller/migrationbackup_controller.go:602-625 | no other policy is changed but the missing one of the shared namespace |
| `Observed.MigrationAfterDeletePass` | internal/controller/migrationbackup_controller.go:299-304 | a successful delete pass takes the finalizer away: a migration without another one is gone, any other keeps its spec and its other finalizers, and no other migration changes |
| `Observed.BackupsAfterDeletePass` | internal/controller/migrationbackup_controller.go:661-684 | a successful delete pass removes the backups in the namespace with the label stateful-migration set to the migration, no other backup, and no policy or pod |
| `Observed.WorkloadsAfterDeletePass` | internal/controller/migrationbackup_controller.go:378-415 | the workload with the kind, namespace and name of the reference loses checkpoint-migration.dcn.io and nothing else, and no other workload changes |
| `Observed.PodsAfterDeletePass` | internal/controller/migrationbackup_controller.go:416-444 | with a client, so do the pods with the namespace and name of a pod reference on all source clusters, and no other member pod changes |
| `Observed.NothingToDo` | internal/controller/migrationbackup_controller.go:100-118 | a pass over a migration that is gone, or that is going without the finalizer, changes nothing; only the former can succeed |
| `Observed.FateOfAWrite` | internal/controller/migrationbackup_controller.go:557-572 | a write is refused if and only if what it was prepared for has changed; otherwise it takes effect unless it is lost, and the pass goes on if and only if it is answered |
| `Repair.RequestRepairs` | internal/controller/migrationbackup_controller.go:557-572 | no request of a pass, whatever its fate, adds to the set of wrong backups, when iterations that share a name are the same |
| `Repair.MonotoneRepair` | internal/controller/migrationbackup_controller.go:164-177 | the number of missing, wrongly specified and orphaned backups never rises from request to request, and is zero at the goal |
| `Rising.MonotoneIffConsistent` | internal/controller/migrationbackup_controller.go:164-177 | from all stable starts no request raises the number of wrong backups if and only if iterations that share a name are the same iteration |
| `Rising.InconsistentRises` | internal/controller/migrationbackup_controller.go:483-497 | otherwise every pass that finds nothing wrong has a request that raises it |
| `Repair.NothingWrongAtGoal` | internal/controller/migrationbackup_controller.go:648-654 | a successful pass leaves nothing wrong if and only if no desired name was taken by a dead backup of the migration |
| `Deletion.DeletePass` | internal/controller/migrationbackup_controller.go:284-308 | a delete pass only deletes m-backups, keeps the finalizer until all are gone, fails only for lack of an answer if the kind is supported, and has the exact effect when it gets through |
| `Deletion.UnsupportedKindIsStuck` | internal/controller/migrationbackup_controller.go:445-447 | for an unsupported kind every delete pass fails and changes nothing |
| `Counterexamples.UnsupportedKindGetsStuck` | internal/controller/migrationbackup_controller.go:111-126 | there is a run that adds the finalizer to a migration of an unsupported kind, after whose deletion request every pass fails and changes nothing |
| `Deletion.UnmarkedExactly` | internal/controller/migrationbackup_controller.go:378-448 | removing the label changes nothing if and only if no object that it touches has it |
| `Deletion.LifeOfAMigration` | internal/controller/migrationbackup_controller.go:311-448 | after any number of normal passes and a successful delete pass the targets have their old labels without the migration label, no m-backup is left, and all policies are |
| `PassRuns.PassIsRun` | internal/controller/migrationbackup_controller.go:68-127 | the passes of a quiet cluster are runs of the transition system with the same store at the end |
| `PassRuns.ClientsOnceCreated` | internal/controller/migrationbackup_controller.go:72-98 | between two starts of the process there are both clients or none, and both exactly from the first pass on that finds a kubeconfig |
| `PassRuns.DeletionNeverAddsBackups` | internal/controller/migrationbackup_controller.go:121-123 | once deletion is requested and no normal pass is in flight, in no run does an m-backup appear until the migration is released |
| `Progress.NormalPassCanSucceed` | internal/controller/migrationbackup_controller.go:311-375 | a normal pass can get through if and only if the workload exists with a selector that parses, or the pod exists on the first source cluster and there is a client |
| `Progress.FaultFreeNormalPass` | internal/controller/migrationbackup_controller.go:130-181 | a normal pass of which every request is answered gets through if and only if its target is there, and then leaves the goal |
| `Progress.FaultFreeDeletePass` | internal/controller/migrationbackup_controller.go:284-308 | a delete pass of which every request is answered gets through if and only if the kind is supported, and then no m-backup, label or finalizer is left |
| `Progress.DeletePassCanSucceed` | internal/controller/migrationbackup_controller.go:378-448 | a delete pass can get through if and only if the kind is supported, whether or not the target still exists |
| `Placement.BackupsStayAimed` | internal/controller/migrationbackup_controller.go:528-572 | over every run whose names do not collide each backup is for the pod its label names and each policy of a backup places it on one cluster |
| `Placement.DashFreeBackupsStayAimed` | internal/controller/migrationbackup_controller.go:525-572 | the same for runs whose migration and cluster names are free of dash prefixes and suffixes, which can be checked beforehand |
| `Placement.PolicyOfBackup` | internal/controller/migrationbackup_controller.go:602-623 | in such a state the policy of a backup places exactly this backup on the cluster of its label |
| `Placement.SystemLabelsForever` | internal/controller/karmada_client.go:121-133 | over any sequence of upserts no label that starts with propagationpolicy.karmada.io/ or karmada.io/ is dropped or changed, and all other labels are the last caller's |
| `Placement.UpsertTwice` | internal/controller/karmada_client.go:121-133 | repeating an upsert changes nothing |
| `Placement.NoRequestLosesSystemLabels` | internal/controller/karmada_client.go:99-136 | in every reachable state no request of the controller removes a policy or drops or changes one of its labels with these two prefixes |
| `SingleWorker.CrdBeforePlacement` | internal/controller/migrationbackup_controller.go:72-98 | with one worker, in every reachable state the member client is there when Karmada's is, and every policy of a backup is for clusters that have the CRD |
| `SingleWorker.NamespacePolicyIsWrittenOnce` | internal/controller/migrationbackup_controller.go:228-281 | with one worker, over any run with faults, restarts and other users, the placement of the namespace policy stays as it was until somebody deletes the policy |
| `SingleWorker.NoRequestOverwrites` | internal/controller/migrationbackup_controller.go:228-281 | with one worker no request in a reachable state changes an existing namespace policy |
| `Counterexamples.TwoWorkersOverwrite` | internal/controller/migrationbackup_controller.go:682-688 | with two workers a state is reachable in which the next request replaces the placement of the namespace policy |
| `Counterexamples.TwoWorkersPlaceEarly` | internal/controller/migrationbackup_controller.go:72-98 | with two workers a state is reachable in which the policy of a backup is for a cluster without the CRD |

## Left out

- Construction of the clients, kubeconfig, REST paths, serialization, logging and connection tests: I/O; what is kept is whether a client exists. The kubeconfig is a parameter of a pass.
- A CRD definition that cannot be read counts as a lost create request: the effects are the same.
- `SetControllerReference` cannot fail for an object built in the namespace of its owner; the owner is modelled by the name of the migration and not by its UID, so garbage collection by owner reference and migrations re-created under the same name with a new UID are not told apart.
- Parsing of selectors: one is given as required labels and requirements of the four operators, or cannot be parsed.
- An absent label map and an empty one are the same.
- Status fields, events, the requeue after five minutes and the retry times of the work queue.
- Limits on the length and characters of Kubernetes names; the results on names hold for all strings.
- Lower-casing of kinds covers ASCII letters: the other characters with an ASCII lower case become k or i, which occur in none of the three kinds.
- `DeletePropagationPolicy`, `EnsureNamespace`, `ListPodsFromCluster` and `TestClusterConnection`: not called by the controller.
- The labels of the shared namespace: only its existence is modelled.
- The empty reconcilers for CheckpointBackup and MigrationRestore, generated deep copies, CRD texts, manifests and scripts: no behaviour to prove.
- Two migrations with one target: deleting one removes a label that the other wants until its next pass.
