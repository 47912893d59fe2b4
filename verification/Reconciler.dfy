/** The reconciler itself. Every method is tied to the tasks that it carries out: the store, the
    replies that are left and the outcome are those of `Exec` on these tasks. */
module Reconciler {
  import opened Objects
  import opened Naming
  import opened Cluster
  import opened Machine
  import opened ApiServers
  import opened KarmadaClients
  import opened MemberClusterClients
  import opened System

  class MigrationBackupReconciler {
    const api: ApiServer
    var karmadaClient: KarmadaClient?
    var memberClusterClient: MemberClusterClient?

    ghost predicate Valid()
      reads this
    {
      && (karmadaClient != null ==> karmadaClient.api == api)
      && (memberClusterClient != null ==> memberClusterClient.karmadaClient.api == api)
    }

    ghost function Clients(): Machine.Clients
      reads this
    {
      Machine.Clients(karmadaClient != null, memberClusterClient != null)
    }

    /** Both clients are nil when the manager starts. */
    constructor (api: ApiServer)
      ensures Valid() && this.api == api && Clients() == NO_CLIENTS
    {
      this.api := api;
      karmadaClient, memberClusterClient := null, null;
    }

    /** `kubeconfig` says whether a Karmada client can be built from the mounted kubeconfig. */
    method Reconcile(key: NsName, kubeconfig: bool) returns (status: Status)
      requires Valid()
      modifies this, api
      ensures Valid() && Clients() == ClientsAtStart(old(Clients()), kubeconfig)
      ensures Run(api.store, api.replies, status)
        == Exec(key, Clients(), old(api.store), [Fetch], old(api.replies))
    {
      if karmadaClient == null {
        if kubeconfig {
          karmadaClient := new KarmadaClient(api);
          memberClusterClient := new MemberClusterClient(karmadaClient);
        }
      }

      FetchRun(key, Clients(), api.store, api.replies);
      var got := api.Get(Find(api.store.migrations, key));
      if got.Err? {
        return if got.error.NotFound? then Done else Failed(got.error);
      }
      var migration := got.value;

      if FINALIZER !in migration.finalizers {
        AddFinalizerRun(key, Clients(), api.store, migration, api.replies);
        var seen := migration;
        migration := WithFinalizer(migration);
        var updated := api.Put(MigrationVerdict(api.store, key, seen, migration),
                               PutMigration(api.store, key, migration));
        if updated.Failed? {
          return updated;
        }
      }

      if migration.deleting {
        status := ReconcileDelete(key, migration);
      } else {
        status := ReconcileNormal(key, migration);
      }
    }

    method ReconcileNormal(key: NsName, migration: Migration) returns (status: Status)
      requires Valid()
      modifies api
      ensures Run(api.store, api.replies, status)
        == Exec(key, Clients(), old(api.store), NormalProgram(key, migration), old(api.replies))
    {
      var spec := migration.spec;
      ghost var cl := Clients();
      ExecSplit(key, cl, api.store, [LabelTask(spec)], DiscoverTasks(key, migration), api.replies);
      status := AddLabelToTargetResource(key, spec);
      if status.Failed? {
        return;
      }

      PodKindNeedsClient(key, cl, old(api.store), spec, old(api.replies));
      var discovered := GetPodsFromResourceRef(key, migration);
      if discovered.Err? {
        return Failed(discovered.error);
      }
      var pods := discovered.value;

      ghost var wants := Wants(key, spec, pods, spec.sourceClusters);
      ghost var afterCrds := WantTasks(wants) + [ListOrphans(PodNames(pods))];
      ghost var afterNamespace := CrdTasks(spec.sourceClusters) + afterCrds;
      ExecSplit(key, cl, api.store, NamespaceTasks(spec.sourceClusters), afterNamespace, api.replies);
      status := EnsureStatefulMigrationNamespace(key, spec.sourceClusters);
      if status.Failed? {
        return;
      }

      ExecSplit(key, cl, api.store, CrdTasks(spec.sourceClusters), afterCrds, api.replies);
      status := EnsureCRDs(key, spec.sourceClusters);
      if status.Failed? {
        return;
      }

      ExecSplit(key, cl, api.store, WantTasks(wants), [ListOrphans(PodNames(pods))], api.replies);
      status := ReconcileCheckpointBackups(key, spec, pods);
      if status.Failed? {
        return;
      }

      status := CleanupOrphanedCheckpointBackups(key, pods);
    }

    /** Step 4: nothing to do, and no request, while there is no member cluster client. */
    method EnsureCRDs(key: NsName, clusters: seq<string>) returns (status: Status)
      requires Valid()
      modifies api
      ensures Run(api.store, api.replies, status)
        == Exec(key, Clients(), old(api.store), CrdTasks(clusters), old(api.replies))
    {
      for i := 0 to |clusters|
        invariant Exec(key, Clients(), old(api.store), CrdTasks(clusters), old(api.replies))
          == Exec(key, Clients(), api.store, CrdTasks(clusters[i..]), api.replies)
      {
        ExecSplit(key, Clients(), api.store, [GetCRD(clusters[i])], CrdTasks(clusters[i + 1..]), api.replies);
        assert clusters[i..][1..] == clusters[i + 1..];
        if memberClusterClient != null {
          status := memberClusterClient.EnsureCRD(key, Clients(), clusters[i]);
          if status.Failed? {
            return;
          }
        } else {
          ExecOne(key, Clients(), api.store, GetCRD(clusters[i]), api.replies);
        }
      }
      status := Done;
    }

    /** Step 5: every pod on every source cluster. */
    method ReconcileCheckpointBackups(key: NsName, spec: MigrationSpec, pods: seq<PodInfo>) returns (status: Status)
      requires Valid()
      modifies api
      ensures Run(api.store, api.replies, status)
        == Exec(key, Clients(), old(api.store), WantTasks(Wants(key, spec, pods, spec.sourceClusters)),
                old(api.replies))
    {
      var clusters := spec.sourceClusters;
      for i := 0 to |clusters|
        invariant Exec(key, Clients(), old(api.store), WantTasks(Wants(key, spec, pods, clusters)), old(api.replies))
          == Exec(key, Clients(), api.store, WantTasks(Wants(key, spec, pods, clusters[i..])), api.replies)
      {
        ghost var on, later := WantsOn(key, spec, pods, clusters[i]), Wants(key, spec, pods, clusters[i + 1..]);
        assert clusters[i..][1..] == clusters[i + 1..];
        WantTasksConcat(on, later);
        ExecSplit(key, Clients(), api.store, WantTasks(on), WantTasks(later), api.replies);
        status := ReconcileCheckpointBackupsOnCluster(key, spec, pods, clusters[i]);
        if status.Failed? {
          return;
        }
      }
      status := Done;
    }

    /** The inner loop of step 5. */
    method ReconcileCheckpointBackupsOnCluster(key: NsName, spec: MigrationSpec, pods: seq<PodInfo>, cluster: string)
      returns (status: Status)
      requires Valid()
      modifies api
      ensures Run(api.store, api.replies, status)
        == Exec(key, Clients(), old(api.store), WantTasks(WantsOn(key, spec, pods, cluster)), old(api.replies))
    {
      ghost var on := WantsOn(key, spec, pods, cluster);
      assert on[0..] == on;
      for j := 0 to |pods|
        invariant Exec(key, Clients(), old(api.store), WantTasks(on), old(api.replies))
          == Exec(key, Clients(), api.store, WantTasks(on[j..]), api.replies)
      {
        assert on[j..] == [on[j]] + on[j + 1..];
        WantTasksConcat([on[j]], on[j + 1..]);
        ExecSplit(key, Clients(), api.store, WantTasks([on[j]]), WantTasks(on[j + 1..]), api.replies);
        status := ReconcileCheckpointBackupForPod(key, spec, pods[j], cluster);
        if status.Failed? {
          return;
        }
      }
      status := Done;
    }

    /** The backup of one pod on one cluster, and its policy. */
    method ReconcileCheckpointBackupForPod(key: NsName, spec: MigrationSpec, pod: PodInfo, cluster: string)
      returns (status: Status)
      requires Valid()
      modifies api
      ensures Run(api.store, api.replies, status)
        == Exec(key, Clients(), old(api.store), WantTasks([WantFor(key, spec, pod, cluster)]), old(api.replies))
    {
      var backupName := BackupName(key.name, pod.id.name, cluster);
      var containers := ExtractContainerInfo(pod);
      var backup := Backup(BackupLabels(key.name, pod.id.name, cluster), key,
                           BackupSpec(spec.schedule, PodRef(pod.id.ns, pod.id.name), spec.resourceRef,
                                      spec.registry, containers));
      var want := Want(NsName(key.ns, backupName), backup, cluster);
      assert want == WantFor(key, spec, pod, cluster);

      WantTasksOne(want);
      ExecSplit(key, Clients(), api.store, [GetBackup(want)], [UpsertPolicy(PolicyId(want.id), PolicyFor(want))],
                api.replies);
      status := CreateOrUpdateBackup(key, want);
      if status.Failed? {
        return;
      }
      status := CreateOrUpdatePropagationPolicy(key, want);
    }

    /** Creates the backup, or overwrites nothing but the spec of an existing one. */
    method CreateOrUpdateBackup(key: NsName, want: Want) returns (status: Status)
      requires Valid()
      modifies api
      ensures Run(api.store, api.replies, status)
        == Exec(key, Clients(), old(api.store), [GetBackup(want)], old(api.replies))
    {
      ghost var cl := Clients();
      ghost var next := if want.id in api.store.backups then PutBackup(want, api.store.backups[want.id])
                        else CreateBackup(want);
      ReadRun(key, cl, api.store, GetBackup(want), [next], api.replies);
      var got := api.Get(Find(api.store.backups, want.id));
      match got
      case Err(NotFound) =>
        WriteRun(key, cl, api.store, next, CreateVerdict(want.id in api.store.backups),
                 api.store.(backups := api.store.backups[want.id := want.backup]), [], api.replies);
        status := api.Put(CreateVerdict(want.id in api.store.backups),
                          api.store.(backups := api.store.backups[want.id := want.backup]));
      case Err(e) =>
        status := Failed(e);
      case Ok(existingBackup) =>
        var updated := existingBackup.(spec := want.backup.spec);
        WriteRun(key, cl, api.store, next, UpdateVerdict(Find(api.store.backups, want.id), existingBackup),
                 api.store.(backups := api.store.backups[want.id := updated]), [], api.replies);
        status := api.Put(UpdateVerdict(Find(api.store.backups, want.id), existingBackup),
                          api.store.(backups := api.store.backups[want.id := updated]));
    }

    /** Main containers only; init containers are not read. */
    method ExtractContainerInfo(pod: PodInfo) returns (containers: seq<Container>)
      ensures containers == Containers(pod.containers)
    {
      containers := [];
      for i := 0 to |pod.containers|
        invariant |containers| == i
        invariant forall j | 0 <= j < i ::
          containers[j] == Container(pod.containers[j].name, pod.containers[j].image)
      {
        containers := containers + [Container(pod.containers[i].name, pod.containers[i].image)];
      }
    }

    method CreateOrUpdatePropagationPolicy(key: NsName, want: Want) returns (status: Status)
      requires Valid()
      modifies api
      ensures Run(api.store, api.replies, status)
        == Exec(key, Clients(), old(api.store), [UpsertPolicy(PolicyId(want.id), PolicyFor(want))], old(api.replies))
    {
      if karmadaClient == null {
        ExecOne(key, Clients(), api.store, UpsertPolicy(PolicyId(want.id), PolicyFor(want)), api.replies);
        return Done;
      }
      status := karmadaClient.CreateOrUpdatePropagationPolicy(key, Clients(), PolicyId(want.id), PolicyFor(want));
    }

    /** Step 6: deletes the listed backups whose pod is not among the current ones. */
    method CleanupOrphanedCheckpointBackups(key: NsName, currentPods: seq<PodInfo>) returns (status: Status)
      requires Valid()
      modifies api
      ensures Run(api.store, api.replies, status)
        == Exec(key, Clients(), old(api.store), [ListOrphans(PodNames(currentPods))], old(api.replies))
    {
      ghost var cl := Clients();
      ExecOne(key, cl, api.store, ListOrphans(PodNames(currentPods)), api.replies);
      var items := api.store.backups;
      var listed := api.List(Selected(key, items));
      if listed.Err? {
        return Failed(listed.error);
      }
      assert forall id | id in listed.value :: id in ToSet(listed.value);
      var currentPodNames := PodNameSet(currentPods);
      status := DeleteOrphans(key, items, listed.value, currentPodNames);
    }

    method PodNameSet(currentPods: seq<PodInfo>) returns (currentPodNames: set<string>)
      ensures currentPodNames == PodNames(currentPods)
    {
      currentPodNames := {};
      for i := 0 to |currentPods|
        invariant currentPodNames == PodNames(currentPods[..i])
      {
        assert currentPods[..i + 1] == currentPods[..i] + [currentPods[i]];
        currentPodNames := currentPodNames + {currentPods[i].id.name};
      }
      assert currentPods[..|currentPods|] == currentPods;
    }

    method DeleteOrphans(key: NsName, items: map<NsName, Backup>, ids: seq<NsName>, currentPodNames: set<string>)
      returns (status: Status)
      requires Valid()
      requires forall id | id in ids :: id in items
      modifies api
      ensures Run(api.store, api.replies, status)
        == Exec(key, Clients(), old(api.store), DeleteTasks(OrphansIn(items, currentPodNames, ids)), old(api.replies))
    {
      assert ids[0..] == ids;
      for i := 0 to |ids|
        invariant Exec(key, Clients(), old(api.store), DeleteTasks(OrphansIn(items, currentPodNames, ids)),
                       old(api.replies))
          == Exec(key, Clients(), api.store, DeleteTasks(OrphansIn(items, currentPodNames, ids[i..])), api.replies)
      {
        assert ids[i..][1..] == ids[i + 1..];
        ghost var later := OrphansIn(items, currentPodNames, ids[i + 1..]);
        var labels := items[ids[i]].labels;
        if BACKUP_POD !in labels || labels[BACKUP_POD] !in currentPodNames {
          DeleteFirst(key, Clients(), api.store, ids[i], later, api.replies);
          status := DeleteCheckpointBackup(key, ids[i]);
          if status.Failed? {
            return;
          }
        } else {
          assert [] + later == later;
        }
      }
      status := Done;
    }

    method DeleteAllCheckpointBackups(key: NsName) returns (status: Status)
      requires Valid()
      modifies api
      ensures Run(api.store, api.replies, status)
        == Exec(key, Clients(), old(api.store), [ListAll], old(api.replies))
    {
      ghost var cl := Clients();
      ghost var whole := Exec(key, cl, api.store, [ListAll], api.replies);
      ListAllRun(key, cl, api.store, api.replies);
      var listed := api.List(Selected(key, api.store.backups));
      if listed.Err? {
        return Failed(listed.error);
      }
      var ids := listed.value;
      assert ids[0..] == ids;
      for i := 0 to |ids|
        invariant whole == Exec(key, cl, api.store, DeleteTasks(ids[i..]), api.replies)
      {
        assert ids[i..] == [ids[i]] + ids[i + 1..];
        DeleteFirst(key, cl, api.store, ids[i], ids[i + 1..], api.replies);
        status := DeleteCheckpointBackup(key, ids[i]);
        if status.Failed? {
          return;
        }
      }
      status := Done;
    }

    /** Both loops ignore "not found" from a delete. */
    method DeleteCheckpointBackup(key: NsName, id: NsName) returns (status: Status)
      requires Valid()
      modifies api
      ensures Run(api.store, api.replies, status)
        == Exec(key, Clients(), old(api.store), [DeleteBackup(id)], old(api.replies))
    {
      ExecOne(key, Clients(), api.store, DeleteBackup(id), api.replies);
      assert id !in api.store.backups ==> api.store.backups - {id} == api.store.backups;
      status := api.Put(if id in api.store.backups then None else Some(NotFound),
                        api.store.(backups := api.store.backups - {id}));
      if status == Failed(NotFound) {
        status := Done;
      }
    }

    method ReconcileDelete(key: NsName, migration: Migration) returns (status: Status)
      requires Valid()
      modifies api
      ensures Run(api.store, api.replies, status)
        == Exec(key, Clients(), old(api.store), DeleteProgram(migration), old(api.replies))
    {
      ghost var cl := Clients();
      ExecSplit(key, cl, api.store, UnlabelTasks(migration.spec), [ListAll, RemoveFinalizer(migration)], api.replies);
      status := RemoveLabelFromTargetResource(key, migration.spec);
      if status.Failed? {
        return;
      }

      ReleaseComesLast(key, cl, api.store, migration, api.replies);
      status := DeleteAllCheckpointBackups(key);
      if status.Failed? {
        return;
      }

      var released := WithoutFinalizer(migration);
      RemoveFinalizerRun(key, cl, api.store, migration, api.replies);
      status := api.Put(MigrationVerdict(api.store, key, migration, released),
                        PutMigration(api.store, key, released));
    }

    method AddLabelToTargetResource(key: NsName, spec: MigrationSpec) returns (status: Status)
      requires Valid()
      modifies api
      ensures Run(api.store, api.replies, status)
        == Exec(key, Clients(), old(api.store), [LabelTask(spec)], old(api.replies))
    {
      ghost var cl := Clients();
      ExecOne(key, cl, api.store, LabelTask(spec), api.replies);
      match KindOf(spec.resourceRef)
      case WorkloadTarget(kind) =>
        var id := WorkloadId(kind, RefId(spec.resourceRef));
        var got := api.Get(Find(api.store.workloads, id));
        if got.Err? {
          return Failed(got.error);
        }
        var w := got.value;
        var labelled := w.(labels := w.labels[MIGRATION_LABEL := "true"]);
        ExecOne(key, cl, api.store, PutWorkload(id, w, labelled), api.replies);
        status := api.Put(UpdateVerdict(Find(api.store.workloads, id), w),
                          api.store.(workloads := api.store.workloads[id := labelled]));
      case PodTarget =>
        if memberClusterClient == null {
          return Failed(NoClient);
        }
        if spec.sourceClusters == [] {
          return Failed(NoClusters);
        }
        var cluster := spec.sourceClusters[0];
        var got := memberClusterClient.GetPodFromCluster(cluster, RefId(spec.resourceRef));
        if got.Err? {
          return Failed(got.error);
        }
        var pod := got.value;
        var labelled := pod.(labels := pod.labels[MIGRATION_LABEL := "true"]);
        status := memberClusterClient.UpdatePodInCluster(
          key, cl, MemberPodId(cluster, RefId(spec.resourceRef)), pod, labelled);
      case Unsupported =>
        return Failed(UnsupportedKind);
    }

    method RemoveLabelFromTargetResource(key: NsName, spec: MigrationSpec) returns (status: Status)
      requires Valid()
      modifies api
      ensures Run(api.store, api.replies, status)
        == Exec(key, Clients(), old(api.store), UnlabelTasks(spec), old(api.replies))
    {
      ghost var cl := Clients();
      match KindOf(spec.resourceRef)
      case WorkloadTarget(kind) =>
        var id := WorkloadId(kind, RefId(spec.resourceRef));
        ExecOne(key, cl, api.store, UnlabelWorkload(id), api.replies);
        var got := api.Get(Find(api.store.workloads, id));
        if got.Err? {
          return if got.error.NotFound? then Done else Failed(got.error);
        }
        var w := got.value;
        var unlabelled := w.(labels := w.labels - {MIGRATION_LABEL});
        ExecOne(key, cl, api.store, PutWorkload(id, w, unlabelled), api.replies);
        status := api.Put(UpdateVerdict(Find(api.store.workloads, id), w),
                          api.store.(workloads := api.store.workloads[id := unlabelled]));
      case PodTarget =>
        status := RemoveLabelFromPods(key, spec.sourceClusters, RefId(spec.resourceRef));
      case Unsupported =>
        ExecOne(key, cl, api.store, RejectKind, api.replies);
        return Failed(UnsupportedKind);
    }

    method RemoveLabelFromPods(key: NsName, clusters: seq<string>, pod: NsName) returns (status: Status)
      requires Valid()
      modifies api
      ensures Run(api.store, api.replies, status)
        == Exec(key, Clients(), old(api.store), UnlabelPods(clusters, pod), old(api.replies))
    {
      ghost var cl := Clients();
      if memberClusterClient == null {
        UnlabelPodsSkipped(key, cl, api.store, clusters, pod, api.replies);
        return Done;
      }
      for i := 0 to |clusters|
        invariant Exec(key, cl, old(api.store), UnlabelPods(clusters, pod), old(api.replies))
          == Exec(key, cl, api.store, UnlabelPods(clusters[i..], pod), api.replies)
      {
        var place := MemberPodId(clusters[i], pod);
        assert clusters[i..][1..] == clusters[i + 1..];
        ExecSplit(key, cl, api.store, [UnlabelPod(place)], UnlabelPods(clusters[i + 1..], pod), api.replies);
        ExecOne(key, cl, api.store, UnlabelPod(place), api.replies);
        var got := memberClusterClient.GetPodFromCluster(clusters[i], pod);
        if got.Ok? {
          var unlabelled := got.value.(labels := got.value.labels - {MIGRATION_LABEL});
          status := memberClusterClient.UpdatePodInCluster(key, cl, place, got.value, unlabelled);
          if status.Failed? {
            return;
          }
        } else if !got.error.NotFound? {
          return Failed(got.error);
        }
      }
      status := Done;
    }

    /** The pods that the resource reference stands for. What follows in the pass is the body for
        exactly these pods; without a member cluster client there is no discovery of a pod target. */
    method GetPodsFromResourceRef(key: NsName, migration: Migration) returns (r: Result<seq<PodInfo>>)
      requires Valid()
      modifies api`replies
      ensures KindOf(migration.spec.resourceRef).PodTarget? && memberClusterClient == null ==>
        r == Err(NoClient) && api.replies == old(api.replies)
      ensures !(KindOf(migration.spec.resourceRef).PodTarget? && memberClusterClient == null) ==>
        Exec(key, Clients(), api.store, DiscoverTasks(key, migration), old(api.replies)) ==
          match r
          case Ok(pods) => Exec(key, Clients(), api.store, Body(key, migration.spec, pods), api.replies)
          case Err(e) => Run(api.store, api.replies, Failed(e))
    {
      ghost var cl := Clients();
      var ref := migration.spec.resourceRef;
      match KindOf(ref)
      case WorkloadTarget(kind) =>
        var id := WorkloadId(kind, RefId(ref));
        ExecOne(key, cl, api.store, FindWorkload(migration, id), api.replies);
        var got := api.Get(Find(api.store.workloads, id));
        if got.Err? {
          return Err(got.error);
        }
        r := GetPodsFromSelector(key, migration, got.value.selector);
      case PodTarget =>
        if memberClusterClient == null {
          return Err(NoClient);
        }
        r := GetPodsFromClusters(key, migration);
      case Unsupported =>
        ExecOne(key, cl, api.store, RejectKind, api.replies);
        return Err(UnsupportedKind);
    }

    method GetPodsFromSelector(key: NsName, migration: Migration, selector: Selector) returns (r: Result<seq<PodInfo>>)
      requires Valid()
      modifies api`replies
      ensures selector.Unparsable? ==> r == Err(Invalid) && api.replies == old(api.replies)
      ensures !selector.Unparsable? ==>
        Exec(key, Clients(), api.store, [ListPods(migration, selector)], old(api.replies)) ==
          match r
          case Ok(pods) => Exec(key, Clients(), api.store, Body(key, migration.spec, pods), api.replies)
          case Err(e) => Run(api.store, api.replies, Failed(e))
    {
      if selector.Unparsable? {
        return Err(Invalid);
      }
      ExecOne(key, Clients(), api.store, ListPods(migration, selector), api.replies);
      var ids := SelectedPods(api.store, migration.spec.resourceRef.ns, selector);
      var listed := api.List(ids);
      if listed.Err? {
        return Err(listed.error);
      }
      assert forall id | id in listed.value :: id in ToSet(listed.value);
      r := Ok(PodInfos(api.store.pods, listed.value));
    }

    /** A pod target is looked up on every source cluster; clusters without it are passed over. */
    method GetPodsFromClusters(key: NsName, migration: Migration) returns (r: Result<seq<PodInfo>>)
      requires Valid() && memberClusterClient != null
      modifies api`replies
      ensures Exec(key, Clients(), api.store, Collect(key, migration, migration.spec.sourceClusters, []),
                   old(api.replies)) ==
          match r
          case Ok(pods) => Exec(key, Clients(), api.store, Body(key, migration.spec, pods), api.replies)
          case Err(e) => Run(api.store, api.replies, Failed(e))
    {
      ghost var cl := Clients();
      var clusters := migration.spec.sourceClusters;
      var pod := RefId(migration.spec.resourceRef);
      var allPods: seq<PodInfo> := [];
      assert clusters[0..] == clusters;
      for i := 0 to |clusters|
        invariant api.store == old(api.store)
        invariant Exec(key, cl, api.store, Collect(key, migration, clusters, []), old(api.replies))
          == Exec(key, cl, api.store, Collect(key, migration, clusters[i..], allPods), api.replies)
      {
        assert clusters[i..][1..] == clusters[i + 1..];
        ghost var place := MemberPodId(clusters[i], pod);
        ghost var now :=
          if place in api.store.memberPods then allPods + [api.store.memberPods[place].info] else allPods;
        ReadRun(key, cl, api.store, FindPod(migration, clusters[i], clusters[i + 1..], allPods),
                Collect(key, migration, clusters[i + 1..], now), api.replies);
        var got := memberClusterClient.GetPodFromCluster(clusters[i], pod);
        if got.Ok? {
          allPods := allPods + [got.value.info];
        } else if !got.error.NotFound? {
          return Err(got.error);
        }
      }
      r := Ok(allPods);
    }

    /** Step 3: the shared namespace, and its policy when there is a Karmada client. */
    method EnsureStatefulMigrationNamespace(key: NsName, clusters: seq<string>) returns (status: Status)
      requires Valid()
      modifies api
      ensures Run(api.store, api.replies, status)
        == Exec(key, Clients(), old(api.store), NamespaceTasks(clusters), old(api.replies))
    {
      ghost var cl := Clients();
      assert NamespaceTasks(clusters) == [GetNamespace] + [GetNamespacePolicy(clusters)];
      ExecSplit(key, cl, api.store, [GetNamespace], [GetNamespacePolicy(clusters)], api.replies);
      ReadRun(key, cl, api.store, GetNamespace,
              if MIGRATION_NAMESPACE in api.store.namespaces then [] else [CreateNamespace], api.replies);
      var got := api.Get(if MIGRATION_NAMESPACE in api.store.namespaces then Some(()) else None);
      if got.Err? {
        if !got.error.NotFound? {
          return Failed(got.error);
        }
        WriteRun(key, cl, api.store, CreateNamespace, CreateVerdict(MIGRATION_NAMESPACE in api.store.namespaces),
                 api.store.(namespaces := api.store.namespaces + {MIGRATION_NAMESPACE}), [], api.replies);
        status := api.Put(CreateVerdict(MIGRATION_NAMESPACE in api.store.namespaces),
                          api.store.(namespaces := api.store.namespaces + {MIGRATION_NAMESPACE}));
        if status.Failed? {
          return;
        }
      }
      if karmadaClient != null {
        status := EnsureNamespacePropagationPolicy(key, clusters);
      } else {
        ExecOne(key, cl, api.store, GetNamespacePolicy(clusters), api.replies);
        status := Done;
      }
    }

    /** Create-only: an existing policy is left as it is. */
    method EnsureNamespacePropagationPolicy(key: NsName, clusters: seq<string>) returns (status: Status)
      requires Valid() && karmadaClient != null
      modifies api
      ensures Run(api.store, api.replies, status)
        == Exec(key, Clients(), old(api.store), [GetNamespacePolicy(clusters)], old(api.replies))
    {
      ExecOne(key, Clients(), api.store, GetNamespacePolicy(clusters), api.replies);
      var got := api.Get(Find(api.store.policies, NAMESPACE_POLICY));
      match got
      case Err(NotFound) =>
        status := karmadaClient.CreateOrUpdatePropagationPolicy(
          key, Clients(), NAMESPACE_POLICY, NamespacePolicy(clusters));
      case Err(e) =>
        status := Failed(e);
      case Ok(_) =>
        status := Done;
    }
  }

  // ----- Facts about the task lists that the methods use -----

  lemma FetchRun(key: NsName, cl: Clients, st: Store, replies: seq<Reply>)
    ensures Exec(key, cl, st, [Fetch], replies) ==
      if !Head(replies).Answer? then Run(st, Tail(replies), Failed(Unavailable))
      else if key !in st.migrations then Run(st, Tail(replies), Done)
      else Exec(key, cl, st, AfterFetch(key, st.migrations[key]), Tail(replies))
  {
    ExecOne(key, cl, st, Fetch, replies);
  }

  lemma RemoveFinalizerRun(key: NsName, cl: Clients, st: Store, seen: Migration, replies: seq<Reply>)
    ensures var now := WithoutFinalizer(seen);
      var w := Write(st, MigrationVerdict(st, key, seen, now), PutMigration(st, key, now), Head(replies));
      Exec(key, cl, st, [RemoveFinalizer(seen)], replies) ==
        Run(w.store, Tail(replies), if w.error.Some? then Failed(w.error.value) else Done)
  {
    ExecOne(key, cl, st, RemoveFinalizer(seen), replies);
  }

  lemma ReleaseComesLast(key: NsName, cl: Clients, st: Store, m: Migration, replies: seq<Reply>)
    ensures Exec(key, cl, st, [ListAll, RemoveFinalizer(m)], replies)
         == Then(key, cl, Exec(key, cl, st, [ListAll], replies), [RemoveFinalizer(m)])
  {
    assert [ListAll, RemoveFinalizer(m)] == [ListAll] + [RemoveFinalizer(m)];
    ExecSplit(key, cl, st, [ListAll], [RemoveFinalizer(m)], replies);
  }

  lemma ListAllRun(key: NsName, cl: Clients, st: Store, replies: seq<Reply>)
    ensures var reply := Head(replies);
      Exec(key, cl, st, [ListAll], replies) ==
        if reply.Answer? && Enumerates(reply.listing, Selected(key, st.backups))
        then Exec(key, cl, st, DeleteTasks(reply.listing), Tail(replies))
        else Run(st, Tail(replies), Failed(Unavailable))
  {
    ExecOne(key, cl, st, ListAll, replies);
  }

  lemma DeleteFirst(key: NsName, cl: Clients, st: Store, id: NsName, later: seq<NsName>, replies: seq<Reply>)
    ensures Exec(key, cl, st, DeleteTasks([id] + later), replies)
         == Then(key, cl, Exec(key, cl, st, [DeleteBackup(id)], replies), DeleteTasks(later))
  {
    assert DeleteTasks([id] + later) == [DeleteBackup(id)] + DeleteTasks(later);
    ExecSplit(key, cl, st, [DeleteBackup(id)], DeleteTasks(later), replies);
  }

  lemma AddFinalizerRun(key: NsName, cl: Clients, st: Store, seen: Migration, replies: seq<Reply>)
    ensures var now := WithFinalizer(seen);
      var w := Write(st, MigrationVerdict(st, key, seen, now), PutMigration(st, key, now), Head(replies));
      Exec(key, cl, st, [AddFinalizer(seen)], replies) ==
        if w.error.Some? then Run(w.store, Tail(replies), Failed(w.error.value))
        else Exec(key, cl, w.store, Program(key, now), Tail(replies))
  {
    ExecOne(key, cl, st, AddFinalizer(seen), replies);
  }

  lemma WantTasksOne(w: Want)
    ensures WantTasks([w]) == [GetBackup(w)] + [UpsertPolicy(PolicyId(w.id), PolicyFor(w))]
  {
    assert [w][1..] == [];
  }

  /** Labelling a pod target fails without a member cluster client, so discovery never lacks one. */
  lemma PodKindNeedsClient(key: NsName, cl: Clients, st: Store, spec: MigrationSpec, replies: seq<Reply>)
    requires Exec(key, cl, st, [LabelTask(spec)], replies).status.Done?
    ensures KindOf(spec.resourceRef).PodTarget? ==> cl.member && spec.sourceClusters != []
  {
  }
}
