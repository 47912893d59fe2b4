/** One reconcile pass as a program counter: a list of tasks, each of which makes one API request
    and may put further tasks in front of the rest. */
module Machine {
  import opened Objects
  import opened Naming
  import opened Cluster

  /** Which of the two clients of the reconciler are not nil. */
  datatype Clients = Clients(karmada: bool, member: bool)

  /** A backup that a normal pass wants to exist, and the cluster it is propagated to. */
  datatype Want = Want(id: NsName, backup: Backup, cluster: string)

  datatype Task =
    | Fetch
    | AddFinalizer(seen: Migration)
    | LabelWorkload(target: WorkloadId)
    | UnlabelWorkload(target: WorkloadId)
    | PutWorkload(target: WorkloadId, before: Workload, after: Workload)
    | LabelPod(clusters: seq<string>, pod: NsName)
    | UnlabelPod(place: MemberPodId)
    | PutPod(place: MemberPodId, podBefore: Pod, podAfter: Pod)
    | FindWorkload(migration: Migration, target: WorkloadId)
    | ListPods(migration: Migration, selector: Selector)
    | FindPod(migration: Migration, cluster: string, rest: seq<string>, found: seq<PodInfo>)
    | GetNamespace
    | CreateNamespace
    | GetNamespacePolicy(clusters: seq<string>)
    | UpsertPolicy(policyId: NsName, policy: Policy)
    | CreatePolicy(policyId: NsName, policy: Policy)
    | PutPolicy(policyId: NsName, existing: Policy, policy: Policy)
    | GetCRD(cluster: string)
    | CreateCRD(cluster: string)
    | GetBackup(want: Want)
    | CreateBackup(want: Want)
    | PutBackup(want: Want, current: Backup)
    | ListOrphans(live: set<string>)
    | ListAll
    | DeleteBackup(backupId: NsName)
    | RemoveFinalizer(seen: Migration)
    | RejectKind

  // ----- The objects a pass builds -----

  function BackupLabels(migration: string, pod: string, cluster: string): (labels: Labels)
    ensures labels.Keys == {BACKUP_MIGRATION, BACKUP_CLUSTER, BACKUP_POD}
    ensures labels[BACKUP_MIGRATION] == migration
    ensures labels[BACKUP_CLUSTER] == cluster
    ensures labels[BACKUP_POD] == pod
  {
    map[BACKUP_MIGRATION := migration, BACKUP_CLUSTER := cluster, BACKUP_POD := pod]
  }

  function Containers(containers: seq<PodContainer>): (r: seq<Container>)
    ensures |r| == |containers|
    ensures forall i | 0 <= i < |r| :: r[i] == Container(containers[i].name, containers[i].image)
  {
    seq(|containers|, i requires 0 <= i < |containers| => Container(containers[i].name, containers[i].image))
  }

  function WantFor(key: NsName, spec: MigrationSpec, pod: PodInfo, cluster: string): Want {
    Want(NsName(key.ns, BackupName(key.name, pod.id.name, cluster)),
         Backup(BackupLabels(key.name, pod.id.name, cluster), key,
                BackupSpec(spec.schedule, PodRef(pod.id.ns, pod.id.name), spec.resourceRef, spec.registry,
                           Containers(pod.containers))),
         cluster)
  }

  function PolicyId(backup: NsName): NsName {
    NsName(backup.ns, PolicyName(backup.name))
  }

  function PolicyFor(w: Want): Policy {
    Policy(map[], map[], ResourceSelector("migration.dcnlab.com/v1", "CheckpointBackup", w.id.name), [w.cluster])
  }

  predicate OfBackup(policy: Policy) {
    policy.selector.kind == "CheckpointBackup"
  }

  const NAMESPACE_POLICY := NsName(MIGRATION_NAMESPACE, MIGRATION_NAMESPACE + "-propagation")

  function NamespacePolicy(clusters: seq<string>): Policy {
    Policy(map["created-by" := "stateful-migration-operator",
               "app.kubernetes.io/name" := "stateful-migration",
               "app.kubernetes.io/part-of" := "stateful-migration-operator",
               "resource-type" := "namespace"],
           map[], ResourceSelector("v1", "Namespace", MIGRATION_NAMESPACE), clusters)
  }

  // ----- The programs -----

  function WantsOn(key: NsName, spec: MigrationSpec, pods: seq<PodInfo>, cluster: string): (ws: seq<Want>)
    ensures |ws| == |pods|
    ensures forall i | 0 <= i < |pods| :: ws[i] == WantFor(key, spec, pods[i], cluster)
  {
    seq(|pods|, i requires 0 <= i < |pods| => WantFor(key, spec, pods[i], cluster))
  }

  /** The iterations of the clusters x pods loop, in order. */
  function Wants(key: NsName, spec: MigrationSpec, pods: seq<PodInfo>, clusters: seq<string>): seq<Want> {
    if clusters == [] then []
    else WantsOn(key, spec, pods, clusters[0]) + Wants(key, spec, pods, clusters[1..])
  }

  function CrdTasks(clusters: seq<string>): seq<Task> {
    if clusters == [] then [] else [GetCRD(clusters[0])] + CrdTasks(clusters[1..])
  }

  function WantTasks(ws: seq<Want>): seq<Task> {
    if ws == [] then []
    else [GetBackup(ws[0]), UpsertPolicy(PolicyId(ws[0].id), PolicyFor(ws[0]))] + WantTasks(ws[1..])
  }

  function PodNames(pods: seq<PodInfo>): set<string> {
    set pod | pod in pods :: pod.id.name
  }

  function NamespaceTasks(clusters: seq<string>): seq<Task> {
    [GetNamespace, GetNamespacePolicy(clusters)]
  }

  lemma {:induction false} CrdTasksShape(clusters: seq<string>)
    ensures forall t | t in CrdTasks(clusters) :: t.GetCRD? && t.cluster in clusters
  {
    if clusters != [] {
      CrdTasksShape(clusters[1..]);
    }
  }

  lemma {:induction false} WantTasksShape(ws: seq<Want>)
    ensures forall t | t in WantTasks(ws) :: t.GetBackup? || t.UpsertPolicy?
  {
    if ws != [] {
      WantTasksShape(ws[1..]);
    }
  }

  lemma {:induction false} WantTasksConcat(a: seq<Want>, b: seq<Want>)
    ensures WantTasks(a + b) == WantTasks(a) + WantTasks(b)
  {
    if a == [] {
      assert a + b == b;
    } else {
      assert (a + b)[1..] == a[1..] + b;
      WantTasksConcat(a[1..], b);
    }
  }

  /** Steps 3 to 6 of a normal pass, once the pods are known. */
  function Body(key: NsName, spec: MigrationSpec, pods: seq<PodInfo>): seq<Task> {
    NamespaceTasks(spec.sourceClusters) + (CrdTasks(spec.sourceClusters)
    + (WantTasks(Wants(key, spec, pods, spec.sourceClusters)) + [ListOrphans(PodNames(pods))]))
  }

  function LabelTask(spec: MigrationSpec): Task {
    match KindOf(spec.resourceRef)
    case WorkloadTarget(kind) => LabelWorkload(WorkloadId(kind, RefId(spec.resourceRef)))
    case PodTarget => LabelPod(spec.sourceClusters, RefId(spec.resourceRef))
    case Unsupported => RejectKind
  }

  /** Pod discovery over the remaining clusters, continuing with the body of the pass. */
  function Collect(key: NsName, m: Migration, clusters: seq<string>, found: seq<PodInfo>): seq<Task> {
    if clusters == [] then Body(key, m.spec, found) else [FindPod(m, clusters[0], clusters[1..], found)]
  }

  function DiscoverTasks(key: NsName, m: Migration): seq<Task> {
    match KindOf(m.spec.resourceRef)
    case WorkloadTarget(kind) => [FindWorkload(m, WorkloadId(kind, RefId(m.spec.resourceRef)))]
    case PodTarget => Collect(key, m, m.spec.sourceClusters, [])
    case Unsupported => [RejectKind]
  }

  function NormalProgram(key: NsName, m: Migration): seq<Task> {
    [LabelTask(m.spec)] + DiscoverTasks(key, m)
  }

  function UnlabelPods(clusters: seq<string>, pod: NsName): seq<Task> {
    if clusters == [] then [] else [UnlabelPod(MemberPodId(clusters[0], pod))] + UnlabelPods(clusters[1..], pod)
  }

  function UnlabelTasks(spec: MigrationSpec): seq<Task> {
    match KindOf(spec.resourceRef)
    case WorkloadTarget(kind) => [UnlabelWorkload(WorkloadId(kind, RefId(spec.resourceRef)))]
    case PodTarget => UnlabelPods(spec.sourceClusters, RefId(spec.resourceRef))
    case Unsupported => [RejectKind]
  }

  function DeleteProgram(m: Migration): seq<Task> {
    UnlabelTasks(m.spec) + [ListAll, RemoveFinalizer(m)]
  }

  function Program(key: NsName, m: Migration): seq<Task> {
    if m.deleting then DeleteProgram(m) else NormalProgram(key, m)
  }

  function WithFinalizer(m: Migration): Migration {
    m.(finalizers := m.finalizers + {FINALIZER})
  }

  function WithoutFinalizer(m: Migration): Migration {
    m.(finalizers := m.finalizers - {FINALIZER})
  }

  function AfterFetch(key: NsName, m: Migration): seq<Task> {
    if FINALIZER in m.finalizers then Program(key, m) else [AddFinalizer(m)]
  }

  function DeleteTasks(ids: seq<NsName>): (ts: seq<Task>)
    ensures |ts| == |ids|
    ensures forall i | 0 <= i < |ids| :: ts[i] == DeleteBackup(ids[i])
  {
    seq(|ids|, i requires 0 <= i < |ids| => DeleteBackup(ids[i]))
  }

  /** A listed backup whose pod label is missing or names no current pod. */
  predicate Dead(live: set<string>, b: Backup) {
    BACKUP_POD !in b.labels || b.labels[BACKUP_POD] !in live
  }

  /** The listed backups that the clean-up deletes, in list order. */
  function OrphansIn(backups: map<NsName, Backup>, live: set<string>, ids: seq<NsName>): seq<NsName> {
    if ids == [] then []
    else (if ids[0] in backups && Dead(live, backups[ids[0]]) then [ids[0]] else [])
         + OrphansIn(backups, live, ids[1..])
  }

  // ----- One step -----

  datatype Turn = Go(store: Store, next: seq<Task>) | Halt(store: Store, error: Error)

  function ReadTurn(st: Store, reply: Reply, next: seq<Task>): Turn {
    if reply.Answer? then Go(st, next) else Halt(st, Unavailable)
  }

  function WriteTurn(st: Store, verdict: Option<Error>, now: Store, reply: Reply, next: seq<Task>): Turn {
    var w := Write(st, verdict, now, reply);
    if w.error.Some? then Halt(w.store, w.error.value) else Go(w.store, next)
  }

  function FailedRead(st: Store, reply: Reply, error: Error): Turn {
    Halt(st, if reply.Answer? then error else Unavailable)
  }

  function MigrationTurn(key: NsName, st: Store, seen: Migration, now: Migration, reply: Reply, next: seq<Task>): Turn {
    WriteTurn(st, MigrationVerdict(st, key, seen, now), PutMigration(st, key, now), reply, next)
  }

  function Labelled(labels: Labels): Labels {
    labels[MIGRATION_LABEL := "true"]
  }

  function Unlabelled(labels: Labels): Labels {
    labels - {MIGRATION_LABEL}
  }

  function WorkloadTurn(st: Store, t: Task, reply: Reply): Turn
    requires t.LabelWorkload? || t.UnlabelWorkload? || t.PutWorkload?
  {
    if t.PutWorkload? then
      WriteTurn(st, UpdateVerdict(Find(st.workloads, t.target), t.before),
                st.(workloads := st.workloads[t.target := t.after]), reply, [])
    else if t.target in st.workloads then
      var w := st.workloads[t.target];
      var labels := if t.LabelWorkload? then Labelled(w.labels) else Unlabelled(w.labels);
      ReadTurn(st, reply, [PutWorkload(t.target, w, w.(labels := labels))])
    else if t.LabelWorkload? then FailedRead(st, reply, NotFound)
    else ReadTurn(st, reply, [])
  }

  function PodTurn(st: Store, t: Task, reply: Reply): Turn
    requires t.LabelPod? || t.UnlabelPod? || t.PutPod?
    requires t.LabelPod? ==> t.clusters != []
  {
    if t.PutPod? then
      WriteTurn(st, UpdateVerdict(Find(st.memberPods, t.place), t.podBefore),
                st.(memberPods := st.memberPods[t.place := t.podAfter]), reply, [])
    else
      var place := if t.LabelPod? then MemberPodId(t.clusters[0], t.pod) else t.place;
      if place in st.memberPods then
        var pod := st.memberPods[place];
        var labels := if t.LabelPod? then Labelled(pod.labels) else Unlabelled(pod.labels);
        ReadTurn(st, reply, [PutPod(place, pod, pod.(labels := labels))])
      else if t.LabelPod? then FailedRead(st, reply, NotFound)
      else ReadTurn(st, reply, [])
  }

  function PodInfos(pods: map<NsName, Pod>, ids: seq<NsName>): (infos: seq<PodInfo>)
    requires forall id | id in ids :: id in pods
    ensures |infos| == |ids|
    ensures forall i | 0 <= i < |ids| :: infos[i] == pods[ids[i]].info
  {
    seq(|ids|, i requires 0 <= i < |ids| => pods[ids[i]].info)
  }

  function DiscoverTurn(key: NsName, st: Store, t: Task, reply: Reply): Turn
    requires t.FindWorkload? || t.ListPods? || t.FindPod?
  {
    match t
    case FindWorkload(m, target) =>
      if target !in st.workloads then FailedRead(st, reply, NotFound)
      else if st.workloads[target].selector.Unparsable? then FailedRead(st, reply, Invalid)
      else ReadTurn(st, reply, [ListPods(m, st.workloads[target].selector)])
    case ListPods(m, selector) =>
      var ids := SelectedPods(st, m.spec.resourceRef.ns, selector);
      if reply.Answer? && Enumerates(reply.listing, ids) then
        Go(st, Body(key, m.spec, PodInfos(st.pods, reply.listing)))
      else Halt(st, Unavailable)
    case FindPod(m, cluster, rest, found) =>
      var place := MemberPodId(cluster, RefId(m.spec.resourceRef));
      var now := if place in st.memberPods then found + [st.memberPods[place].info] else found;
      ReadTurn(st, reply, Collect(key, m, rest, now))
  }

  function PolicyTurn(st: Store, t: Task, reply: Reply): Turn
    requires t.GetNamespacePolicy? || t.UpsertPolicy? || t.CreatePolicy? || t.PutPolicy?
  {
    match t
    case GetNamespacePolicy(clusters) =>
      ReadTurn(st, reply, if NAMESPACE_POLICY in st.policies then []
                          else [UpsertPolicy(NAMESPACE_POLICY, NamespacePolicy(clusters))])
    case UpsertPolicy(id, policy) =>
      ReadTurn(st, reply, if id in st.policies
                          then [PutPolicy(id, st.policies[id], MergePolicy(policy, st.policies[id]))]
                          else [CreatePolicy(id, policy)])
    case CreatePolicy(id, policy) =>
      WriteTurn(st, CreateVerdict(id in st.policies), st.(policies := st.policies[id := policy]), reply, [])
    case PutPolicy(id, existing, policy) =>
      WriteTurn(st, UpdateVerdict(Find(st.policies, id), existing),
                st.(policies := st.policies[id := policy]), reply, [])
  }

  function InfraTurn(st: Store, t: Task, reply: Reply): Turn
    requires t.GetNamespace? || t.CreateNamespace? || t.GetCRD? || t.CreateCRD?
  {
    match t
    case GetNamespace =>
      ReadTurn(st, reply, if MIGRATION_NAMESPACE in st.namespaces then [] else [CreateNamespace])
    case CreateNamespace =>
      WriteTurn(st, CreateVerdict(MIGRATION_NAMESPACE in st.namespaces),
                st.(namespaces := st.namespaces + {MIGRATION_NAMESPACE}), reply, [])
    case GetCRD(cluster) =>
      // any error of the existence check is taken for "not installed"
      Go(st, if reply.Answer? && cluster in st.crds then [] else [CreateCRD(cluster)])
    case CreateCRD(cluster) =>
      WriteTurn(st, CreateVerdict(cluster in st.crds), st.(crds := st.crds + {cluster}), reply, [])
  }

  function BackupTurn(st: Store, t: Task, reply: Reply): Turn
    requires t.GetBackup? || t.CreateBackup? || t.PutBackup?
  {
    match t
    case GetBackup(w) =>
      ReadTurn(st, reply, if w.id in st.backups then [PutBackup(w, st.backups[w.id])] else [CreateBackup(w)])
    case CreateBackup(w) =>
      WriteTurn(st, CreateVerdict(w.id in st.backups), st.(backups := st.backups[w.id := w.backup]), reply, [])
    case PutBackup(w, current) =>
      WriteTurn(st, UpdateVerdict(Find(st.backups, w.id), current),
                st.(backups := st.backups[w.id := current.(spec := w.backup.spec)]), reply, [])
  }

  function CleanupTurn(key: NsName, st: Store, t: Task, reply: Reply): Turn
    requires t.ListOrphans? || t.ListAll? || t.DeleteBackup?
  {
    match t
    case ListOrphans(live) =>
      if reply.Answer? && Enumerates(reply.listing, Selected(key, st.backups))
      then Go(st, DeleteTasks(OrphansIn(st.backups, live, reply.listing)))
      else Halt(st, Unavailable)
    case ListAll =>
      if reply.Answer? && Enumerates(reply.listing, Selected(key, st.backups))
      then Go(st, DeleteTasks(reply.listing))
      else Halt(st, Unavailable)
    case DeleteBackup(id) =>
      // a backup that is already gone is not an error
      WriteTurn(st, None, st.(backups := st.backups - {id}), reply, [])
  }

  /** One API request of the pass over `key`. */
  function Step(key: NsName, st: Store, t: Task, reply: Reply): Turn
    requires t.LabelPod? ==> t.clusters != []
  {
    match t
    case Fetch => ReadTurn(st, reply, if key in st.migrations then AfterFetch(key, st.migrations[key]) else [])
    case AddFinalizer(seen) =>
      MigrationTurn(key, st, seen, WithFinalizer(seen), reply, Program(key, WithFinalizer(seen)))
    case RemoveFinalizer(seen) => MigrationTurn(key, st, seen, WithoutFinalizer(seen), reply, [])
    case LabelWorkload(_) => WorkloadTurn(st, t, reply)
    case UnlabelWorkload(_) => WorkloadTurn(st, t, reply)
    case PutWorkload(_, _, _) => WorkloadTurn(st, t, reply)
    case LabelPod(_, _) => PodTurn(st, t, reply)
    case UnlabelPod(_) => PodTurn(st, t, reply)
    case PutPod(_, _, _) => PodTurn(st, t, reply)
    case FindWorkload(_, _) => DiscoverTurn(key, st, t, reply)
    case ListPods(_, _) => DiscoverTurn(key, st, t, reply)
    case FindPod(_, _, _, _) => DiscoverTurn(key, st, t, reply)
    case GetNamespacePolicy(_) => PolicyTurn(st, t, reply)
    case UpsertPolicy(_, _) => PolicyTurn(st, t, reply)
    case CreatePolicy(_, _) => PolicyTurn(st, t, reply)
    case PutPolicy(_, _, _) => PolicyTurn(st, t, reply)
    case GetNamespace => InfraTurn(st, t, reply)
    case CreateNamespace => InfraTurn(st, t, reply)
    case GetCRD(_) => InfraTurn(st, t, reply)
    case CreateCRD(_) => InfraTurn(st, t, reply)
    case GetBackup(_) => BackupTurn(st, t, reply)
    case CreateBackup(_) => BackupTurn(st, t, reply)
    case PutBackup(_, _) => BackupTurn(st, t, reply)
    case ListOrphans(_) => CleanupTurn(key, st, t, reply)
    case ListAll => CleanupTurn(key, st, t, reply)
    case DeleteBackup(_) => CleanupTurn(key, st, t, reply)
    case RejectKind => Halt(st, UnsupportedKind)
  }

  /** Which tasks can write what. */
  predicate WritesMigration(t: Task) {
    t.AddFinalizer? || t.RemoveFinalizer?
  }

  predicate WritesBackups(t: Task) {
    t.CreateBackup? || t.PutBackup? || t.DeleteBackup?
  }

  predicate WritesPolicies(t: Task) {
    t.CreatePolicy? || t.PutPolicy?
  }

  lemma WorkloadFrame(st: Store, t: Task, reply: Reply)
    requires t.LabelWorkload? || t.UnlabelWorkload? || t.PutWorkload?
    ensures WorkloadTurn(st, t, reply).store.(workloads := st.workloads) == st
  {
  }

  lemma PodFrame(st: Store, t: Task, reply: Reply)
    requires t.LabelPod? || t.UnlabelPod? || t.PutPod?
    requires t.LabelPod? ==> t.clusters != []
    ensures PodTurn(st, t, reply).store.(memberPods := st.memberPods) == st
  {
  }

  lemma PolicyFrame(st: Store, t: Task, reply: Reply)
    requires t.GetNamespacePolicy? || t.UpsertPolicy? || t.CreatePolicy? || t.PutPolicy?
    ensures PolicyTurn(st, t, reply).store.(policies := st.policies) == st
    ensures !WritesPolicies(t) ==> PolicyTurn(st, t, reply).store == st
  {
  }

  lemma InfraFrame(st: Store, t: Task, reply: Reply)
    requires t.GetNamespace? || t.CreateNamespace? || t.GetCRD? || t.CreateCRD?
    ensures InfraTurn(st, t, reply).store.(namespaces := st.namespaces, crds := st.crds) == st
    ensures !t.CreateCRD? ==> InfraTurn(st, t, reply).store.crds == st.crds
  {
  }

  lemma BackupFrame(st: Store, t: Task, reply: Reply)
    requires t.GetBackup? || t.CreateBackup? || t.PutBackup?
    ensures BackupTurn(st, t, reply).store.(backups := st.backups) == st
    ensures t.GetBackup? ==> BackupTurn(st, t, reply).store == st
  {
  }

  lemma CleanupFrame(key: NsName, st: Store, t: Task, reply: Reply)
    requires t.ListOrphans? || t.ListAll? || t.DeleteBackup?
    ensures CleanupTurn(key, st, t, reply).store.(backups := st.backups) == st
    ensures !t.DeleteBackup? ==> CleanupTurn(key, st, t, reply).store == st
  {
  }

  predicate OnObjects(t: Task) {
    t.LabelWorkload? || t.UnlabelWorkload? || t.PutWorkload? || t.LabelPod? || t.UnlabelPod? || t.PutPod? ||
    t.GetBackup? || t.CreateBackup? || t.PutBackup?
  }

  ghost predicate Frame(t: Task, st: Store, now: Store) {
    && (!WritesMigration(t) ==> now.migrations == st.migrations)
    && (!WritesBackups(t) ==> now.backups == st.backups)
    && (!WritesPolicies(t) ==> now.policies == st.policies)
    && (!t.CreateCRD? ==> now.crds == st.crds)
  }

  predicate OnInfra(t: Task) {
    t.GetNamespacePolicy? || t.UpsertPolicy? || t.CreatePolicy? || t.PutPolicy? ||
    t.GetNamespace? || t.CreateNamespace? || t.GetCRD? || t.CreateCRD?
  }

  lemma StepFrame(key: NsName, st: Store, t: Task, reply: Reply)
    requires t.LabelPod? ==> t.clusters != []
    ensures Frame(t, st, Step(key, st, t, reply).store)
  {
    if OnObjects(t) {
      ObjectFrame(key, st, t, reply);
    } else if OnInfra(t) {
      InfraStepFrame(key, st, t, reply);
    } else {
      OtherFrame(key, st, t, reply);
    }
  }

  lemma InfraStepFrame(key: NsName, st: Store, t: Task, reply: Reply)
    requires OnInfra(t)
    ensures Frame(t, st, Step(key, st, t, reply).store)
  {
    if t.GetNamespacePolicy? || t.UpsertPolicy? || t.CreatePolicy? || t.PutPolicy? {
      assert Step(key, st, t, reply) == PolicyTurn(st, t, reply);
      PolicyFrame(st, t, reply);
    } else {
      assert Step(key, st, t, reply) == InfraTurn(st, t, reply);
      InfraFrame(st, t, reply);
    }
  }

  lemma DiscoverFrame(key: NsName, st: Store, t: Task, reply: Reply)
    requires t.FindWorkload? || t.ListPods? || t.FindPod?
    ensures DiscoverTurn(key, st, t, reply).store == st
  {
  }

  lemma MigrationFrame(key: NsName, st: Store, seen: Migration, now: Migration, reply: Reply, next: seq<Task>)
    ensures MigrationTurn(key, st, seen, now, reply, next).store.(migrations := st.migrations) == st
  {
  }

  lemma OtherFrame(key: NsName, st: Store, t: Task, reply: Reply)
    requires !OnInfra(t) && !OnObjects(t)
    ensures Frame(t, st, Step(key, st, t, reply).store)
  {
    if t.ListOrphans? || t.ListAll? || t.DeleteBackup? {
      CleanupFrame(key, st, t, reply);
    } else if t.FindWorkload? || t.ListPods? || t.FindPod? {
      DiscoverFrame(key, st, t, reply);
    } else if t.AddFinalizer? {
      MigrationFrame(key, st, t.seen, WithFinalizer(t.seen), reply, Program(key, WithFinalizer(t.seen)));
    } else if t.RemoveFinalizer? {
      MigrationFrame(key, st, t.seen, WithoutFinalizer(t.seen), reply, []);
    }
  }

  lemma ObjectFrame(key: NsName, st: Store, t: Task, reply: Reply)
    requires OnObjects(t) && (t.LabelPod? ==> t.clusters != [])
    ensures Frame(t, st, Step(key, st, t, reply).store)
  {
    if t.LabelWorkload? || t.UnlabelWorkload? || t.PutWorkload? {
      WorkloadFrame(st, t, reply);
    } else if t.LabelPod? || t.UnlabelPod? || t.PutPod? {
      PodFrame(st, t, reply);
    } else {
      BackupFrame(st, t, reply);
    }
  }

  /** Tasks that are passed over, without a request, because a client is nil. */
  predicate Skipped(t: Task, cl: Clients) {
    ((t.GetNamespacePolicy? || t.UpsertPolicy?) && !cl.karmada) || ((t.GetCRD? || t.UnlabelPod?) && !cl.member)
  }

  /** Tasks that end the pass without a request. */
  function Blocked(t: Task, cl: Clients): Option<Error> {
    if t.RejectKind? then Some(UnsupportedKind)
    else if (t.LabelPod? || t.FindPod?) && !cl.member then Some(NoClient)
    else if t.LabelPod? && t.clusters == [] then Some(NoClusters)
    else None
  }

  // ----- A whole pass in a quiet cluster -----

  datatype Status = Done | Failed(error: Error)
  datatype Run = Run(store: Store, replies: seq<Reply>, status: Status)

  /** The next reply; once the replies have run out every request is lost. */
  function Head(replies: seq<Reply>): Reply {
    if replies == [] then Lost else replies[0]
  }

  function Tail(replies: seq<Reply>): seq<Reply> {
    if replies == [] then [] else replies[1..]
  }

  /** Runs tasks until they are done, one fails, or the replies run out. Running out of replies is a
      crash: the pass stops between two requests. */
  function Exec(key: NsName, cl: Clients, st: Store, todo: seq<Task>, replies: seq<Reply>): Run
    decreases |replies|, |todo|
  {
    if todo == [] then Run(st, replies, Done)
    else if Blocked(todo[0], cl).Some? then Run(st, replies, Failed(Blocked(todo[0], cl).value))
    else if Skipped(todo[0], cl) then Exec(key, cl, st, todo[1..], replies)
    else if replies == [] then Run(st, [], Failed(Unavailable))
    else
      var turn := Step(key, st, todo[0], replies[0]);
      if turn.Halt? then Run(turn.store, replies[1..], Failed(turn.error))
      else Exec(key, cl, turn.store, turn.next + todo[1..], replies[1..])
  }

  /** One unfolding of `Exec` on a list given by its head and its rest. */
  lemma ExecCons(key: NsName, cl: Clients, st: Store, t: Task, rest: seq<Task>, replies: seq<Reply>)
    ensures Exec(key, cl, st, [t] + rest, replies) ==
      if Blocked(t, cl).Some? then Run(st, replies, Failed(Blocked(t, cl).value))
      else if Skipped(t, cl) then Exec(key, cl, st, rest, replies)
      else if replies == [] then Run(st, [], Failed(Unavailable))
      else
        var turn := Step(key, st, t, replies[0]);
        if turn.Halt? then Run(turn.store, replies[1..], Failed(turn.error))
        else Exec(key, cl, turn.store, turn.next + rest, replies[1..])
  {
    assert ([t] + rest)[1..] == rest;
  }

  /** `ExecCons` for a list of one task. */
  lemma ExecOne(key: NsName, cl: Clients, st: Store, t: Task, replies: seq<Reply>)
    ensures Exec(key, cl, st, [t], replies) ==
      if Blocked(t, cl).Some? then Run(st, replies, Failed(Blocked(t, cl).value))
      else if Skipped(t, cl) then Run(st, replies, Done)
      else if replies == [] then Run(st, [], Failed(Unavailable))
      else
        var turn := Step(key, st, t, replies[0]);
        if turn.Halt? then Run(turn.store, replies[1..], Failed(turn.error))
        else Exec(key, cl, turn.store, turn.next, replies[1..])
  {
    ExecCons(key, cl, st, t, [], replies);
    assert [t] + [] == [t];
    if Blocked(t, cl).None? && !Skipped(t, cl) && replies != [] {
      var turn := Step(key, st, t, replies[0]);
      if turn.Go? {
        assert turn.next + [] == turn.next;
      }
    }
  }

  /** A request that is answered with `next`, or fails without effect. */
  lemma ReadRun(key: NsName, cl: Clients, st: Store, t: Task, next: seq<Task>, replies: seq<Reply>)
    requires Blocked(t, cl).None? && !Skipped(t, cl)
    requires forall reply :: Step(key, st, t, reply) == ReadTurn(st, reply, next)
    ensures Exec(key, cl, st, [t], replies) ==
      if Head(replies).Answer? then Exec(key, cl, st, next, Tail(replies))
      else Run(st, Tail(replies), Failed(Unavailable))
  {
    ExecOne(key, cl, st, t, replies);
  }

  /** A request that writes, and what follows when the write is acknowledged. */
  lemma WriteRun(
    key: NsName, cl: Clients, st: Store, t: Task, verdict: Option<Error>, now: Store, next: seq<Task>,
    replies: seq<Reply>)
    requires Blocked(t, cl).None? && !Skipped(t, cl)
    requires forall reply :: Step(key, st, t, reply) == WriteTurn(st, verdict, now, reply, next)
    ensures var w := Write(st, verdict, now, Head(replies));
      Exec(key, cl, st, [t], replies) ==
        if w.error.Some? then Run(w.store, Tail(replies), Failed(w.error.value))
        else Exec(key, cl, w.store, next, Tail(replies))
  {
    ExecOne(key, cl, st, t, replies);
  }

  function Then(key: NsName, cl: Clients, r: Run, rest: seq<Task>): Run {
    if r.status.Done? then Exec(key, cl, r.store, rest, r.replies) else r
  }

  /** Running two lists in a row is running the first and then, if it got through, the second. */
  lemma {:induction false} ExecSplit(
    key: NsName, cl: Clients, st: Store, a: seq<Task>, b: seq<Task>, replies: seq<Reply>)
    ensures Exec(key, cl, st, a + b, replies) == Then(key, cl, Exec(key, cl, st, a, replies), b)
    decreases |replies|, |a|
  {
    if a == [] {
      assert a + b == b;
    } else {
      assert (a + b)[0] == a[0] && (a + b)[1..] == a[1..] + b;
      if Blocked(a[0], cl).Some? {
      } else if Skipped(a[0], cl) {
        ExecSplit(key, cl, st, a[1..], b, replies);
      } else if replies != [] {
        var turn := Step(key, st, a[0], replies[0]);
        if turn.Go? {
          assert turn.next + (a[1..] + b) == (turn.next + a[1..]) + b;
          ExecSplit(key, cl, turn.store, turn.next + a[1..], b, replies[1..]);
        }
      }
    }
  }

  /** Without a member cluster client nothing is done about the pods. */
  lemma {:induction false} UnlabelPodsSkipped(
    key: NsName, cl: Clients, st: Store, clusters: seq<string>, pod: NsName, replies: seq<Reply>)
    requires !cl.member
    ensures Exec(key, cl, st, UnlabelPods(clusters, pod), replies) == Run(st, replies, Done)
  {
    if clusters != [] {
      ExecCons(key, cl, st, UnlabelPod(MemberPodId(clusters[0], pod)), UnlabelPods(clusters[1..], pod), replies);
      UnlabelPodsSkipped(key, cl, st, clusters[1..], pod, replies);
    }
  }
}
