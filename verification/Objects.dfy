/** The API objects the controller reads and writes, and the constants of the controller. */
module Objects {

  datatype Option<+T> = None | Some(value: T)

  type Labels = map<string, string>

  datatype NsName = NsName(ns: string, name: string)

  // ----- StatefulMigration -----

  datatype ResourceRef = ResourceRef(apiVersion: string, kind: string, ns: string, name: string)
  datatype Registry = Registry(url: string, repository: string, secretRef: Option<string>)
  datatype MigrationSpec = MigrationSpec(
    resourceRef: ResourceRef, sourceClusters: seq<string>, registry: Registry, schedule: string)
  datatype Migration = Migration(spec: MigrationSpec, finalizers: set<string>, deleting: bool)

  // ----- Workloads and pods -----

  datatype Container = Container(name: string, image: string)
  datatype PodContainer = PodContainer(name: string, image: string, command: seq<string>)

  /** The part of a pod that the controller reads; init containers are kept apart from the main ones. */
  datatype PodInfo = PodInfo(id: NsName, containers: seq<PodContainer>, initContainers: seq<PodContainer>)
  datatype Pod = Pod(labels: Labels, info: PodInfo)

  /** A requirement of `matchExpressions`. */
  datatype Requirement =
    | In(key: string, values: set<string>)
    | NotIn(key: string, values: set<string>)
    | Exists(key: string)
    | DoesNotExist(key: string)

  /** A label selector; one that is absent, and so matches nothing, is `In` over no values. */
  datatype Selector = Unparsable | Parsed(labels: Labels, expressions: seq<Requirement>)
  datatype WorkloadKind = StatefulSet | Deployment
  datatype WorkloadId = WorkloadId(kind: WorkloadKind, id: NsName)
  datatype Workload = Workload(labels: Labels, selector: Selector)

  /** A pod seen through the proxy of one member cluster. */
  datatype MemberPodId = MemberPodId(cluster: string, id: NsName)

  // ----- CheckpointBackup and PropagationPolicy -----

  datatype PodRef = PodRef(ns: string, name: string)
  datatype BackupSpec = BackupSpec(
    schedule: string, podRef: PodRef, resourceRef: ResourceRef, registry: Registry, containers: seq<Container>)
  datatype Backup = Backup(labels: Labels, owner: NsName, spec: BackupSpec)

  /** The backup spec is for this pod, as the migration spec says. */
  ghost predicate Describes(b: BackupSpec, spec: MigrationSpec, pod: PodInfo) {
    && b.schedule == spec.schedule && b.resourceRef == spec.resourceRef && b.registry == spec.registry
    && b.podRef.ns == pod.id.ns && b.podRef.name == pod.id.name
    && |b.containers| == |pod.containers|
    && (forall i | 0 <= i < |pod.containers| ::
          b.containers[i].name == pod.containers[i].name && b.containers[i].image == pod.containers[i].image)
  }

  datatype ResourceSelector = ResourceSelector(apiVersion: string, kind: string, name: string)
  datatype Policy = Policy(
    labels: Labels, annotations: Labels, selector: ResourceSelector, clusters: seq<string>)

  // ----- Constants -----

  const MIGRATION_LABEL := "checkpoint-migration.dcn.io"
  const FINALIZER := "migrationbackup.migration.dcnlab.com/finalizer"
  const BACKUP_MIGRATION := "stateful-migration"
  const BACKUP_CLUSTER := "target-cluster"
  const BACKUP_POD := "target-pod"
  const MIGRATION_NAMESPACE := "stateful-migration"

  // ----- Resource kinds -----

  function LowerChar(c: char): char {
    if 'A' <= c <= 'Z' then (c as int + 32) as char else c
  }

  function ToLower(s: string): (r: string)
    ensures |r| == |s|
  {
    if s == [] then [] else [LowerChar(s[0])] + ToLower(s[1..])
  }

  datatype Kind = WorkloadTarget(kind: WorkloadKind) | PodTarget | Unsupported

  /** The switch on the lower-cased kind that every label and discovery routine starts with. */
  function KindOf(ref: ResourceRef): Kind {
    var kind := ToLower(ref.kind);
    if kind == "statefulset" then WorkloadTarget(StatefulSet)
    else if kind == "deployment" then WorkloadTarget(Deployment)
    else if kind == "pod" then PodTarget
    else Unsupported
  }

  function RefId(ref: ResourceRef): NsName {
    NsName(ref.ns, ref.name)
  }

  predicate Satisfies(labels: Labels, r: Requirement) {
    match r
    case In(key, values) => key in labels && labels[key] in values
    case NotIn(key, values) => key in labels ==> labels[key] !in values
    case Exists(key) => key in labels
    case DoesNotExist(key) => key !in labels
  }

  predicate Matches(selector: Selector, pod: Pod) {
    && selector.Parsed?
    && selector.labels.Items <= pod.labels.Items
    && forall r | r in selector.expressions :: Satisfies(pod.labels, r)
  }

  function Find<K, V>(m: map<K, V>, k: K): Option<V> {
    if k in m then Some(m[k]) else None
  }
}
