/** The cluster state that outlives the controller, and what each API request does to it. */
module Cluster {
  import opened Objects
  import opened Naming

  datatype Store = Store(
    migrations: map<NsName, Migration>,
    workloads: map<WorkloadId, Workload>,
    pods: map<NsName, Pod>,
    memberPods: map<MemberPodId, Pod>,
    namespaces: set<string>,
    crds: set<string>,
    backups: map<NsName, Backup>,
    policies: map<NsName, Policy>)

  datatype Error =
    | NotFound | AlreadyExists | Conflict | Invalid | Unavailable
    | UnsupportedKind | NoClient | NoClusters

  /** What the network does with one request. `Answer` is a served request; a list request is served
      in the order `listing`. `Lost` is an error without effect, `Unacked` an error reported for a
      write that did take effect. */
  datatype Reply = Answer(listing: seq<NsName>) | Lost | Unacked

  // ----- Writes -----

  datatype Written = Written(store: Store, error: Option<Error>)

  /** A write whose server-side verdict is `verdict` and whose effect is `now`. */
  function Write(st: Store, verdict: Option<Error>, now: Store, reply: Reply): Written {
    if !reply.Answer? then Written(if reply.Unacked? && verdict.None? then now else st, Some(Unavailable))
    else if verdict.Some? then Written(st, verdict)
    else Written(now, None)
  }

  /** The resource-version check of an update: the stored object must be the one that was read. */
  function UpdateVerdict<T(==)>(stored: Option<T>, seen: T): Option<Error> {
    match stored
    case None => Some(NotFound)
    case Some(current) => if current == seen then None else Some(Conflict)
  }

  function CreateVerdict(present: bool): Option<Error> {
    if present then Some(AlreadyExists) else None
  }

  /** The API server also refuses new finalizers on an object that is being deleted. */
  function MigrationVerdict(st: Store, key: NsName, seen: Migration, now: Migration): Option<Error> {
    var verdict := UpdateVerdict(Find(st.migrations, key), seen);
    if verdict.None? && seen.deleting && !(now.finalizers <= seen.finalizers) then Some(Invalid) else verdict
  }

  /** An object that is being deleted disappears with its last finalizer. */
  function PutMigration(st: Store, key: NsName, now: Migration): Store {
    if now.deleting && now.finalizers == {} then st.(migrations := st.migrations - {key})
    else st.(migrations := st.migrations[key := now])
  }

  // ----- Lists -----

  ghost predicate NoDuplicates<T>(s: seq<T>) {
    forall i, j | 0 <= i < j < |s| :: s[i] != s[j]
  }

  predicate Distinct<T(==)>(s: seq<T>)
    ensures Distinct(s) <==> NoDuplicates(s)
  {
    forall i, j | 0 <= i < |s| && 0 <= j < |s| && i < j :: s[i] != s[j]
  }

  function ToSet<T>(s: seq<T>): set<T> {
    set x | x in s
  }

  lemma {:induction false} SubsetSize<T>(a: set<T>, b: set<T>)
    requires a <= b
    ensures |a| <= |b|
    decreases a
  {
    if a != {} {
      var x :| x in a;
      SubsetSize(a - {x}, b - {x});
    }
  }

  /** `listing` enumerates exactly `keys`, in any order. */
  predicate Enumerates(listing: seq<NsName>, keys: set<NsName>)
    ensures Enumerates(listing, keys) ==> forall id :: id in listing <==> id in keys
  {
    assert forall id :: id in listing <==> id in ToSet(listing);
    Distinct(listing) && ToSet(listing) == keys
  }

  /** Backups without this label are none of the controller's, even where it overwrites their spec. */
  predicate Managed(b: Backup) {
    BACKUP_MIGRATION in b.labels
  }

  /** The list selector of both clean-up routines: the backups labelled with the migration. */
  predicate BelongsTo(key: NsName, id: NsName, b: Backup) {
    id.ns == key.ns && BACKUP_MIGRATION in b.labels && b.labels[BACKUP_MIGRATION] == key.name
  }

  function Selected(key: NsName, backups: map<NsName, Backup>): (ids: set<NsName>)
    ensures ids <= backups.Keys
  {
    set id | id in backups && BelongsTo(key, id, backups[id])
  }

  function SelectedPods(st: Store, ns: string, selector: Selector): (ids: set<NsName>)
    ensures ids <= st.pods.Keys
  {
    set id | id in st.pods && id.ns == ns && Matches(selector, st.pods[id])
  }

  // ----- PropagationPolicies -----

  /** The labels that Karmada puts on a policy itself. */
  predicate SystemLabel(key: string) {
    "propagationpolicy.karmada.io/" <= key || "karmada.io/" <= key
  }

  function SystemLabels(labels: Labels): Labels {
    map k | k in labels && SystemLabel(k) :: labels[k]
  }

  /** The object an upsert writes over an existing policy. */
  function MergePolicy(policy: Policy, existing: Policy): Policy {
    policy.(labels := policy.labels + SystemLabels(existing.labels))
  }
}
