/** Passes over two migrations that share nothing but what is already there: every interleaving of
    their requests, whatever the fates of these, ends like one pass after the other. */
module Interleaving {
  import opened Objects
  import opened Naming
  import opened Cluster
  import opened Machine
  import Passes
  import opened Exactness
  import opened Safety
  import opened System

  // ----- The effect of one request -----

  /** A request changes at most one object. */
  datatype Effect =
    | Nothing
    | SetMigration(key: NsName, migration: Migration)
    | DropMigration(key: NsName)
    | SetWorkload(target: WorkloadId, workload: Workload)
    | SetPod(place: MemberPodId, pod: Pod)
    | SetBackup(id: NsName, backup: Backup)
    | DropBackup(id: NsName)
    | SetPolicy(id: NsName, policy: Policy)

  function Apply(e: Effect, st: Store): Store {
    match e
    case Nothing => st
    case SetMigration(key, m) => st.(migrations := st.migrations[key := m])
    case DropMigration(key) => st.(migrations := st.migrations - {key})
    case SetWorkload(id, w) => st.(workloads := st.workloads[id := w])
    case SetPod(place, pod) => st.(memberPods := st.memberPods[place := pod])
    case SetBackup(id, b) => st.(backups := st.backups[id := b])
    case DropBackup(id) => st.(backups := st.backups - {id})
    case SetPolicy(id, policy) => st.(policies := st.policies[id := policy])
  }

  /** What the request has done, if it has changed the store to `now`. */
  function EffectOf(key: NsName, st: Store, t: Task, now: Store): Effect {
    if now == st then Nothing
    else match t
      case PutWorkload(id, _, after) => SetWorkload(id, after)
      case PutPod(place, _, after) => SetPod(place, after)
      case CreatePolicy(id, policy) => SetPolicy(id, policy)
      case PutPolicy(id, _, policy) => SetPolicy(id, policy)
      case CreateBackup(w) => SetBackup(w.id, w.backup)
      case PutBackup(w, current) => SetBackup(w.id, current.(spec := w.backup.spec))
      case DeleteBackup(id) => DropBackup(id)
      case _ => if key in now.migrations then SetMigration(key, now.migrations[key]) else DropMigration(key)
  }

  ghost predicate HasEffect(key: NsName, st: Store, t: Task, now: Store) {
    now == Apply(EffectOf(key, st, t, now), st)
  }

  lemma PutEffect(key: NsName, st: Store, m: Migration)
    ensures var now := PutMigration(st, key, m);
      now == Apply(if key in now.migrations then SetMigration(key, now.migrations[key]) else DropMigration(key), st)
  {
  }

  lemma MigrationEffect(key: NsName, st: Store, t: Task, reply: Reply)
    requires t.AddFinalizer? || t.RemoveFinalizer?
    ensures HasEffect(key, st, t, Step(key, st, t, reply).store)
  {
    var m := if t.AddFinalizer? then WithFinalizer(t.seen) else WithoutFinalizer(t.seen);
    PutEffect(key, st, m);
    MigrationOutcome(key, st, t, m, reply);
  }

  lemma MigrationOutcome(key: NsName, st: Store, t: Task, m: Migration, reply: Reply)
    requires (t.AddFinalizer? && m == WithFinalizer(t.seen)) || (t.RemoveFinalizer? && m == WithoutFinalizer(t.seen))
    ensures var now := Step(key, st, t, reply).store; now == st || now == PutMigration(st, key, m)
  {
  }

  lemma ObjectEffect(key: NsName, st: Store, t: Task, reply: Reply)
    requires OnObjects(t) && (t.LabelPod? ==> t.clusters != [])
    ensures HasEffect(key, st, t, Step(key, st, t, reply).store)
  {
  }

  lemma InfraEffect(key: NsName, st: Store, t: Task, reply: Reply)
    requires OnInfra(t) && !t.CreateNamespace? && (t.CreateCRD? ==> t.cluster in st.crds)
    ensures HasEffect(key, st, t, Step(key, st, t, reply).store)
  {
  }

  lemma CleanupEffect(key: NsName, st: Store, t: Task, reply: Reply)
    requires t.ListOrphans? || t.ListAll? || t.DeleteBackup?
    ensures HasEffect(key, st, t, CleanupTurn(key, st, t, reply).store)
  {
  }

  lemma StepHasEffect(key: NsName, st: Store, t: Task, reply: Reply)
    requires t.LabelPod? ==> t.clusters != []
    requires !t.CreateNamespace? && (t.CreateCRD? ==> t.cluster in st.crds)
    ensures HasEffect(key, st, t, Step(key, st, t, reply).store)
  {
    if OnObjects(t) {
      ObjectEffect(key, st, t, reply);
    } else if OnInfra(t) {
      InfraEffect(key, st, t, reply);
    } else if t.AddFinalizer? || t.RemoveFinalizer? {
      MigrationEffect(key, st, t, reply);
    } else if t.ListOrphans? || t.ListAll? || t.DeleteBackup? {
      CleanupEffect(key, st, t, reply);
    }
  }

  // ----- What a request looks at -----

  predicate OnWorkload(t: Task, id: WorkloadId) {
    (t.LabelWorkload? || t.UnlabelWorkload? || t.PutWorkload? || t.FindWorkload?) && t.target == id
  }

  predicate OnPod(t: Task, place: MemberPodId) {
    || ((t.UnlabelPod? || t.PutPod?) && t.place == place)
    || (t.LabelPod? && t.clusters != [] && place == MemberPodId(t.clusters[0], t.pod))
    || (t.FindPod? && place == MemberPodId(t.cluster, RefId(t.migration.spec.resourceRef)))
  }

  predicate OnBackup(t: Task, id: NsName) {
    || ((t.GetBackup? || t.CreateBackup? || t.PutBackup?) && t.want.id == id)
    || (t.DeleteBackup? && t.backupId == id)
  }

  predicate OnPolicy(t: Task, id: NsName) {
    || (t.GetNamespacePolicy? && id == NAMESPACE_POLICY)
    || ((t.UpsertPolicy? || t.CreatePolicy? || t.PutPolicy?) && t.policyId == id)
  }

  /** A list of the backups of `key` does not show `id`. */
  ghost predicate Unlisted(key: NsName, st: Store, id: NsName) {
    id in st.backups ==> !BelongsTo(key, id, st.backups[id])
  }

  /** The request of the pass over `key` cannot tell whether `e` has happened. */
  ghost predicate Blind(key: NsName, st: Store, t: Task, e: Effect) {
    match e
    case Nothing => true
    case SetMigration(other, _) => other != key
    case DropMigration(other) => other != key
    case SetWorkload(id, _) => !OnWorkload(t, id)
    case SetPod(place, _) => !OnPod(t, place)
    case SetBackup(id, b) => !OnBackup(t, id) && Unlisted(key, st, id) && !BelongsTo(key, id, b)
    case DropBackup(id) => !OnBackup(t, id) && Unlisted(key, st, id)
    case SetPolicy(id, _) => !OnPolicy(t, id)
  }

  function Shift(e: Effect, turn: Turn): Turn {
    match turn
    case Go(st, next) => Go(Apply(e, st), next)
    case Halt(st, error) => Halt(Apply(e, st), error)
  }

  lemma PutShift(key: NsName, st: Store, now: Migration, e: Effect)
    requires e.SetMigration? || e.DropMigration? ==> e.key != key
    ensures PutMigration(Apply(e, st), key, now) == Apply(e, PutMigration(st, key, now))
  {
    var a, b := PutMigration(Apply(e, st), key, now), Apply(e, PutMigration(st, key, now));
    assert a.migrations == b.migrations;
  }

  lemma MigrationShift(
    key: NsName, st: Store, seen: Migration, now: Migration, reply: Reply, next: seq<Task>, e: Effect)
    requires e.SetMigration? || e.DropMigration? ==> e.key != key
    ensures MigrationTurn(key, Apply(e, st), seen, now, reply, next)
         == Shift(e, MigrationTurn(key, st, seen, now, reply, next))
  {
    PutShift(key, st, now, e);
    assert Find(Apply(e, st).migrations, key) == Find(st.migrations, key);
  }

  lemma WorkloadShift(st: Store, t: Task, reply: Reply, e: Effect)
    requires t.LabelWorkload? || t.UnlabelWorkload? || t.PutWorkload?
    requires e.SetWorkload? ==> !OnWorkload(t, e.target)
    ensures WorkloadTurn(Apply(e, st), t, reply) == Shift(e, WorkloadTurn(st, t, reply))
  {
    if e.SetWorkload? && t.PutWorkload? {
      assert st.workloads[e.target := e.workload][t.target := t.after]
          == st.workloads[t.target := t.after][e.target := e.workload];
    }
  }

  lemma PodShift(st: Store, t: Task, reply: Reply, e: Effect)
    requires t.LabelPod? || t.UnlabelPod? || t.PutPod?
    requires t.LabelPod? ==> t.clusters != []
    requires e.SetPod? ==> !OnPod(t, e.place)
    ensures PodTurn(Apply(e, st), t, reply) == Shift(e, PodTurn(st, t, reply))
  {
    if t.PutPod? {
      PutPodShift(st, t, reply, e);
    } else {
      assert var place := if t.LabelPod? then MemberPodId(t.clusters[0], t.pod) else t.place;
        Find(Apply(e, st).memberPods, place) == Find(st.memberPods, place);
    }
  }

  lemma PutPodShift(st: Store, t: Task, reply: Reply, e: Effect)
    requires t.PutPod? && (e.SetPod? ==> !OnPod(t, e.place))
    ensures PodTurn(Apply(e, st), t, reply) == Shift(e, PodTurn(st, t, reply))
  {
    if e.SetPod? {
      assert st.memberPods[e.place := e.pod][t.place := t.podAfter]
          == st.memberPods[t.place := t.podAfter][e.place := e.pod];
    }
  }

  lemma DiscoverShift(key: NsName, st: Store, t: Task, reply: Reply, e: Effect)
    requires t.FindWorkload? || t.ListPods? || t.FindPod?
    requires Blind(key, st, t, e)
    ensures DiscoverTurn(key, Apply(e, st), t, reply) == Shift(e, DiscoverTurn(key, st, t, reply))
  {
    if t.ListPods? {
      assert SelectedPods(Apply(e, st), t.migration.spec.resourceRef.ns, t.selector)
          == SelectedPods(st, t.migration.spec.resourceRef.ns, t.selector);
    }
  }

  lemma PolicyShift(st: Store, t: Task, reply: Reply, e: Effect)
    requires t.GetNamespacePolicy? || t.UpsertPolicy? || t.CreatePolicy? || t.PutPolicy?
    requires e.SetPolicy? ==> !OnPolicy(t, e.id)
    ensures PolicyTurn(Apply(e, st), t, reply) == Shift(e, PolicyTurn(st, t, reply))
  {
    if e.SetPolicy? && WritesPolicies(t) {
      assert st.policies[e.id := e.policy][t.policyId := t.policy]
          == st.policies[t.policyId := t.policy][e.id := e.policy];
    }
  }

  lemma InfraShift(st: Store, t: Task, reply: Reply, e: Effect)
    requires t.GetNamespace? || t.CreateNamespace? || t.GetCRD? || t.CreateCRD?
    ensures InfraTurn(Apply(e, st), t, reply) == Shift(e, InfraTurn(st, t, reply))
  {
  }

  lemma BackupsCommuteWith(e: Effect, bs: map<NsName, Backup>, id: NsName, b: Backup)
    requires e.SetBackup? || e.DropBackup?
    requires e.id != id
    ensures e.SetBackup? ==> bs[e.id := e.backup][id := b] == bs[id := b][e.id := e.backup]
    ensures e.SetBackup? ==> bs[e.id := e.backup] - {id} == (bs - {id})[e.id := e.backup]
    ensures (bs - {e.id})[id := b] == bs[id := b] - {e.id}
    ensures bs - {e.id} - {id} == bs - {id} - {e.id}
  {
  }

  lemma BackupShift(st: Store, t: Task, reply: Reply, e: Effect)
    requires t.GetBackup? || t.CreateBackup? || t.PutBackup?
    requires e.SetBackup? || e.DropBackup? ==> !OnBackup(t, e.id)
    ensures BackupTurn(Apply(e, st), t, reply) == Shift(e, BackupTurn(st, t, reply))
  {
    if e.SetBackup? || e.DropBackup? {
      if t.CreateBackup? {
        BackupsCommuteWith(e, st.backups, t.want.id, t.want.backup);
      } else if t.PutBackup? {
        BackupsCommuteWith(e, st.backups, t.want.id, t.current.(spec := t.want.backup.spec));
      }
    }
  }

  lemma DeleteShift(key: NsName, st: Store, t: Task, reply: Reply, e: Effect)
    requires t.DeleteBackup? && Blind(key, st, t, e)
    ensures CleanupTurn(key, Apply(e, st), t, reply) == Shift(e, CleanupTurn(key, st, t, reply))
  {
    if e.SetBackup? {
      BackupsCommuteWith(e, st.backups, t.backupId, e.backup);
    } else if e.DropBackup? && st.backups != map[] {
      assert st.backups - {e.id} - {t.backupId} == st.backups - {t.backupId} - {e.id};
    }
  }

  lemma {:induction false} SameOrphans(
    a: map<NsName, Backup>, b: map<NsName, Backup>, live: set<string>, ids: seq<NsName>)
    requires forall id | id in ids :: Find(a, id) == Find(b, id)
    ensures OrphansIn(a, live, ids) == OrphansIn(b, live, ids)
  {
    if ids != [] {
      assert Find(a, ids[0]) == Find(b, ids[0]);
      SameOrphans(a, b, live, ids[1..]);
    }
  }

  lemma ListShift(key: NsName, st: Store, t: Task, reply: Reply, e: Effect)
    requires t.ListOrphans? || t.ListAll?
    requires Blind(key, st, t, e)
    ensures CleanupTurn(key, Apply(e, st), t, reply) == Shift(e, CleanupTurn(key, st, t, reply))
  {
    var now := Apply(e, st);
    assert Selected(key, now.backups) == Selected(key, st.backups);
    if t.ListOrphans? && reply.Answer? && Enumerates(reply.listing, Selected(key, st.backups)) {
      forall id | id in reply.listing ensures Find(now.backups, id) == Find(st.backups, id) {
        assert id in Selected(key, st.backups);
      }
      SameOrphans(now.backups, st.backups, t.live, reply.listing);
    }
  }

  lemma CleanupShift(key: NsName, st: Store, t: Task, reply: Reply, e: Effect)
    requires t.ListOrphans? || t.ListAll? || t.DeleteBackup?
    requires Blind(key, st, t, e)
    ensures CleanupTurn(key, Apply(e, st), t, reply) == Shift(e, CleanupTurn(key, st, t, reply))
  {
    if t.DeleteBackup? {
      DeleteShift(key, st, t, reply, e);
    } else {
      ListShift(key, st, t, reply, e);
    }
  }

  lemma ObjectUnaffected(key: NsName, st: Store, t: Task, reply: Reply, e: Effect)
    requires OnObjects(t) && (t.LabelPod? ==> t.clusters != []) && Blind(key, st, t, e)
    ensures Step(key, Apply(e, st), t, reply) == Shift(e, Step(key, st, t, reply))
  {
    var now := Apply(e, st);
    if t.LabelWorkload? || t.UnlabelWorkload? || t.PutWorkload? {
      assert Step(key, st, t, reply) == WorkloadTurn(st, t, reply);
      assert Step(key, now, t, reply) == WorkloadTurn(now, t, reply);
      WorkloadShift(st, t, reply, e);
    } else if t.LabelPod? || t.UnlabelPod? || t.PutPod? {
      assert Step(key, st, t, reply) == PodTurn(st, t, reply);
      assert Step(key, now, t, reply) == PodTurn(now, t, reply);
      PodShift(st, t, reply, e);
    } else {
      assert Step(key, st, t, reply) == BackupTurn(st, t, reply);
      assert Step(key, now, t, reply) == BackupTurn(now, t, reply);
      BackupShift(st, t, reply, e);
    }
  }

  lemma InfraUnaffected(key: NsName, st: Store, t: Task, reply: Reply, e: Effect)
    requires OnInfra(t) && Blind(key, st, t, e)
    ensures Step(key, Apply(e, st), t, reply) == Shift(e, Step(key, st, t, reply))
  {
    var now := Apply(e, st);
    if t.GetNamespace? || t.CreateNamespace? || t.GetCRD? || t.CreateCRD? {
      assert Step(key, st, t, reply) == InfraTurn(st, t, reply);
      assert Step(key, now, t, reply) == InfraTurn(now, t, reply);
      InfraShift(st, t, reply, e);
    } else {
      assert Step(key, st, t, reply) == PolicyTurn(st, t, reply);
      assert Step(key, now, t, reply) == PolicyTurn(now, t, reply);
      PolicyShift(st, t, reply, e);
    }
  }

  lemma ListsUnaffected(key: NsName, st: Store, t: Task, reply: Reply, e: Effect)
    requires t.FindWorkload? || t.ListPods? || t.FindPod? || t.ListOrphans? || t.ListAll? || t.DeleteBackup?
    requires Blind(key, st, t, e)
    ensures Step(key, Apply(e, st), t, reply) == Shift(e, Step(key, st, t, reply))
  {
    var now := Apply(e, st);
    if t.FindWorkload? || t.ListPods? || t.FindPod? {
      assert Step(key, st, t, reply) == DiscoverTurn(key, st, t, reply);
      assert Step(key, now, t, reply) == DiscoverTurn(key, now, t, reply);
      DiscoverShift(key, st, t, reply, e);
    } else {
      assert Step(key, st, t, reply) == CleanupTurn(key, st, t, reply);
      assert Step(key, now, t, reply) == CleanupTurn(key, now, t, reply);
      CleanupShift(key, st, t, reply, e);
    }
  }

  lemma MigrationUnaffected(key: NsName, st: Store, t: Task, reply: Reply, e: Effect)
    requires t.Fetch? || t.AddFinalizer? || t.RemoveFinalizer? || t.RejectKind?
    requires Blind(key, st, t, e)
    ensures Step(key, Apply(e, st), t, reply) == Shift(e, Step(key, st, t, reply))
  {
    if t.AddFinalizer? {
      MigrationShift(key, st, t.seen, WithFinalizer(t.seen), reply, Program(key, WithFinalizer(t.seen)), e);
    } else if t.RemoveFinalizer? {
      MigrationShift(key, st, t.seen, WithoutFinalizer(t.seen), reply, [], e);
    } else if t.Fetch? {
      assert Find(Apply(e, st).migrations, key) == Find(st.migrations, key);
    }
  }

  /** A request that cannot tell the difference does the same before and after the effect. */
  lemma Unaffected(key: NsName, st: Store, t: Task, reply: Reply, e: Effect)
    requires (t.LabelPod? ==> t.clusters != []) && Blind(key, st, t, e)
    ensures Step(key, Apply(e, st), t, reply) == Shift(e, Step(key, st, t, reply))
  {
    if OnObjects(t) {
      ObjectUnaffected(key, st, t, reply, e);
    } else if OnInfra(t) {
      InfraUnaffected(key, st, t, reply, e);
    } else if t.Fetch? || t.AddFinalizer? || t.RemoveFinalizer? || t.RejectKind? {
      MigrationUnaffected(key, st, t, reply, e);
    } else {
      ListsUnaffected(key, st, t, reply, e);
    }
  }

  // ----- Passes that stay with their own -----

  /** The name is one that backups of the migration can have. */
  ghost predicate Own(key: NsName, id: NsName) {
    exists pod: string, cluster: string :: id == PairId(key, pod, cluster)
  }

  ghost predicate OwnPolicy(key: NsName, pid: NsName) {
    exists id :: Own(key, id) && pid == PolicyId(id)
  }

  predicate IsTarget(spec: MigrationSpec, id: WorkloadId) {
    KindOf(spec.resourceRef) == WorkloadTarget(id.kind) && id.id == RefId(spec.resourceRef)
  }

  predicate IsPodTarget(spec: MigrationSpec, pod: NsName) {
    KindOf(spec.resourceRef) == PodTarget && pod == RefId(spec.resourceRef)
  }

  /** The task belongs to a pass over `key` with this spec, and has to do with no other names or targets. */
  ghost predicate Local(key: NsName, spec: MigrationSpec, t: Task) {
    match t
    case AddFinalizer(seen) => seen.spec == spec
    case RemoveFinalizer(seen) => seen.spec == spec
    case LabelWorkload(id) => IsTarget(spec, id)
    case UnlabelWorkload(id) => IsTarget(spec, id)
    case PutWorkload(id, _, _) => IsTarget(spec, id)
    case LabelPod(_, pod) => IsPodTarget(spec, pod)
    case UnlabelPod(place) => IsPodTarget(spec, place.id)
    case PutPod(place, _, _) => IsPodTarget(spec, place.id)
    case FindWorkload(m, id) => m.spec == spec && IsTarget(spec, id)
    case ListPods(m, _) => m.spec == spec
    case FindPod(m, _, _, _) => m.spec == spec && IsPodTarget(spec, RefId(spec.resourceRef))
    case CreateNamespace => false
    case UpsertPolicy(pid, _) => OwnPolicy(key, pid)
    case CreatePolicy(pid, _) => OwnPolicy(key, pid)
    case PutPolicy(pid, _, _) => OwnPolicy(key, pid)
    case GetCRD(cluster) => cluster in spec.sourceClusters
    case CreateCRD(cluster) => cluster in spec.sourceClusters
    case GetBackup(w) => Own(key, w.id) && BelongsTo(key, w.id, w.backup)
    case CreateBackup(w) => Own(key, w.id) && BelongsTo(key, w.id, w.backup)
    case PutBackup(w, _) => Own(key, w.id) && BelongsTo(key, w.id, w.backup)
    case DeleteBackup(id) => Own(key, id)
    case _ => true
  }

  ghost predicate AllLocal(key: NsName, spec: MigrationSpec, todo: seq<Task>) {
    forall t | t in todo :: Local(key, spec, t)
  }

  /** What the passes share is there already: the namespace, its policy, and the CRDs. */
  ghost predicate Grounded(st: Store, key: NsName, spec: MigrationSpec) {
    && MIGRATION_NAMESPACE in st.namespaces && NAMESPACE_POLICY in st.policies
    && ToSet(spec.sourceClusters) <= st.crds
    && (key in st.migrations ==> st.migrations[key].spec == spec)
  }

  /** The migrations have different targets. */
  ghost predicate TargetsApart(a: MigrationSpec, b: MigrationSpec) {
    KindOf(a.resourceRef) != KindOf(b.resourceRef) || RefId(a.resourceRef) != RefId(b.resourceRef)
  }

  lemma ListedIsOwn(key: NsName, st: Store, id: NsName)
    requires NoLeak(st) && id in st.backups && BelongsTo(key, id, st.backups[id])
    ensures Own(key, id)
  {
    var labels := st.backups[id].labels;
    assert WellFormed(id, st.backups[id]);
    assert id == PairId(key, labels[BACKUP_POD], labels[BACKUP_CLUSTER]);
  }

  lemma OwnApart(k: NsName, q: NsName, id: NsName)
    requires NamesApart(k, q) && Own(k, id)
    ensures !Own(q, id)
  {
    var pod, c :| id == PairId(k, pod, c);
    forall pod': string, c': string ensures id != PairId(q, pod', c') {
      PairIdsApart(k, q, pod, c, pod', c');
    }
  }

  lemma OwnPolicyApart(k: NsName, q: NsName, pid: NsName)
    requires NamesApart(k, q) && OwnPolicy(k, pid)
    ensures !OwnPolicy(q, pid) && pid != NAMESPACE_POLICY
  {
    var id :| Own(k, id) && pid == PolicyId(id);
    NamespacePolicyIsNoBackupPolicy(id.name);
    if OwnPolicy(q, pid) {
      var id' :| Own(q, id') && pid == PolicyId(id');
      PolicyNameInjective(id.name, id'.name);
      OwnApart(k, q, id);
    }
  }

  lemma PolicyEffectBlind(k: NsName, u: Task, sk: MigrationSpec, q: NsName, sq: MigrationSpec, t: Task, st: Store)
    requires NamesApart(k, q) && Local(k, sk, u) && Local(q, sq, t) && WritesPolicies(u)
    ensures !OnPolicy(t, u.policyId)
  {
    OwnPolicyApart(k, q, u.policyId);
  }

  lemma BackupEffectBlind(
    k: NsName, sk: MigrationSpec, u: Task, now: Store, q: NsName, sq: MigrationSpec, t: Task, st: Store)
    requires NamesApart(k, q) && NoLeak(st) && Local(k, sk, u) && Local(q, sq, t) && WritesBackups(u)
    requires u.PutBackup? && now != st ==> Find(st.backups, u.want.id) == Some(u.current)
    ensures Blind(q, st, t, EffectOf(k, st, u, now))
  {
    var id := if u.DeleteBackup? then u.backupId else u.want.id;
    BackupsBlind(k, q, st, id);
    assert !OnBackup(t, id);
    if u.PutBackup? && now != st {
      assert st.backups[id].labels == u.current.(spec := u.want.backup.spec).labels;
    }
  }

  /** A local request of one pass has an effect that a local request of the other one cannot see. */
  lemma LocalIsBlind(
    k: NsName, sk: MigrationSpec, u: Task, now: Store, q: NsName, sq: MigrationSpec, t: Task, st: Store)
    requires NamesApart(k, q) && TargetsApart(sk, sq) && NoLeak(st)
    requires Local(k, sk, u) && Local(q, sq, t)
    requires u.PutBackup? && now != st ==> Find(st.backups, u.want.id) == Some(u.current)
    ensures Blind(q, st, t, EffectOf(k, st, u, now))
  {
    if WritesPolicies(u) {
      PolicyEffectBlind(k, u, sk, q, sq, t, st);
    } else if WritesBackups(u) {
      BackupEffectBlind(k, sk, u, now, q, sq, t, st);
    } else if u.PutWorkload? {
      assert !OnWorkload(t, u.target);
    } else if u.PutPod? {
      assert !OnPod(t, u.place);
    }
  }

  lemma BackupsBlind(k: NsName, q: NsName, st: Store, id: NsName)
    requires NamesApart(k, q) && NoLeak(st) && Own(k, id)
    ensures !Own(q, id) && Unlisted(q, st, id)
    ensures forall b: Backup :: BelongsTo(k, id, b) ==> !BelongsTo(q, id, b)
  {
    OwnApart(k, q, id);
    if id in st.backups && BelongsTo(q, id, st.backups[id]) {
      ListedIsOwn(q, st, id);
    }
  }

  // ----- Passes stay local -----

  lemma {:induction false} WantTasksLocal(key: NsName, spec: MigrationSpec, ws: seq<Want>)
    requires forall w | w in ws :: WantOf(key, w)
    ensures AllLocal(key, spec, WantTasks(ws))
  {
    if ws != [] {
      var w := ws[0];
      assert w in ws && forall v | v in ws[1..] :: v in ws;
      var labels := w.backup.labels;
      assert w.id == PairId(key, labels[BACKUP_POD], labels[BACKUP_CLUSTER]);
      assert Own(key, w.id) && OwnPolicy(key, PolicyId(w.id));
      WantTasksLocal(key, spec, ws[1..]);
    }
  }

  lemma AllLocalBoth(key: NsName, spec: MigrationSpec, a: seq<Task>, b: seq<Task>)
    requires AllLocal(key, spec, a) && AllLocal(key, spec, b)
    ensures AllLocal(key, spec, a + b)
  {
  }

  lemma BodyLocal(key: NsName, spec: MigrationSpec, pods: seq<PodInfo>)
    ensures AllLocal(key, spec, Body(key, spec, pods))
  {
    var clusters, ws := spec.sourceClusters, Wants(key, spec, pods, spec.sourceClusters);
    CrdTasksShape(clusters);
    WantsAreOf(key, spec, pods, clusters);
    WantTasksLocal(key, spec, ws);
    AllLocalBoth(key, spec, WantTasks(ws), [ListOrphans(PodNames(pods))]);
    AllLocalBoth(key, spec, CrdTasks(clusters), WantTasks(ws) + [ListOrphans(PodNames(pods))]);
    AllLocalBoth(key, spec, NamespaceTasks(clusters),
                 CrdTasks(clusters) + (WantTasks(ws) + [ListOrphans(PodNames(pods))]));
  }

  lemma CollectLocal(key: NsName, m: Migration, clusters: seq<string>, found: seq<PodInfo>)
    requires KindOf(m.spec.resourceRef).PodTarget?
    ensures AllLocal(key, m.spec, Collect(key, m, clusters, found))
  {
    BodyLocal(key, m.spec, found);
  }

  lemma {:induction false} UnlabelPodsLocal(key: NsName, spec: MigrationSpec, clusters: seq<string>)
    requires KindOf(spec.resourceRef).PodTarget?
    ensures AllLocal(key, spec, UnlabelPods(clusters, RefId(spec.resourceRef)))
  {
    if clusters != [] {
      UnlabelPodsLocal(key, spec, clusters[1..]);
    }
  }

  lemma ProgramLocal(key: NsName, m: Migration)
    ensures AllLocal(key, m.spec, Program(key, m))
  {
    if KindOf(m.spec.resourceRef).PodTarget? {
      CollectLocal(key, m, m.spec.sourceClusters, []);
      UnlabelPodsLocal(key, m.spec, m.spec.sourceClusters);
    }
  }

  lemma DeleteTasksLocal(key: NsName, spec: MigrationSpec, ids: seq<NsName>)
    requires forall id | id in ids :: Own(key, id)
    ensures AllLocal(key, spec, DeleteTasks(ids))
  {
    forall t | t in DeleteTasks(ids) ensures Local(key, spec, t) {
      var i :| 0 <= i < |ids| && DeleteTasks(ids)[i] == t;
      assert ids[i] in ids;
    }
  }

  lemma CleanupNextLocal(key: NsName, spec: MigrationSpec, st: Store, t: Task, reply: Reply)
    requires t.ListOrphans? || t.ListAll? || t.DeleteBackup?
    requires NoLeak(st) && CleanupTurn(key, st, t, reply).Go?
    ensures AllLocal(key, spec, CleanupTurn(key, st, t, reply).next)
  {
    if !t.DeleteBackup? {
      var ids := if t.ListAll? then reply.listing else OrphansIn(st.backups, t.live, reply.listing);
      if t.ListOrphans? {
        Passes.OrphansInSet(st.backups, t.live, reply.listing);
      }
      forall id | id in ids ensures Own(key, id) {
        assert id in Selected(key, st.backups);
        ListedIsOwn(key, st, id);
      }
      DeleteTasksLocal(key, spec, ids);
    }
  }

  lemma DiscoverNextLocal(key: NsName, spec: MigrationSpec, st: Store, t: Task, reply: Reply)
    requires t.FindWorkload? || t.ListPods? || t.FindPod?
    requires Local(key, spec, t) && DiscoverTurn(key, st, t, reply).Go?
    ensures AllLocal(key, spec, DiscoverTurn(key, st, t, reply).next)
  {
    match t
    case FindWorkload(_, _) =>
    case ListPods(m, selector) => BodyLocal(key, spec, PodInfos(st.pods, reply.listing));
    case FindPod(m, cluster, rest, found) =>
      var place := MemberPodId(cluster, RefId(m.spec.resourceRef));
      CollectLocal(key, m, rest, if place in st.memberPods then found + [st.memberPods[place].info] else found);
  }

  lemma OpeningNextLocal(key: NsName, spec: MigrationSpec, st: Store, t: Task, reply: Reply)
    requires t.Fetch? || t.AddFinalizer? || t.RemoveFinalizer? || t.RejectKind?
    requires Local(key, spec, t) && Grounded(st, key, spec) && Step(key, st, t, reply).Go?
    ensures AllLocal(key, spec, Step(key, st, t, reply).next)
  {
    if t.AddFinalizer? {
      ProgramLocal(key, WithFinalizer(t.seen));
    } else if t.Fetch? && key in st.migrations {
      ProgramLocal(key, st.migrations[key]);
    }
  }

  lemma ObjectNextLocal(key: NsName, spec: MigrationSpec, st: Store, t: Task, reply: Reply)
    requires OnObjects(t) && (t.LabelPod? ==> t.clusters != [])
    requires Local(key, spec, t) && Step(key, st, t, reply).Go?
    ensures AllLocal(key, spec, Step(key, st, t, reply).next)
  {
  }

  lemma InfraNextLocal(key: NsName, spec: MigrationSpec, st: Store, t: Task, reply: Reply)
    requires OnInfra(t) && Local(key, spec, t) && Grounded(st, key, spec) && Step(key, st, t, reply).Go?
    ensures AllLocal(key, spec, Step(key, st, t, reply).next)
  {
  }

  lemma NextLocal(key: NsName, spec: MigrationSpec, st: Store, t: Task, reply: Reply)
    requires (t.LabelPod? ==> t.clusters != []) && Step(key, st, t, reply).Go?
    requires Local(key, spec, t) && Grounded(st, key, spec) && NoLeak(st)
    ensures AllLocal(key, spec, Step(key, st, t, reply).next)
  {
    if OnObjects(t) {
      ObjectNextLocal(key, spec, st, t, reply);
    } else if OnInfra(t) {
      InfraNextLocal(key, spec, st, t, reply);
    } else if t.FindWorkload? || t.ListPods? || t.FindPod? {
      DiscoverNextLocal(key, spec, st, t, reply);
    } else if t.ListOrphans? || t.ListAll? || t.DeleteBackup? {
      CleanupNextLocal(key, spec, st, t, reply);
    } else {
      OpeningNextLocal(key, spec, st, t, reply);
    }
  }

  // ----- One request of a local pass -----

  ghost predicate Requests(cl: Clients, todo: seq<Task>) {
    todo != [] && Blocked(todo[0], cl).None? && !Skipped(todo[0], cl)
  }

  /** The effect of the next request of the pass. */
  function Effected(key: NsName, cl: Clients, st: Store, todo: seq<Task>, reply: Reply): Effect {
    if todo == [] then Nothing else EffectOf(key, st, todo[0], Advance(key, cl, st, todo, reply).store)
  }

  lemma AdvanceHasEffect(key: NsName, cl: Clients, spec: MigrationSpec, st: Store, todo: seq<Task>, reply: Reply)
    requires AllLocal(key, spec, todo) && Grounded(st, key, spec)
    ensures Advance(key, cl, st, todo, reply).store == Apply(Effected(key, cl, st, todo, reply), st)
  {
    if Requests(cl, todo) {
      assert Local(key, spec, todo[0]);
      assert todo[0].CreateCRD? ==> todo[0].cluster in ToSet(spec.sourceClusters);
      StepHasEffect(key, st, todo[0], reply);
    }
  }

  lemma AdvanceUnaffected(key: NsName, cl: Clients, st: Store, todo: seq<Task>, reply: Reply, e: Effect)
    requires Requests(cl, todo) ==> Blind(key, st, todo[0], e)
    ensures var moved := Advance(key, cl, st, todo, reply);
      Advance(key, cl, Apply(e, st), todo, reply) == Moved(Apply(e, moved.store), moved.todo)
  {
    if Requests(cl, todo) {
      Unaffected(key, st, todo[0], reply, e);
    }
  }

  lemma AdvanceLocal(key: NsName, cl: Clients, spec: MigrationSpec, st: Store, todo: seq<Task>, reply: Reply)
    requires AllLocal(key, spec, todo) && Grounded(st, key, spec) && NoLeak(st)
    ensures AllLocal(key, spec, Advance(key, cl, st, todo, reply).todo)
  {
    if Requests(cl, todo) {
      assert Local(key, spec, todo[0]);
      if Step(key, st, todo[0], reply).Go? {
        NextLocal(key, spec, st, todo[0], reply);
      }
    }
  }

  lemma EffectGrounded(st: Store, key: NsName, spec: MigrationSpec, e: Effect)
    requires Grounded(st, key, spec)
    requires e.SetMigration? && e.key == key ==> e.migration.spec == spec
    ensures Grounded(Apply(e, st), key, spec)
  {
  }

  lemma EffectKeepsSpec(key: NsName, cl: Clients, spec: MigrationSpec, st: Store, todo: seq<Task>, reply: Reply)
    requires AllLocal(key, spec, todo) && Grounded(st, key, spec)
    ensures var e := Effected(key, cl, st, todo, reply);
      e.SetMigration? ==> e.key == key && e.migration.spec == spec
  {
    var now := Advance(key, cl, st, todo, reply).store;
    if Requests(cl, todo) && now != st && key in now.migrations {
      assert Local(key, spec, todo[0]);
      if WritesMigration(todo[0]) {
        SpecStays(key, st, todo[0], reply);
      } else {
        StepFrame(key, st, todo[0], reply);
      }
    }
  }

  lemma GroundedAfter(
    key: NsName, cl: Clients, spec: MigrationSpec, st: Store, todo: seq<Task>, reply: Reply, other: NsName,
    otherSpec: MigrationSpec)
    requires AllLocal(key, spec, todo) && Grounded(st, key, spec)
    requires Grounded(st, other, otherSpec) && (other == key ==> otherSpec == spec)
    ensures Grounded(Advance(key, cl, st, todo, reply).store, other, otherSpec)
  {
    AdvanceHasEffect(key, cl, spec, st, todo, reply);
    EffectKeepsSpec(key, cl, spec, st, todo, reply);
    EffectGrounded(st, other, otherSpec, Effected(key, cl, st, todo, reply));
  }

  lemma SpecStays(key: NsName, st: Store, t: Task, reply: Reply)
    requires t.AddFinalizer? || t.RemoveFinalizer?
    ensures var now := Step(key, st, t, reply).store;
      key in now.migrations ==> now == st || now.migrations[key].spec == t.seen.spec
  {
  }

  // ----- Two passes -----

  /** Passes over two migrations whose names and targets are apart, and which share nothing but what is
      there already, in a state that satisfies the invariant of all runs. */
  ghost predicate Calm(s: Sys, k: NsName, sk: MigrationSpec, q: NsName, sq: MigrationSpec) {
    && Safe(s) && NamesApart(k, q) && TargetsApart(sk, sq)
    && Grounded(s.store, k, sk) && Grounded(s.store, q, sq)
    && (k in s.passes ==> AllLocal(k, sk, s.passes[k]))
    && (q in s.passes ==> AllLocal(q, sq, s.passes[q]))
  }

  lemma CalmSwaps(s: Sys, k: NsName, sk: MigrationSpec, q: NsName, sq: MigrationSpec)
    requires Calm(s, k, sk, q, sq)
    ensures Calm(s, q, sq, k, sk)
  {
  }

  lemma CalmAfter(s: Sys, k: NsName, sk: MigrationSpec, q: NsName, sq: MigrationSpec, reply: Reply)
    requires Calm(s, k, sk, q, sq)
    ensures Calm(After(s, Request(k, reply)), k, sk, q, sq)
  {
    if k in s.passes {
      ActionSafe(s, Request(k, reply), 0);
      AdvanceLocal(k, s.clients, sk, s.store, s.passes[k], reply);
      GroundedAfter(k, s.clients, sk, s.store, s.passes[k], reply, k, sk);
      GroundedAfter(k, s.clients, sk, s.store, s.passes[k], reply, q, sq);
    }
  }

  /** The effects change different objects. */
  ghost predicate Disjoint(e: Effect, f: Effect) {
    match e
    case Nothing => true
    case SetMigration(key, _) => (f.SetMigration? || f.DropMigration?) ==> f.key != key
    case DropMigration(key) => (f.SetMigration? || f.DropMigration?) ==> f.key != key
    case SetWorkload(id, _) => f.SetWorkload? ==> f.target != id
    case SetPod(place, _) => f.SetPod? ==> f.place != place
    case SetBackup(id, _) => (f.SetBackup? || f.DropBackup?) ==> f.id != id
    case DropBackup(id) => (f.SetBackup? || f.DropBackup?) ==> f.id != id
    case SetPolicy(id, _) => f.SetPolicy? ==> f.id != id
  }

  lemma BlindIsDisjoint(key: NsName, st: Store, t: Task, now: Store, e: Effect)
    requires Blind(key, st, t, e)
    ensures Disjoint(e, EffectOf(key, st, t, now))
  {
  }

  lemma MapUpdatesCommute<K, V>(m: map<K, V>, a: K, x: V, b: K, y: V)
    requires a != b
    ensures m[a := x][b := y] == m[b := y][a := x]
    ensures m[a := x] - {b} == (m - {b})[a := x]
    ensures m - {a} - {b} == m - {b} - {a}
  {
  }

  lemma DropsCommute<K, V>(m: map<K, V>, a: K, b: K)
    ensures m - {a} - {b} == m - {b} - {a}
  {
  }

  lemma MigrationEffectsCommute(e: Effect, f: Effect, st: Store)
    requires Disjoint(e, f)
    requires e.SetMigration? || e.DropMigration?
    ensures Apply(e, Apply(f, st)) == Apply(f, Apply(e, st))
  {
    if f.SetMigration? && e.SetMigration? {
      MapUpdatesCommute(st.migrations, e.key, e.migration, f.key, f.migration);
    } else if f.SetMigration? {
      MapUpdatesCommute(st.migrations, f.key, f.migration, e.key, f.migration);
    } else if f.DropMigration? && e.SetMigration? {
      MapUpdatesCommute(st.migrations, e.key, e.migration, f.key, e.migration);
    } else if f.DropMigration? {
      DropsCommute(st.migrations, e.key, f.key);
    }
  }

  lemma BackupEffectsCommute(e: Effect, f: Effect, st: Store)
    requires Disjoint(e, f)
    requires e.SetBackup? || e.DropBackup?
    ensures Apply(e, Apply(f, st)) == Apply(f, Apply(e, st))
  {
    if f.SetBackup? && e.SetBackup? {
      MapUpdatesCommute(st.backups, e.id, e.backup, f.id, f.backup);
    } else if f.SetBackup? {
      MapUpdatesCommute(st.backups, f.id, f.backup, e.id, f.backup);
    } else if f.DropBackup? && e.SetBackup? {
      MapUpdatesCommute(st.backups, e.id, e.backup, f.id, e.backup);
    } else if f.DropBackup? {
      DropsCommute(st.backups, e.id, f.id);
    }
  }

  lemma EffectsCommute(e: Effect, f: Effect, st: Store)
    requires Disjoint(e, f)
    ensures Apply(e, Apply(f, st)) == Apply(f, Apply(e, st))
  {
    if e.SetMigration? || e.DropMigration? {
      MigrationEffectsCommute(e, f, st);
    } else if e.SetBackup? || e.DropBackup? {
      BackupEffectsCommute(e, f, st);
    } else if e.SetWorkload? && f.SetWorkload? {
      MapUpdatesCommute(st.workloads, e.target, e.workload, f.target, f.workload);
    } else if e.SetPod? && f.SetPod? {
      MapUpdatesCommute(st.memberPods, e.place, e.pod, f.place, f.pod);
    } else if e.SetPolicy? && f.SetPolicy? {
      MapUpdatesCommute(st.policies, e.id, e.policy, f.id, f.policy);
    }
  }

  /** The next request of the pass over `q` cannot see what the next one of the pass over `k` does. */
  lemma CalmIsBlind(s: Sys, k: NsName, sk: MigrationSpec, q: NsName, sq: MigrationSpec, reply: Reply)
    requires Calm(s, k, sk, q, sq) && k in s.passes && q in s.passes
    ensures Requests(s.clients, s.passes[q]) ==>
      Blind(q, s.store, s.passes[q][0], Effected(k, s.clients, s.store, s.passes[k], reply))
  {
    var todo := s.passes[k];
    var now := Advance(k, s.clients, s.store, todo, reply).store;
    if Requests(s.clients, s.passes[q]) && Requests(s.clients, todo) {
      assert Local(k, sk, todo[0]) && Local(q, sq, s.passes[q][0]);
      PutIsOfStored(k, s.store, todo[0], reply);
      LocalIsBlind(k, sk, todo[0], now, q, sq, s.passes[q][0], s.store);
    }
  }

  lemma PutIsOfStored(key: NsName, st: Store, t: Task, reply: Reply)
    requires t.LabelPod? ==> t.clusters != []
    ensures t.PutBackup? && Step(key, st, t, reply).store != st ==> Find(st.backups, t.want.id) == Some(t.current)
  {
  }

  /** Two requests of different passes can be made in either order. */
  lemma RequestsCommute(s: Sys, k: NsName, sk: MigrationSpec, q: NsName, sq: MigrationSpec, rk: Reply, rq: Reply)
    requires Calm(s, k, sk, q, sq)
    ensures After(After(s, Request(k, rk)), Request(q, rq)) == After(After(s, Request(q, rq)), Request(k, rk))
  {
    if k in s.passes && q in s.passes {
      var cl, st := s.clients, s.store;
      var e, f := Effected(k, cl, st, s.passes[k], rk), Effected(q, cl, st, s.passes[q], rq);
      AdvanceHasEffect(k, cl, sk, st, s.passes[k], rk);
      AdvanceHasEffect(q, cl, sq, st, s.passes[q], rq);
      CalmIsBlind(s, k, sk, q, sq, rk);
      CalmSwaps(s, k, sk, q, sq);
      CalmIsBlind(s, q, sq, k, sk, rq);
      AdvanceUnaffected(q, cl, st, s.passes[q], rq, e);
      AdvanceUnaffected(k, cl, st, s.passes[k], rk, f);
      StoresCommute(s, k, q, rk, rq);
      SameMoves(s, k, q, rk, rq);
    }
  }

  lemma StoresCommute(s: Sys, k: NsName, q: NsName, rk: Reply, rq: Reply)
    requires k in s.passes && q in s.passes
    requires var e := Effected(k, s.clients, s.store, s.passes[k], rk);
      && Advance(k, s.clients, s.store, s.passes[k], rk).store == Apply(e, s.store)
      && (Requests(s.clients, s.passes[q]) ==> Blind(q, s.store, s.passes[q][0], e))
    requires var f := Effected(q, s.clients, s.store, s.passes[q], rq);
      Advance(q, s.clients, s.store, s.passes[q], rq).store == Apply(f, s.store)
    ensures var e := Effected(k, s.clients, s.store, s.passes[k], rk);
      var f := Effected(q, s.clients, s.store, s.passes[q], rq);
      Apply(e, Apply(f, s.store)) == Apply(f, Apply(e, s.store))
  {
    var e := Effected(k, s.clients, s.store, s.passes[k], rk);
    var now := Advance(q, s.clients, s.store, s.passes[q], rq).store;
    if Requests(s.clients, s.passes[q]) {
      BlindIsDisjoint(q, s.store, s.passes[q][0], now, e);
      EffectsCommute(e, Effected(q, s.clients, s.store, s.passes[q], rq), s.store);
    }
  }

  /** With the same moves and the same store in the end, the order of two requests does not show. */
  lemma SameMoves(s: Sys, k: NsName, q: NsName, rk: Reply, rq: Reply)
    requires k in s.passes && q in s.passes && k != q
    requires var mk := Advance(k, s.clients, s.store, s.passes[k], rk);
      var mq := Advance(q, s.clients, s.store, s.passes[q], rq);
      var first := Advance(q, s.clients, mk.store, s.passes[q], rq);
      var second := Advance(k, s.clients, mq.store, s.passes[k], rk);
      first.store == second.store && first.todo == mq.todo && second.todo == mk.todo
    ensures After(After(s, Request(k, rk)), Request(q, rq)) == After(After(s, Request(q, rq)), Request(k, rk))
  {
  }

  // ----- Whole interleavings -----

  ghost predicate Between(k: NsName, q: NsName, actions: seq<Action>) {
    forall a | a in actions :: a.Request? && (a.key == k || a.key == q)
  }

  /** The requests of one of the passes, in order. */
  function Only(key: NsName, actions: seq<Action>): seq<Action> {
    if actions == [] then []
    else
      var last, front := actions[|actions| - 1], Only(key, actions[..|actions| - 1]);
      if last.Request? && last.key == key then front + [last] else front
  }

  lemma {:induction false} OnlyIsBetween(key: NsName, actions: seq<Action>)
    ensures Between(key, key, Only(key, actions))
  {
    if actions != [] {
      OnlyIsBetween(key, actions[..|actions| - 1]);
    }
  }

  lemma {:induction false} CalmThroughout(
    s: Sys, k: NsName, sk: MigrationSpec, q: NsName, sq: MigrationSpec, actions: seq<Action>)
    requires Calm(s, k, sk, q, sq) && Between(k, q, actions)
    ensures Calm(AfterAll(s, actions), k, sk, q, sq)
  {
    if actions != [] {
      var front, last := actions[..|actions| - 1], actions[|actions| - 1];
      CalmThroughout(s, k, sk, q, sq, front);
      var now := AfterAll(s, front);
      assert last in actions;
      if last.key == k {
        CalmAfter(now, k, sk, q, sq, last.reply);
      } else {
        CalmSwaps(now, k, sk, q, sq);
        CalmAfter(now, q, sq, k, sk, last.reply);
        CalmSwaps(After(now, last), q, sq, k, sk);
      }
    }
  }

  /** A request of the pass over `k` can be moved in front of any requests of the other one. */
  lemma {:induction false} MoveForward(
    s: Sys, k: NsName, sk: MigrationSpec, q: NsName, sq: MigrationSpec, reply: Reply, others: seq<Action>)
    requires Calm(s, k, sk, q, sq) && Between(q, q, others)
    ensures After(AfterAll(s, others), Request(k, reply)) == AfterAll(After(s, Request(k, reply)), others)
    decreases |others|
  {
    if others != [] {
      var front, last := others[..|others| - 1], others[|others| - 1];
      assert last in others;
      CalmThroughout(s, k, sk, q, sq, front);
      RequestsCommute(AfterAll(s, front), k, sk, q, sq, reply, last.reply);
      MoveForward(s, k, sk, q, sq, reply, front);
    }
  }

  lemma AfterAllSnoc(s: Sys, actions: seq<Action>, a: Action)
    ensures AfterAll(s, actions + [a]) == After(AfterAll(s, actions), a)
  {
    assert (actions + [a])[..|actions|] == actions;
  }

  lemma {:induction false} SerialFirst(
    s: Sys, k: NsName, sk: MigrationSpec, q: NsName, sq: MigrationSpec, actions: seq<Action>)
    requires Calm(s, k, sk, q, sq) && Between(k, q, actions)
    ensures AfterAll(s, actions) == AfterAll(AfterAll(s, Only(k, actions)), Only(q, actions))
    decreases |actions|
  {
    if actions != [] {
      var front, last := actions[..|actions| - 1], actions[|actions| - 1];
      assert last in actions;
      SerialFirst(s, k, sk, q, sq, front);
      OnlyIsBetween(k, front);
      OnlyIsBetween(q, front);
      var mine := AfterAll(s, Only(k, front));
      if last.key == k {
        CalmThroughout(s, k, sk, q, sq, Only(k, front));
        MoveForward(mine, k, sk, q, sq, last.reply, Only(q, front));
        AfterAllSnoc(s, Only(k, front), last);
      } else {
        AfterAllSnoc(mine, Only(q, front), last);
      }
    }
  }

  /** Every interleaving of the requests of two passes, with any replies, wherever it is cut off, leads
      to the state that one pass after the other leads to, in either order. */
  lemma InterleavingIsSerial(s: Sys, k: NsName, sk: MigrationSpec, q: NsName, sq: MigrationSpec, actions: seq<Action>)
    requires Calm(s, k, sk, q, sq) && Between(k, q, actions)
    ensures AfterAll(s, actions) == AfterAll(AfterAll(s, Only(k, actions)), Only(q, actions))
    ensures AfterAll(s, actions) == AfterAll(AfterAll(s, Only(q, actions)), Only(k, actions))
  {
    SerialFirst(s, k, sk, q, sq, actions);
    CalmSwaps(s, k, sk, q, sq);
    SerialFirst(s, q, sq, k, sk, actions);
  }

  /** Passes that have just begun are calm. */
  lemma BegunIsCalm(s: Sys, k: NsName, sk: MigrationSpec, q: NsName, sq: MigrationSpec)
    requires Safe(s) && NamesApart(k, q) && TargetsApart(sk, sq)
    requires Grounded(s.store, k, sk) && Grounded(s.store, q, sq)
    requires k in s.passes && s.passes[k] == [Fetch] && q in s.passes && s.passes[q] == [Fetch]
    ensures Calm(s, k, sk, q, sq)
  {
  }
}
