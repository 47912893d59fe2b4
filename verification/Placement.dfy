/** What every run keeps true of backups and policies: placement, system labels, the CRDs that a
    placement needs, and the policy of the shared namespace. */
module Placement {
  import opened Objects
  import opened Naming
  import opened Cluster
  import opened Machine
  import opened System
  import opened Safety

  /** The four parts that a backup name stands for. */
  datatype Quad = Quad(ns: string, migration: string, pod: string, cluster: string)

  function QuadId(q: Quad): NsName {
    NsName(q.ns, BackupName(q.migration, q.pod, q.cluster))
  }

  ghost function QuadOf(id: NsName, b: Backup): Quad
    requires HasBackupLabels(b.labels)
  {
    Quad(id.ns, b.labels[BACKUP_MIGRATION], b.labels[BACKUP_POD], b.labels[BACKUP_CLUSTER])
  }

  /** Within `names`, no two combinations share a backup name. */
  ghost predicate NoCollision(names: iset<Quad>) {
    forall a, b | a in names && b in names && QuadId(a) == QuadId(b) :: a == b
  }

  /** What a user can check of the names in use: of two migrations in one namespace neither name
      followed by a dash is a prefix of the other, and no cluster name of a migration ends in a dash
      followed by another one. */
  ghost predicate DashFreeNames(names: iset<Quad>) {
    forall a, b | a in names && b in names && a.ns == b.ns ::
      if a.migration == b.migration then !DashSuffix(a.cluster, b.cluster) else !DashPrefix(a.migration, b.migration)
  }

  lemma DashFreeNamesDoNotCollide(names: iset<Quad>)
    requires DashFreeNames(names)
    ensures NoCollision(names)
  {
    forall a, b | a in names && b in names && QuadId(a) == QuadId(b) ensures a == b {
      assert BackupName(a.migration, a.pod, a.cluster) == BackupName(b.migration, b.pod, b.cluster);
      if a.migration == b.migration {
        SameMigrationCollision(a.migration, a.pod, a.cluster, b.pod, b.cluster);
      } else {
        CollisionAcross(a.migration, b.migration);
      }
    }
  }

  // ----- Policies -----

  /** A policy that places exactly the backup it is named after on exactly one cluster. */
  ghost predicate Places(q: Quad, pid: NsName, policy: Policy) {
    && pid == PolicyId(QuadId(q))
    && policy.selector == ResourceSelector("migration.dcnlab.com/v1", "CheckpointBackup", QuadId(q).name)
    && policy.clusters == [q.cluster]
  }

  ghost predicate Placed(names: iset<Quad>, pid: NsName, policy: Policy) {
    OfBackup(policy) ==> exists q :: q in names && Places(q, pid, policy)
  }

  /** The labels that Karmada put on a policy are still there. */
  ghost predicate KeepsSystemLabels(before: Labels, after: Labels) {
    forall k | k in before && ("propagationpolicy.karmada.io/" <= k || "karmada.io/" <= k) ::
      k in after && after[k] == before[k]
  }

  ghost predicate PolicyTask(names: iset<Quad>, t: Task) {
    && (t.UpsertPolicy? || t.CreatePolicy? || t.PutPolicy? ==> Placed(names, t.policyId, t.policy))
    && (t.PutPolicy? ==> KeepsSystemLabels(t.existing.labels, t.policy.labels))
  }

  ghost predicate PolicyTasks(names: iset<Quad>, todo: seq<Task>) {
    forall t | t in todo :: PolicyTask(names, t)
  }

  // ----- Backups -----

  ghost predicate BackupTask(t: Task) {
    t.GetBackup? || t.CreateBackup? || t.PutBackup?
  }

  /** The names generated so far all come from `names`. */
  ghost predicate NamedIn(names: iset<Quad>, todo: seq<Task>) {
    forall t | t in todo && BackupTask(t) ::
      HasBackupLabels(t.want.backup.labels) && QuadOf(t.want.id, t.want.backup) in names
  }

  /** A backup is for the pod that its label names. */
  ghost predicate Aimed(names: iset<Quad>, id: NsName, b: Backup) {
    HasBackupLabels(b.labels) && QuadOf(id, b) in names && b.spec.podRef.name == b.labels[BACKUP_POD]
  }

  ghost predicate AllAimed(names: iset<Quad>, st: Store) {
    && (forall id | id in st.backups && Managed(st.backups[id]) :: Aimed(names, id, st.backups[id]))
    && (forall pid | pid in st.policies :: Placed(names, pid, st.policies[pid]))
  }

  // ----- Programs -----

  lemma {:induction false} WantTasksPlaced(key: NsName, names: iset<Quad>, ws: seq<Want>)
    requires forall w | w in ws :: WantOf(key, w)
    requires NamedIn(names, WantTasks(ws))
    ensures PolicyTasks(names, WantTasks(ws))
  {
    if ws != [] {
      var w := ws[0];
      assert w in ws && GetBackup(w) in WantTasks(ws);
      var q := QuadOf(w.id, w.backup);
      assert Places(q, PolicyId(w.id), PolicyFor(w));
      assert forall v | v in ws[1..] :: v in ws;
      assert forall t | t in WantTasks(ws[1..]) :: t in WantTasks(ws);
      WantTasksPlaced(key, names, ws[1..]);
    }
  }

  lemma BodyPlaced(key: NsName, names: iset<Quad>, spec: MigrationSpec, pods: seq<PodInfo>)
    requires NamedIn(names, Body(key, spec, pods))
    ensures PolicyTasks(names, Body(key, spec, pods))
  {
    var ws := Wants(key, spec, pods, spec.sourceClusters);
    WantsAreOf(key, spec, pods, spec.sourceClusters);
    assert forall t | t in WantTasks(ws) :: t in Body(key, spec, pods);
    WantTasksPlaced(key, names, ws);
    CrdTasksShape(spec.sourceClusters);
  }

  lemma CollectPlaced(key: NsName, names: iset<Quad>, m: Migration, clusters: seq<string>, found: seq<PodInfo>)
    requires NamedIn(names, Collect(key, m, clusters, found))
    ensures PolicyTasks(names, Collect(key, m, clusters, found))
  {
    if clusters == [] {
      BodyPlaced(key, names, m.spec, found);
    }
  }

  lemma ProgramPlaced(key: NsName, names: iset<Quad>, m: Migration)
    requires NamedIn(names, Program(key, m))
    ensures PolicyTasks(names, Program(key, m))
  {
    if m.deleting {
      UnlabelPodsShape(m.spec.sourceClusters, RefId(m.spec.resourceRef));
    } else {
      assert forall t | t in DiscoverTasks(key, m) :: t in Program(key, m);
      if KindOf(m.spec.resourceRef).PodTarget? {
        CollectPlaced(key, names, m, m.spec.sourceClusters, []);
      }
    }
  }

  // ----- One step -----

  lemma ListPodsPlaced(key: NsName, names: iset<Quad>, st: Store, m: Migration, selector: Selector, reply: Reply)
    requires var turn := DiscoverTurn(key, st, ListPods(m, selector), reply);
      turn.Go? && NamedIn(names, turn.next)
    ensures PolicyTasks(names, DiscoverTurn(key, st, ListPods(m, selector), reply).next)
  {
    BodyPlaced(key, names, m.spec, PodInfos(st.pods, reply.listing));
  }

  lemma FindPodPlaced(key: NsName, names: iset<Quad>, st: Store, t: Task, reply: Reply)
    requires t.FindPod?
    requires var turn := DiscoverTurn(key, st, t, reply); turn.Go? && NamedIn(names, turn.next)
    ensures PolicyTasks(names, DiscoverTurn(key, st, t, reply).next)
  {
    var place := MemberPodId(t.cluster, RefId(t.migration.spec.resourceRef));
    var now := if place in st.memberPods then t.found + [st.memberPods[place].info] else t.found;
    CollectPlaced(key, names, t.migration, t.rest, now);
  }

  lemma DiscoverPlaced(key: NsName, names: iset<Quad>, st: Store, t: Task, reply: Reply)
    requires t.FindWorkload? || t.ListPods? || t.FindPod?
    requires var turn := DiscoverTurn(key, st, t, reply); turn.Go? && NamedIn(names, turn.next)
    ensures PolicyTasks(names, DiscoverTurn(key, st, t, reply).next)
  {
    if t.ListPods? {
      ListPodsPlaced(key, names, st, t.migration, t.selector, reply);
    } else if t.FindPod? {
      FindPodPlaced(key, names, st, t, reply);
    }
  }

  lemma PolicyStepPlaced(key: NsName, names: iset<Quad>, st: Store, t: Task, reply: Reply)
    requires t.GetNamespacePolicy? || t.UpsertPolicy? || t.CreatePolicy? || t.PutPolicy?
    requires PolicyTask(names, t)
    ensures var turn := PolicyTurn(st, t, reply); turn.Go? ==> PolicyTasks(names, turn.next)
  {
  }

  lemma OpeningPlaced(key: NsName, names: iset<Quad>, st: Store, t: Task, reply: Reply)
    requires t.Fetch? || t.AddFinalizer?
    requires Step(key, st, t, reply).Go? && NamedIn(names, Step(key, st, t, reply).next)
    ensures PolicyTasks(names, Step(key, st, t, reply).next)
  {
    if t.AddFinalizer? {
      ProgramPlaced(key, names, WithFinalizer(t.seen));
    } else if key in st.migrations && FINALIZER in st.migrations[key].finalizers {
      ProgramPlaced(key, names, st.migrations[key]);
    }
  }

  /** Tasks whose follow-up has nothing to do with policies. */
  lemma OtherPlaced(key: NsName, names: iset<Quad>, st: Store, t: Task, reply: Reply)
    requires !(t.Fetch? || t.AddFinalizer? || t.FindWorkload? || t.ListPods? || t.FindPod?)
    requires !(t.GetNamespacePolicy? || t.UpsertPolicy? || t.CreatePolicy? || t.PutPolicy?)
    requires t.LabelPod? ==> t.clusters != []
    ensures var turn := Step(key, st, t, reply); turn.Go? ==> PolicyTasks(names, turn.next)
  {
  }

  lemma StepPlaced(key: NsName, names: iset<Quad>, st: Store, t: Task, reply: Reply)
    requires t.LabelPod? ==> t.clusters != []
    requires PolicyTask(names, t)
    requires Step(key, st, t, reply).Go? && NamedIn(names, Step(key, st, t, reply).next)
    ensures PolicyTasks(names, Step(key, st, t, reply).next)
  {
    if t.Fetch? || t.AddFinalizer? {
      OpeningPlaced(key, names, st, t, reply);
    } else if t.FindWorkload? || t.ListPods? || t.FindPod? {
      DiscoverPlaced(key, names, st, t, reply);
    } else if t.GetNamespacePolicy? || t.UpsertPolicy? || t.CreatePolicy? || t.PutPolicy? {
      PolicyStepPlaced(key, names, st, t, reply);
    } else {
      OtherPlaced(key, names, st, t, reply);
    }
  }

  lemma BackupWriteAimed(key: NsName, names: iset<Quad>, st: Store, t: Task, reply: Reply)
    requires NoCollision(names) && NoLeak(st) && AllAimed(names, st)
    requires WritesBackups(t) && NormalTask(key, t) && NamedIn(names, [t])
    ensures AllAimed(names, Step(key, st, t, reply).store)
  {
    if t.PutBackup? && t.want.id in st.backups && Managed(st.backups[t.want.id]) {
      var id, b := t.want.id, st.backups[t.want.id];
      assert t in [t];
      assert QuadId(QuadOf(id, b)) == id && QuadId(QuadOf(id, t.want.backup)) == id;
      assert QuadOf(id, b) == QuadOf(id, t.want.backup);
    }
  }

  lemma PolicyWriteAimed(key: NsName, names: iset<Quad>, st: Store, t: Task, reply: Reply)
    requires AllAimed(names, st) && WritesPolicies(t) && PolicyTask(names, t)
    ensures AllAimed(names, Step(key, st, t, reply).store)
  {
  }

  lemma DeleteAimed(key: NsName, names: iset<Quad>, st: Store, t: Task, reply: Reply)
    requires AllAimed(names, st) && t.DeleteBackup?
    ensures AllAimed(names, Step(key, st, t, reply).store)
  {
  }

  lemma StepAimed(key: NsName, names: iset<Quad>, st: Store, t: Task, reply: Reply)
    requires t.LabelPod? ==> t.clusters != []
    requires NoCollision(names) && NoLeak(st) && AllAimed(names, st)
    requires BackupTask(t) ==> NormalTask(key, t)
    requires PolicyTask(names, t) && NamedIn(names, [t])
    ensures AllAimed(names, Step(key, st, t, reply).store)
  {
    if t.DeleteBackup? {
      DeleteAimed(key, names, st, t, reply);
    } else if WritesBackups(t) {
      BackupWriteAimed(key, names, st, t, reply);
    } else if WritesPolicies(t) {
      PolicyWriteAimed(key, names, st, t, reply);
    } else {
      StepFrame(key, st, t, reply);
    }
  }

  lemma BackupTasksNormal(st: Store, key: NsName, todo: seq<Task>)
    requires PassOk(st, key, todo)
    ensures forall t | t in todo && BackupTask(t) :: NormalTask(key, t)
  {
    forall t | t in todo && BackupTask(t) ensures NormalTask(key, t) {
      var i :| 0 <= i < |todo| && todo[i] == t;
      if DeleteTodo(st, key, todo) && i < |todo| - 1 {
        assert todo[..|todo| - 1][i] == t;
        assert DeleteTask(t);
      }
    }
  }

  lemma AdvancePlaced(key: NsName, cl: Clients, names: iset<Quad>, st: Store, todo: seq<Task>, reply: Reply)
    requires PolicyTasks(names, todo) && NamedIn(names, Advance(key, cl, st, todo, reply).todo)
    ensures PolicyTasks(names, Advance(key, cl, st, todo, reply).todo)
  {
    if todo != [] && Blocked(todo[0], cl).None? && !Skipped(todo[0], cl) {
      var turn := Step(key, st, todo[0], reply);
      assert todo[0] in todo;
      if turn.Go? {
        assert forall u | u in turn.next :: u in turn.next + todo[1..];
        StepPlaced(key, names, st, todo[0], reply);
      }
    }
  }

  lemma AdvanceAimed(key: NsName, cl: Clients, names: iset<Quad>, st: Store, todo: seq<Task>, reply: Reply)
    requires NoCollision(names) && NoLeak(st) && AllAimed(names, st)
    requires PassOk(st, key, todo) && PolicyTasks(names, todo) && NamedIn(names, todo)
    ensures AllAimed(names, Advance(key, cl, st, todo, reply).store)
  {
    if todo != [] && Blocked(todo[0], cl).None? && !Skipped(todo[0], cl) {
      assert todo[0] in todo;
      BackupTasksNormal(st, key, todo);
      StepAimed(key, names, st, todo[0], reply);
    }
  }

  // ----- All runs -----

  ghost predicate AllNamed(names: iset<Quad>, s: Sys) {
    forall key | key in s.passes :: NamedIn(names, s.passes[key])
  }

  /** In every state of the run the generated names come from `names`. */
  ghost predicate NamedRun(names: iset<Quad>, s: Sys, actions: seq<Action>) {
    AllNamed(names, AfterAll(s, actions)) && (actions != [] ==> NamedRun(names, s, actions[..|actions| - 1]))
  }

  ghost predicate Aiming(names: iset<Quad>, s: Sys) {
    AllAimed(names, s.store) && forall key | key in s.passes :: PolicyTasks(names, s.passes[key])
  }

  lemma ActionAimed(names: iset<Quad>, s: Sys, a: Action, workers: nat)
    requires NoCollision(names) && Safe(s) && Aiming(names, s) && Enabled(s, a, workers)
    requires AllNamed(names, s) && AllNamed(names, After(s, a))
    ensures Aiming(names, After(s, a))
  {
    match a
    case Request(key, reply) =>
      var moved := Advance(key, s.clients, s.store, s.passes[key], reply);
      assert moved.todo != [] ==> After(s, a).passes[key] == moved.todo;
      AdvanceAimed(key, s.clients, names, s.store, s.passes[key], reply);
      AdvancePlaced(key, s.clients, names, s.store, s.passes[key], reply);
    case Environment(now) =>
      forall pid | pid in now.policies ensures Placed(names, pid, now.policies[pid]) {
        if OfBackup(now.policies[pid]) {
          var q :| q in names && Places(q, pid, s.store.policies[pid]);
          assert Places(q, pid, now.policies[pid]);
        }
      }
    case _ =>
  }

  /** Over every run whose generated names do not collide: each backup is for the pod that its label
      names, and its policy, when there is one, places exactly this backup on exactly its cluster. */
  lemma {:induction false} BackupsStayAimed(names: iset<Quad>, s: Sys, actions: seq<Action>, workers: nat)
    requires Initial(s) && IsRun(s, actions, workers)
    requires NoCollision(names) && NamedRun(names, s, actions)
    ensures Aiming(names, AfterAll(s, actions))
  {
    if actions != [] {
      var before := actions[..|actions| - 1];
      BackupsStayAimed(names, s, before, workers);
      NoLeakedBackups(s, before, workers);
      ActionAimed(names, AfterAll(s, before), actions[|actions| - 1], workers);
    }
  }

  /** The same under the condition that a user can check. */
  lemma DashFreeBackupsStayAimed(names: iset<Quad>, s: Sys, actions: seq<Action>, workers: nat)
    requires Initial(s) && IsRun(s, actions, workers)
    requires DashFreeNames(names) && NamedRun(names, s, actions)
    ensures Aiming(names, AfterAll(s, actions))
  {
    DashFreeNamesDoNotCollide(names);
    BackupsStayAimed(names, s, actions, workers);
  }

  lemma PolicyOfBackup(names: iset<Quad>, st: Store, id: NsName)
    requires NoCollision(names) && NoLeak(st) && AllAimed(names, st)
    requires id in st.backups && Managed(st.backups[id])
    ensures var b := st.backups[id];
      && b.spec.podRef.name == b.labels[BACKUP_POD]
      && (PolicyId(id) in st.policies && OfBackup(st.policies[PolicyId(id)]) ==>
            st.policies[PolicyId(id)].clusters == [b.labels[BACKUP_CLUSTER]] &&
            st.policies[PolicyId(id)].selector.name == id.name)
  {
    if PolicyId(id) in st.policies && OfBackup(st.policies[PolicyId(id)]) {
      var q :| q in names && Places(q, PolicyId(id), st.policies[PolicyId(id)]);
      PolicyNameInjective(id.name, QuadId(q).name);
      assert QuadId(QuadOf(id, st.backups[id])) == id == QuadId(q);
    }
  }

  // ----- System labels -----

  /** Over any sequence of upserts of one policy, whatever the callers send: each label that Karmada
      put on the stored policy keeps its value, and every other label is the last caller's. */
  function UpsertAll(stored: Policy, sent: seq<Policy>): Policy {
    if sent == [] then stored else MergePolicy(sent[|sent| - 1], UpsertAll(stored, sent[..|sent| - 1]))
  }

  lemma {:induction false} SystemLabelsForever(stored: Policy, sent: seq<Policy>)
    ensures KeepsSystemLabels(stored.labels, UpsertAll(stored, sent).labels)
    ensures sent != [] ==>
      var last, end := sent[|sent| - 1], UpsertAll(stored, sent);
      && end == last.(labels := end.labels)
      && forall k | !("propagationpolicy.karmada.io/" <= k || "karmada.io/" <= k) ::
           Find(end.labels, k) == Find(last.labels, k)
  {
    if sent != [] {
      SystemLabelsForever(stored, sent[..|sent| - 1]);
    }
  }

  lemma UpsertTwice(policy: Policy, stored: Policy)
    ensures MergePolicy(policy, MergePolicy(policy, stored)) == MergePolicy(policy, stored)
  {
    var once := MergePolicy(policy, stored);
    assert MergePolicy(policy, once).labels == once.labels;
  }

  ghost predicate Everything(names: iset<Quad>) {
    forall q: Quad :: q in names
  }

  lemma SafeIsNamed(names: iset<Quad>, s: Sys)
    requires Everything(names) && Safe(s)
    ensures AllNamed(names, s)
  {
    forall key | key in s.passes ensures NamedIn(names, s.passes[key]) {
      BackupTasksNormal(s.store, key, s.passes[key]);
    }
  }

  lemma ActionPlaced(names: iset<Quad>, s: Sys, a: Action, workers: nat)
    requires Everything(names) && Safe(s) && Enabled(s, a, workers)
    requires forall key | key in s.passes :: PolicyTasks(names, s.passes[key])
    ensures forall key | key in After(s, a).passes :: PolicyTasks(names, After(s, a).passes[key])
  {
    ActionSafe(s, a, workers);
    SafeIsNamed(names, After(s, a));
    if a.Request? {
      var moved := Advance(a.key, s.clients, s.store, s.passes[a.key], a.reply);
      assert moved.todo != [] ==> After(s, a).passes[a.key] == moved.todo;
      AdvancePlaced(a.key, s.clients, names, s.store, s.passes[a.key], a.reply);
    }
  }

  lemma {:induction false} TasksStayPlaced(names: iset<Quad>, s: Sys, actions: seq<Action>, workers: nat)
    requires Everything(names) && Initial(s) && IsRun(s, actions, workers)
    ensures forall key | key in AfterAll(s, actions).passes :: PolicyTasks(names, AfterAll(s, actions).passes[key])
  {
    if actions != [] {
      var before := actions[..|actions| - 1];
      TasksStayPlaced(names, s, before, workers);
      NoLeakedBackups(s, before, workers);
      ActionPlaced(names, AfterAll(s, before), actions[|actions| - 1], workers);
    }
  }

  ghost predicate KeepsPolicies(before: map<NsName, Policy>, after: map<NsName, Policy>) {
    forall pid | pid in before :: pid in after && KeepsSystemLabels(before[pid].labels, after[pid].labels)
  }

  lemma PolicyTurnKeeps(st: Store, t: Task, reply: Reply)
    requires WritesPolicies(t) && (t.PutPolicy? ==> KeepsSystemLabels(t.existing.labels, t.policy.labels))
    ensures KeepsPolicies(st.policies, PolicyTurn(st, t, reply).store.policies)
  {
  }

  lemma AdvanceKeepsPolicies(key: NsName, cl: Clients, names: iset<Quad>, st: Store, todo: seq<Task>, reply: Reply)
    requires PolicyTasks(names, todo)
    ensures KeepsPolicies(st.policies, Advance(key, cl, st, todo, reply).store.policies)
  {
    if todo != [] && Blocked(todo[0], cl).None? && !Skipped(todo[0], cl) {
      assert PolicyTask(names, todo[0]);
      if WritesPolicies(todo[0]) {
        PolicyTurnKeeps(st, todo[0], reply);
      } else {
        StepFrame(key, st, todo[0], reply);
      }
    }
  }

  /** In every reachable state, whatever request the controller makes next: no policy disappears, and
      none loses or changes a label that Karmada put on it. */
  lemma NoRequestLosesSystemLabels(s: Sys, actions: seq<Action>, workers: nat, key: NsName, reply: Reply)
    requires Initial(s) && IsRun(s, actions, workers) && key in AfterAll(s, actions).passes
    ensures var now := AfterAll(s, actions);
      KeepsPolicies(now.store.policies, After(now, Request(key, reply)).store.policies)
  {
    var now := AfterAll(s, actions);
    var names := iset q: Quad | QuadId(q).ns == q.ns;
    TasksStayPlaced(names, s, actions, workers);
    AdvanceKeepsPolicies(key, now.clients, names, now.store, now.passes[key], reply);
  }
}
