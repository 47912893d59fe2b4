/** Runs that show what goes wrong without the conditions of the main results. */
module Counterexamples {
  import opened Objects
  import opened Naming
  import opened Cluster
  import opened Machine
  import opened Effect
  import opened Passes
  import opened Iterations
  import opened Convergence
  import opened Exactness
  import opened Progress
  import opened Deletion
  import opened Safety
  import opened System
  import opened PassRuns
  import SingleWorker

  const WORKERS: nat := 2
  const BOTH := Clients(true, true)

  function Ref(ns: string): ResourceRef {
    ResourceRef("apps/v1", "Deployment", ns, "web")
  }

  lemma RefIsDeployment(ns: string)
    ensures KindOf(Ref(ns)) == WorkloadTarget(Deployment)
  {
    assert ToLower("Deployment") == "deployment";
  }

  function SpecOn(ns: string, cluster: string): MigrationSpec {
    MigrationSpec(Ref(ns), [cluster], Registry("registry", "repository", None), "*/5 * * * *")
  }

  function PodNamed(ns: string, name: string): map<NsName, Pod> {
    map[NsName(ns, name) := Pod(map[], PodInfo(NsName(ns, name), [PodContainer("main", "image", [])], []))]
  }

  function Web(ns: string): WorkloadId {
    WorkloadId(Deployment, NsName(ns, "web"))
  }

  /** A cluster with one deployment that selects every pod of the namespace. */
  function ClusterWith(ns: string, migrations: map<NsName, Migration>, pods: map<NsName, Pod>): Store {
    Store(migrations, map[Web(ns) := Workload(map[], Parsed(map[], []))], pods,
          map[], {MIGRATION_NAMESPACE}, {}, map[], map[])
  }

  // ----- Names that collide -----

  function Planned(key: NsName, cluster: string, pod: string): Plan {
    Plan(key, BOTH, Migration(SpecOn(key.ns, cluster), {FINALIZER}, false),
         [PodNamed(key.ns, pod)[NsName(key.ns, pod)].info])
  }

  lemma OnePodListed(st: Store, ns: string, pod: string)
    requires st.pods == PodNamed(ns, pod)
    ensures var id := NsName(ns, pod);
      KeyedPods(st) && ListedPods(st, ns, Parsed(map[], []), [id], [st.pods[id].info])
  {
    var id := NsName(ns, pod);
    assert SelectedPods(st, ns, Parsed(map[], [])) == {id};
    assert ToSet([id]) == {id};
  }

  lemma DeploymentDiscovered(
    st: Store, spec: MigrationSpec, selector: Selector, listing: seq<NsName>, pods: seq<PodInfo>)
    requires KindOf(spec.resourceRef) == WorkloadTarget(Deployment)
    requires var id := WorkloadId(Deployment, RefId(spec.resourceRef));
      id in st.workloads && st.workloads[id].selector == selector && selector.Parsed?
    requires ListedPods(st, spec.resourceRef.ns, selector, listing, pods)
    ensures Discovered(st, spec, pods) && TargetReady(BOTH, st, spec)
  {
  }

  /** A deployment that selects every pod is ready for a pass over the one pod that there is. */
  lemma OnePodFits(st: Store, key: NsName, cluster: string, pod: string)
    requires st.pods == PodNamed(key.ns, pod)
    requires Web(key.ns) in st.workloads && st.workloads[Web(key.ns)].selector == Parsed(map[], [])
    requires PlanFor(Planned(key, cluster, pod), st)
    ensures Fits(Planned(key, cluster, pod), st) && TargetReady(BOTH, st, SpecOn(key.ns, cluster))
  {
    RefIsDeployment(key.ns);
    OnePodListed(st, key.ns, pod);
    var pods := Planned(key, cluster, pod).pods;
    DeploymentDiscovered(st, SpecOn(key.ns, cluster), Parsed(map[], []), [NsName(key.ns, pod)], pods);
  }

  lemma PlannedPair(key: NsName, cluster: string, pod: string)
    ensures var p := Planned(key, cluster, pod);
      p.Live() == {pod} && PairId(key, pod, cluster) in Desired(p.Wanted())
  {
    var p := Planned(key, cluster, pod);
    assert p.Live() == {pod};
    DesiredPairs(p);
    assert pod in p.Live() && cluster in ToSet(p.Clusters());
  }

  /** The first pass leaves a backup that is dead once the pod has gone. */
  lemma FirstBackup(key: NsName, cluster: string, pod: string)
    ensures var id := PairId(key, pod, cluster);
      var bs := GoalBackups(Planned(key, cluster, pod), map[]);
      id in bs && BelongsTo(key, id, bs[id]) && BACKUP_POD in bs[id].labels && bs[id].labels[BACKUP_POD] == pod
  {
    var p, id := Planned(key, cluster, pod), PairId(key, pod, cluster);
    PlannedPair(key, cluster, pod);
    DesiredIsAlive(p, id);
    GoalPointwise(p, map[], id);
    assert Find(GoalBackups(p, map[]), id).Some?;
  }

  /** The second pass wants the name of that backup. */
  lemma SecondUnstable(key: NsName, pod: string, x: string, cluster: string, bs: map<NsName, Backup>)
    requires var id := PairId(key, pod, x + "-" + cluster);
      && id in bs && BelongsTo(key, id, bs[id])
      && BACKUP_POD in bs[id].labels && bs[id].labels[BACKUP_POD] == pod
    ensures !Stable(Planned(key, cluster, pod + "-" + x), bs)
  {
    var p, id := Planned(key, cluster, pod + "-" + x), PairId(key, pod, x + "-" + cluster);
    DashSuffixCollides(key.name, pod, x + "-" + cluster, x, cluster);
    PlannedPair(key, cluster, pod + "-" + x);
    assert id == PairId(key, pod + "-" + x, cluster);
    assert |pod + "-" + x| > |pod|;
    assert id in Orphans(key, p.Live(), bs);
  }

  /** The cluster before the first pass, for the longer cluster name. */
  function Before(key: NsName, cluster: string, pod: string): Store {
    ClusterWith(key.ns, map[key := Migration(SpecOn(key.ns, cluster), {}, false)], PodNamed(key.ns, pod))
  }

  /** A successful first pass, as a run from the start of the controller. */
  lemma FirstPass(p: Plan, st: Store) returns (actions: seq<Action>)
    requires Fits(p, st) && p.clients == BOTH && TargetReady(BOTH, st, p.migration.spec)
    ensures var s := Sys(st, NO_CLIENTS, map[]);
      IsRun(s, actions, 1) && AfterAll(s, actions) == Sys(Goal(p, st), BOTH, map[])
  {
    NormalPassCanSucceed(p.key, BOTH, st);
    var replies :| Exec(p.key, BOTH, st, [Fetch], replies).status.Done?;
    PassKeepsGoal(p, st, replies);
    actions := PassIsRun(Sys(st, NO_CLIENTS, map[]), p.key, true, replies, 1);
  }

  lemma GoalTargets(p: Plan, st: Store)
    ensures Goal(p, st).migrations == st.migrations[p.key := p.migration]
    ensures Goal(p, st).backups == GoalBackups(p, st.backups)
    ensures forall id | id in st.workloads ::
      id in Goal(p, st).workloads && Goal(p, st).workloads[id].selector == st.workloads[id].selector
  {
  }

  /** The user has turned to another cluster, and the pod has been replaced. */
  function Later(once: Store, key: NsName, cluster: string, pod: string): Store {
    once.(migrations := map[key := Planned(key, cluster, pod).migration], pods := PodNamed(key.ns, pod))
  }

  lemma LaterPermitted(once: Store, key: NsName, m: Migration, cluster: string, pod: string)
    requires once.migrations == map[key := m] && !m.deleting
    ensures Permitted(once, Later(once, key, cluster, pod))
  {
  }

  lemma LaterFits(once: Store, key: NsName, cluster: string, pod: string)
    requires Web(key.ns) in once.workloads && once.workloads[Web(key.ns)].selector == Parsed(map[], [])
    ensures var now, p := Later(once, key, cluster, pod), Planned(key, cluster, pod);
      Fits(p, now) && TargetReady(BOTH, now, p.migration.spec)
  {
    assert {FINALIZER} + {FINALIZER} == {FINALIZER};
    OnePodFits(Later(once, key, cluster, pod), key, cluster, pod);
  }

  /** The store after the first pass, and when the second one is due. */
  function Once(key: NsName, cluster: string, pod: string): Store {
    Goal(Planned(key, cluster, pod), Before(key, cluster, pod))
  }

  lemma FirstRun(key: NsName, cluster: string, pod: string) returns (actions: seq<Action>)
    ensures var s := Sys(Before(key, cluster, pod), NO_CLIENTS, map[]);
      IsRun(s, actions, 1) && AfterAll(s, actions) == Sys(Once(key, cluster, pod), BOTH, map[])
  {
    assert {} + {FINALIZER} == {FINALIZER};
    OnePodFits(Before(key, cluster, pod), key, cluster, pod);
    actions := FirstPass(Planned(key, cluster, pod), Before(key, cluster, pod));
  }

  lemma BeforeFacts(key: NsName, cluster: string, pod: string)
    ensures var st := Before(key, cluster, pod);
      && st.migrations.Keys == {key} && st.backups == map[]
      && Web(key.ns) in st.workloads && st.workloads[Web(key.ns)].selector == Parsed(map[], [])
  {
  }

  lemma OneMigrationOnly(ms: map<NsName, Migration>, key: NsName, m: Migration)
    requires ms.Keys == {key}
    ensures ms[key := m] == map[key := m]
  {
  }

  lemma OnceFacts(key: NsName, cluster: string, pod: string)
    ensures var once := Once(key, cluster, pod);
      && once.migrations == map[key := Planned(key, cluster, pod).migration]
      && Web(key.ns) in once.workloads && once.workloads[Web(key.ns)].selector == Parsed(map[], [])
      && once.backups == GoalBackups(Planned(key, cluster, pod), map[])
  {
    var p, st := Planned(key, cluster, pod), Before(key, cluster, pod);
    BeforeFacts(key, cluster, pod);
    OneMigrationOnly(st.migrations, key, p.migration);
    GoalTargets(p, st);
  }

  lemma RunToSecondStart(key: NsName, long: string, pod: string, once: Store, now: Store) returns (actions: seq<Action>)
    requires once == Once(key, long, pod) && Permitted(once, now)
    ensures var s := Sys(Before(key, long, pod), NO_CLIENTS, map[]);
      IsRun(s, actions, 1) && AfterAll(s, actions) == Sys(now, BOTH, map[])
  {
    var first := FirstRun(key, long, pod);
    RunOne(Sys(Before(key, long, pod), NO_CLIENTS, map[]), first, Environment(now), 1);
    actions := first + [Environment(now)];
  }

  lemma SecondStartDiverges(once: Store, key: NsName, pod: string, x: string, cluster: string)
    requires Web(key.ns) in once.workloads && once.workloads[Web(key.ns)].selector == Parsed(map[], [])
    requires once.backups == GoalBackups(Planned(key, x + "-" + cluster, pod), map[])
    ensures var st, p := Later(once, key, cluster, pod + "-" + x), Planned(key, cluster, pod + "-" + x);
      && Fits(p, st) && TargetReady(p.clients, st, p.migration.spec)
      && !Stable(p, st.backups) && !Converges(p, st)
  {
    var other := pod + "-" + x;
    LaterFits(once, key, cluster, other);
    FirstBackup(key, x + "-" + cluster, pod);
    SecondUnstable(key, pod, x, cluster, once.backups);
    UnstableDiverges(Planned(key, cluster, other), Later(once, key, cluster, other));
  }

  /** Whenever one cluster name dash-ends in another there is a run to a start that is not stable: a
      successful pass for the longer name; then the user turns to the shorter name, and the pod is
      replaced by one with the longer name. The next pass overwrites the spec of the backup that is
      there and then deletes it, and the one after it creates it anew. */
  lemma DashSuffixBreaksConvergence(key: NsName, pod: string, x: string, cluster: string)
    returns (s: Sys, actions: seq<Action>, p: Plan)
    ensures Initial(s) && IsRun(s, actions, 1)
    ensures var st := AfterAll(s, actions).store;
      && Fits(p, st) && NoLeak(st) && TargetReady(p.clients, st, p.migration.spec)
      && p == Planned(key, cluster, pod + "-" + x)
      && !Stable(p, st.backups) && !Converges(p, st)
  {
    s := Sys(Before(key, x + "-" + cluster, pod), NO_CLIENTS, map[]);
    p := Planned(key, cluster, pod + "-" + x);
    var long := x + "-" + cluster;
    var once := Once(key, long, pod);
    var now := Later(once, key, cluster, pod + "-" + x);
    OnceFacts(key, long, pod);
    LaterPermitted(once, key, Planned(key, long, pod).migration, cluster, pod + "-" + x);
    actions := RunToSecondStart(key, long, pod, once, now);
    NoLeakedBackups(s, actions, 1);
    SecondStartDiverges(once, key, pod, x, cluster);
  }

  // ----- A source cluster that was removed -----

  /** A successful pass, as the rest of a run. */
  lemma LaterPass(p: Plan, st: Store) returns (actions: seq<Action>)
    requires Fits(p, st) && p.clients == BOTH && TargetReady(BOTH, st, p.migration.spec)
    ensures var s := Sys(st, BOTH, map[]);
      IsRun(s, actions, 1) && AfterAll(s, actions) == Sys(Goal(p, st), BOTH, map[])
  {
    NormalPassCanSucceed(p.key, BOTH, st);
    var replies :| Exec(p.key, BOTH, st, [Fetch], replies).status.Done?;
    PassKeepsGoal(p, st, replies);
    actions := PassIsRun(Sys(st, BOTH, map[]), p.key, true, replies, 1);
  }

  lemma PairsOfOne(key: NsName, cluster: string, pod: string)
    ensures Pairs(Planned(key, cluster, pod)) == {PairId(key, pod, cluster)}
    ensures Planned(key, cluster, pod).Live() == {pod}
  {
    var p := Planned(key, cluster, pod);
    assert p.Live() == {pod} && ToSet(p.Clusters()) == {cluster};
  }

  lemma DifferentNames(key: NsName, pod: string, former: string, cluster: string)
    requires former != cluster
    ensures PairId(key, pod, former) != PairId(key, pod, cluster)
  {
    if BackupName(key.name, pod, former) == BackupName(key.name, pod, cluster) {
      SamePodSameCluster(key.name, pod, former, cluster);
    }
  }

  /** The pass for the new cluster leaves the backup for the old one beside its own. */
  lemma BothClustersLeft(key: NsName, pod: string, former: string, cluster: string)
    requires former != cluster
    ensures var bs := GoalBackups(Planned(key, former, pod), map[]);
      Selected(key, GoalBackups(Planned(key, cluster, pod), bs))
        == {PairId(key, pod, former), PairId(key, pod, cluster)}
  {
    var q, bs := Planned(key, cluster, pod), GoalBackups(Planned(key, former, pod), map[]);
    PairsOfOne(key, cluster, pod);
    DifferentNames(key, pod, former, cluster);
    OnlyFirstBackup(key, former, pod);
    SelectedAtGoal(q, bs);
    OneSurvivor(key, pod, former, cluster);
  }

  lemma OneSurvivor(key: NsName, pod: string, former: string, cluster: string)
    ensures Survivors(Planned(key, cluster, pod), GoalBackups(Planned(key, former, pod), map[]))
         == {PairId(key, pod, former)}
  {
    PairsOfOne(key, cluster, pod);
    FirstBackup(key, former, pod);
    OnlyFirstBackup(key, former, pod);
  }

  lemma OnlyFirstBackup(key: NsName, cluster: string, pod: string)
    ensures GoalBackups(Planned(key, cluster, pod), map[]).Keys == {PairId(key, pod, cluster)}
  {
    var p := Planned(key, cluster, pod);
    PairsOfOne(key, cluster, pod);
    DesiredPairs(p);
    forall id ensures id in GoalBackups(p, map[]) <==> id == PairId(key, pod, cluster) {
      GoalPointwise(p, map[], id);
      assert Find(GoalBackups(p, map[]), id).Some? <==> id in GoalBackups(p, map[]);
    }
  }

  /** For any two clusters there is a run with successful passes only after which one pod and one source
      cluster have two backups: a pass for the first cluster, then the user turns to the second one,
      and another pass. */
  lemma RemovedClusterLeavesTwo(key: NsName, pod: string, former: string, cluster: string)
    returns (s: Sys, actions: seq<Action>, p: Plan)
    requires former != cluster
    ensures Initial(s) && IsRun(s, actions, 1)
    ensures var st := AfterAll(s, actions).store;
      && p == Planned(key, cluster, pod) && key in st.migrations && st.migrations[key] == p.migration
      && |p.Live()| * |ToSet(p.Clusters())| == 1 && |Selected(key, st.backups)| == 2
  {
    s := Sys(Before(key, former, pod), NO_CLIENTS, map[]);
    p := Planned(key, cluster, pod);
    var once := Once(key, former, pod);
    var now := Later(once, key, cluster, pod);
    OnceFacts(key, former, pod);
    LaterPermitted(once, key, Planned(key, former, pod).migration, cluster, pod);
    var first := RunToSecondStart(key, former, pod, once, now);
    LaterFits(once, key, cluster, pod);
    var second := LaterPass(p, now);
    RunThen(s, first, second, 1);
    actions := first + second;
    GoalTargets(p, now);
    BothClustersLeft(key, pod, former, cluster);
    TwoForOne(key, pod, former, cluster);
  }

  lemma TwoForOne(key: NsName, pod: string, former: string, cluster: string)
    requires former != cluster
    ensures |{PairId(key, pod, former), PairId(key, pod, cluster)}| == 2
    ensures |Planned(key, cluster, pod).Live()| * |ToSet(Planned(key, cluster, pod).Clusters())| == 1
  {
    PairsOfOne(key, cluster, pod);
    assert ToSet(Planned(key, cluster, pod).Clusters()) == {cluster};
    DifferentNames(key, pod, former, cluster);
  }

  // ----- A kind that is not supported -----

  function Odd(ns: string): Migration {
    var spec := MigrationSpec(ResourceRef("v1", "", ns, "web"), [], Registry("registry", "repository", None), "");
    Migration(spec, {}, false)
  }

  lemma OddPass(key: NsName, st: Store)
    requires key in st.migrations && st.migrations[key] == Odd(key.ns)
    ensures Exec(key, NO_CLIENTS, st, [Fetch], [OK, OK]) == Run(WithFinalizerIn(st, key), [], Failed(UnsupportedKind))
  {
    var m := Odd(key.ns);
    ExecOne(key, NO_CLIENTS, st, Fetch, [OK, OK]);
    ExecOne(key, NO_CLIENTS, st, AddFinalizer(m), [OK]);
  }

  /** A migration of an unsupported kind gets the finalizer, and after a deletion request it can never be
      released: every pass fails and changes nothing. */
  lemma UnsupportedKindGetsStuck(key: NsName) returns (s: Sys, actions: seq<Action>)
    ensures Initial(s) && IsRun(s, actions, 1)
    ensures var st := AfterAll(s, actions).store;
      && Held(st, key) && st.migrations[key].deleting
      && (forall cl, replies :: Exec(key, cl, st, [Fetch], replies).store == st)
      && (forall cl, replies :: Exec(key, cl, st, [Fetch], replies).status.Failed?)
  {
    var m := Odd(key.ns);
    var st := Store(map[key := m], map[], map[], map[], {}, {}, map[], map[]);
    s := Sys(st, NO_CLIENTS, map[]);
    OddPass(key, st);
    var held := WithFinalizerIn(st, key);
    var first := PassIsRun(s, key, false, [OK, OK], 1);
    RunOne(s, first, Environment(Doomed(held, key)), 1);
    actions := first + [Environment(Doomed(held, key))];
    var end := AfterAll(s, actions).store;
    forall cl, replies
      ensures Exec(key, cl, end, [Fetch], replies).store == end && Exec(key, cl, end, [Fetch], replies).status.Failed?
    {
      UnsupportedKindIsStuck(key, cl, end, replies);
    }
  }

  // ----- Two workers -----

  function DeploymentOf(m: Migration): WorkloadId {
    WorkloadId(Deployment, RefId(m.spec.resourceRef))
  }

  /** The migration is held, and its target is a deployment that is there. */
  ghost predicate OnDeployment(st: Store, key: NsName) {
    && Held(st, key) && !st.migrations[key].deleting
    && KindOf(st.migrations[key].spec.resourceRef) == WorkloadTarget(Deployment)
    && DeploymentOf(st.migrations[key]) in st.workloads
    && st.workloads[DeploymentOf(st.migrations[key])].selector.Parsed?
  }

  ghost predicate OnlyRelabelled(st: Store, now: Store) {
    && now.(workloads := st.workloads) == st && now.workloads.Keys == st.workloads.Keys
    && forall id | id in st.workloads :: now.workloads[id].selector == st.workloads[id].selector
  }

  lemma LabelOnlyRelabels(st: Store, key: NsName)
    requires OnDeployment(st, key)
    ensures OnlyRelabelled(st, Label(st, st.migrations[key].spec))
  {
  }

  /** One request of a pass that goes on afterwards. */
  lemma OneRequest(s: Sys, key: NsName, t: Task, rest: seq<Task>, reply: Reply)
    requires key in s.passes && s.passes[key] == [t] + rest
    requires Blocked(t, s.clients).None? && !Skipped(t, s.clients)
    requires Step(key, s.store, t, reply).Go? && Step(key, s.store, t, reply).next + rest != []
    ensures var turn := Step(key, s.store, t, reply);
      After(s, Request(key, reply)) == Sys(turn.store, s.clients, s.passes[key := turn.next + rest])
  {
    assert ([t] + rest)[1..] == rest;
  }

  lemma RequestNext(s: Sys, start: seq<Action>, key: NsName, t: Task, rest: seq<Task>, reply: Reply)
    returns (actions: seq<Action>)
    requires IsRun(s, start, WORKERS)
    requires var now := AfterAll(s, start);
      && key in now.passes && now.passes[key] == [t] + rest
      && Blocked(t, now.clients).None? && !Skipped(t, now.clients)
      && Step(key, now.store, t, reply).Go? && Step(key, now.store, t, reply).next + rest != []
    ensures IsRun(s, actions, WORKERS)
    ensures var now := AfterAll(s, start);
      var turn := Step(key, now.store, t, reply);
      AfterAll(s, actions) == Sys(turn.store, now.clients, now.passes[key := turn.next + rest])
  {
    OneRequest(AfterAll(s, start), key, t, rest, reply);
    RunOne(s, start, Request(key, reply), WORKERS);
    actions := start + [Request(key, reply)];
  }

  lemma FetchNext(s: Sys, key: NsName) returns (actions: seq<Action>)
    requires key in s.passes && s.passes[key] == [Fetch] && OnDeployment(s.store, key)
    ensures var m := s.store.migrations[key];
      && IsRun(s, actions, WORKERS)
      && AfterAll(s, actions) ==
         Sys(s.store, s.clients, s.passes[key := [LabelTask(m.spec)] + [FindWorkload(m, DeploymentOf(m))]])
  {
    var m := s.store.migrations[key];
    assert [Fetch] == [Fetch] + [];
    assert NormalProgram(key, m) + [] == [LabelTask(m.spec)] + [FindWorkload(m, DeploymentOf(m))];
    actions := RequestNext(s, [], key, Fetch, [], OK);
  }

  /** A pass over a deployment up to the label. */
  lemma ReachLabelled(s: Sys, key: NsName) returns (actions: seq<Action>)
    requires key in s.passes && s.passes[key] == [Fetch] && OnDeployment(s.store, key)
    ensures var m, end := s.store.migrations[key], AfterAll(s, actions);
      && IsRun(s, actions, WORKERS) && OnlyRelabelled(s.store, end.store)
      && end == Sys(end.store, s.clients, s.passes[key := [FindWorkload(m, DeploymentOf(m))]])
  {
    var m := s.store.migrations[key];
    var find := [FindWorkload(m, DeploymentOf(m))];
    var first := FetchNext(s, key);
    CanLabel(key, s.clients, s.store, m.spec);
    LabelOnlyRelabels(s.store, key);
    var replies :| Carries(key, s.clients, s.store, [LabelTask(m.spec)], replies, Label(s.store, m.spec));
    var more := RunTo(AfterAll(s, first), key, [LabelTask(m.spec)], find, replies, WORKERS);
    RunThen(s, first, more, WORKERS);
    actions := first + more;
    SetTwice(s.passes, key, [LabelTask(m.spec)] + find, find);
  }
  /** The pods that the deployment selects are these. */
  ghost predicate Lists(st: Store, m: Migration, listing: seq<NsName>) {
    && DeploymentOf(m) in st.workloads && st.workloads[DeploymentOf(m)].selector.Parsed?
    && Enumerates(listing, SelectedPods(st, m.spec.resourceRef.ns, st.workloads[DeploymentOf(m)].selector))
  }

  lemma ReachList(s: Sys, key: NsName, m: Migration) returns (actions: seq<Action>)
    requires key in s.passes && s.passes[key] == [FindWorkload(m, DeploymentOf(m))]
    requires DeploymentOf(m) in s.store.workloads && s.store.workloads[DeploymentOf(m)].selector.Parsed?
    ensures IsRun(s, actions, WORKERS)
    ensures AfterAll(s, actions) ==
      Sys(s.store, s.clients, s.passes[key := [ListPods(m, s.store.workloads[DeploymentOf(m)].selector)]])
  {
    var find, list := FindWorkload(m, DeploymentOf(m)), ListPods(m, s.store.workloads[DeploymentOf(m)].selector);
    assert [find] == [find] + [] && [list] + [] == [list];
    actions := RequestNext(s, [], key, find, [], OK);
  }

  lemma AnswerList(s: Sys, key: NsName, m: Migration, selector: Selector, listing: seq<NsName>)
    returns (actions: seq<Action>)
    requires key in s.passes && s.passes[key] == [ListPods(m, selector)]
    requires Enumerates(listing, SelectedPods(s.store, m.spec.resourceRef.ns, selector))
    ensures IsRun(s, actions, WORKERS)
    ensures AfterAll(s, actions) ==
      Sys(s.store, s.clients, s.passes[key := Body(key, m.spec, PodInfos(s.store.pods, listing))])
  {
    var list, body := ListPods(m, selector), Body(key, m.spec, PodInfos(s.store.pods, listing));
    assert [list] == [list] + [] && body + [] == body;
    actions := RequestNext(s, [], key, list, [], Answer(listing));
  }

  lemma SetTwice<V>(m: map<NsName, V>, key: NsName, a: V, b: V)
    ensures m[key := a][key := b] == m[key := b]
  {
  }

  /** And on to the point where it knows its pods. */
  lemma ReachBody(s: Sys, key: NsName, m: Migration, listing: seq<NsName>) returns (actions: seq<Action>)
    requires key in s.passes && s.passes[key] == [FindWorkload(m, DeploymentOf(m))]
    requires Lists(s.store, m, listing)
    ensures IsRun(s, actions, WORKERS)
    ensures AfterAll(s, actions) ==
      Sys(s.store, s.clients, s.passes[key := Body(key, m.spec, PodInfos(s.store.pods, listing))])
  {
    var selector := s.store.workloads[DeploymentOf(m)].selector;
    var first := ReachList(s, key, m);
    var second := AnswerList(AfterAll(s, first), key, m, selector, listing);
    RunThen(s, first, second, WORKERS);
    actions := first + second;
    SetTwice(s.passes, key, [ListPods(m, selector)], Body(key, m.spec, PodInfos(s.store.pods, listing)));
  }

  lemma StillLists(st: Store, now: Store, m: Migration, listing: seq<NsName>)
    requires Lists(st, m, listing) && OnlyRelabelled(st, now)
    ensures Lists(now, m, listing)
  {
    var selector := st.workloads[DeploymentOf(m)].selector;
    assert SelectedPods(now, m.spec.resourceRef.ns, selector) == SelectedPods(st, m.spec.resourceRef.ns, selector);
  }

  /** From the start of the pass to its body, for these pods. */
  lemma StartToBody(s: Sys, key: NsName, listing: seq<NsName>) returns (actions: seq<Action>)
    requires key in s.passes && s.passes[key] == [Fetch] && OnDeployment(s.store, key)
    requires Lists(s.store, s.store.migrations[key], listing)
    ensures var m, end := s.store.migrations[key], AfterAll(s, actions);
      && IsRun(s, actions, WORKERS) && OnlyRelabelled(s.store, end.store)
      && end == Sys(end.store, s.clients, s.passes[key := Body(key, m.spec, PodInfos(s.store.pods, listing))])
  {
    var m := s.store.migrations[key];
    var first := ReachLabelled(s, key);
    var labelled := AfterAll(s, first);
    StillLists(s.store, labelled.store, m, listing);
    var second := ReachBody(labelled, key, m, listing);
    RunThen(s, first, second, WORKERS);
    actions := first + second;
    SetTwice(s.passes, key, [FindWorkload(m, DeploymentOf(m))], Body(key, m.spec, PodInfos(s.store.pods, listing)));
  }

  /** On from the body to a later point of it. */
  lemma BodyTo(
    s: Sys, key: NsName, listing: seq<NsName>, first: seq<Task>, rest: seq<Task>, start: seq<Action>, end: Store,
    replies: seq<Reply>)
    returns (actions: seq<Action>)
    requires key in s.passes && IsRun(s, start, WORKERS) && rest != []
    requires var known := AfterAll(s, start);
      && known == Sys(known.store, s.clients, s.passes[key := first + rest])
      && Exec(key, s.clients, known.store, first, replies) == Run(end, [], Done)
    ensures IsRun(s, actions, WORKERS)
    ensures AfterAll(s, actions) == Sys(end, s.clients, s.passes[key := rest])
  {
    var known := AfterAll(s, start);
    var more := RunTo(known, key, first, rest, replies, WORKERS);
    RunThen(s, start, more, WORKERS);
    actions := start + more;
    SetTwice(s.passes, key, first + rest, rest);
  }

  // ----- The namespace policy -----

  /** A pass that selects no pods, up to the check for the namespace policy. */
  lemma BodyWithoutPods(key: NsName, spec: MigrationSpec) returns (rest: seq<Task>)
    ensures Body(key, spec, []) == [GetNamespace] + ([GetNamespacePolicy(spec.sourceClusters)] + rest)
  {
    rest := Body(key, spec, [])[2..];
  }

  lemma CanGetNamespace(key: NsName, cl: Clients, st: Store) returns (replies: seq<Reply>)
    requires MIGRATION_NAMESPACE in st.namespaces
    ensures Exec(key, cl, st, [GetNamespace], replies) == Run(st, [], Done)
  {
    CanLast(key, cl, st, GetNamespace, OK);
    replies :| Carries(key, cl, st, [GetNamespace], replies, st);
  }

  lemma StartToPolicy(s: Sys, key: NsName) returns (actions: seq<Action>, rest: seq<Task>)
    requires key in s.passes && s.passes[key] == [Fetch] && OnDeployment(s.store, key)
    requires Lists(s.store, s.store.migrations[key], []) && MIGRATION_NAMESPACE in s.store.namespaces
    ensures var todo := [GetNamespacePolicy(s.store.migrations[key].spec.sourceClusters)] + rest;
      var end := AfterAll(s, actions);
      && IsRun(s, actions, WORKERS) && OnlyRelabelled(s.store, end.store)
      && end == Sys(end.store, s.clients, s.passes[key := todo])
  {
    var spec := s.store.migrations[key].spec;
    var first := StartToBody(s, key, []);
    var now := AfterAll(s, first).store;
    assert PodInfos(s.store.pods, []) == [];
    rest := BodyWithoutPods(key, spec);
    var replies := CanGetNamespace(key, s.clients, now);
    var todo := [GetNamespacePolicy(spec.sourceClusters)] + rest;
    actions := BodyTo(s, key, [], [GetNamespace], todo, first, now, replies);
  }

  const A := NsName("ns", "a")
  const B := NsName("ns", "b")

  function Deployed(cluster: string): Migration {
    Migration(SpecOn("ns", cluster), {FINALIZER}, false)
  }

  function TwoMigrations(): Store {
    ClusterWith("ns", map[A := Deployed("one"), B := Deployed("two")], map[])
  }

  lemma NoPodLists(st: Store, cluster: string)
    requires st.pods == map[] && Web("ns") in st.workloads && st.workloads[Web("ns")].selector == Parsed(map[], [])
    ensures Lists(st, Deployed(cluster), [])
  {
    assert ToSet<NsName>([]) == {};
  }

  lemma TwoReady(st: Store, key: NsName, cluster: string)
    requires key in st.migrations && st.migrations[key] == Deployed(cluster) && st.pods == map[]
    requires Web("ns") in st.workloads && st.workloads[Web("ns")].selector == Parsed(map[], [])
    ensures OnDeployment(st, key) && Lists(st, Deployed(cluster), [])
  {
    DeployedHere(st, key, cluster);
    NoPodLists(st, cluster);
  }

  /** Both passes are about to check for the namespace policy, which is missing. */
  ghost predicate AtPolicy(s: Sys, a: NsName, ca: string, ra: seq<Task>, b: NsName, cb: string, rb: seq<Task>) {
    && s.clients == BOTH && NAMESPACE_POLICY !in s.store.policies && a != b
    && a in s.passes && s.passes[a] == [GetNamespacePolicy([ca])] + ra
    && b in s.passes && s.passes[b] == [GetNamespacePolicy([cb])] + rb
  }

  lemma BothBegun() returns (actions: seq<Action>)
    ensures var s := Sys(TwoMigrations(), NO_CLIENTS, map[]);
      && IsRun(s, actions, WORKERS)
      && AfterAll(s, actions) == Sys(s.store, BOTH, map[A := [Fetch], B := [Fetch]])
  {
    var s := Sys(TwoMigrations(), NO_CLIENTS, map[]);
    RunOne(s, [], Begin(A, true), WORKERS);
    RunOne(s, [] + [Begin(A, true)], Begin(B, true), WORKERS);
    actions := [] + [Begin(A, true)] + [Begin(B, true)];
  }

  /** The migration is ready for a pass without pods. */
  ghost predicate Fresh(st: Store, key: NsName, cluster: string) {
    && OnDeployment(st, key) && Lists(st, st.migrations[key], [])
    && st.migrations[key].spec.sourceClusters == [cluster]
    && MIGRATION_NAMESPACE in st.namespaces && NAMESPACE_POLICY !in st.policies
  }

  lemma StillFresh(st: Store, now: Store, key: NsName, cluster: string)
    requires Fresh(st, key, cluster) && OnlyRelabelled(st, now)
    ensures Fresh(now, key, cluster)
  {
    StillLists(st, now, st.migrations[key], []);
  }

  lemma FreshToPolicy(s: Sys, key: NsName, cluster: string) returns (actions: seq<Action>, rest: seq<Task>)
    requires key in s.passes && s.passes[key] == [Fetch] && Fresh(s.store, key, cluster)
    ensures var end := AfterAll(s, actions);
      && IsRun(s, actions, WORKERS) && OnlyRelabelled(s.store, end.store)
      && end.clients == s.clients && end.passes == s.passes[key := [GetNamespacePolicy([cluster])] + rest]
  {
    actions, rest := StartToPolicy(s, key);
  }

  lemma BothToPolicy(s: Sys, a: NsName, ca: string, b: NsName, cb: string)
    returns (actions: seq<Action>, ra: seq<Task>, rb: seq<Task>)
    requires s.clients == BOTH && a != b
    requires a in s.passes && s.passes[a] == [Fetch] && Fresh(s.store, a, ca)
    requires b in s.passes && s.passes[b] == [Fetch] && Fresh(s.store, b, cb)
    ensures IsRun(s, actions, WORKERS) && AtPolicy(AfterAll(s, actions), a, ca, ra, b, cb, rb)
  {
    var first, second;
    first, ra := FreshToPolicy(s, a, ca);
    var half := AfterAll(s, first);
    StillFresh(s.store, half.store, b, cb);
    second, rb := FreshToPolicy(half, b, cb);
    StillFresh(half.store, AfterAll(half, second).store, b, cb);
    RunThen(s, first, second, WORKERS);
    actions := first + second;
  }

  lemma BothAtPolicy() returns (actions: seq<Action>, ra: seq<Task>, rb: seq<Task>)
    ensures var s := Sys(TwoMigrations(), NO_CLIENTS, map[]);
      IsRun(s, actions, WORKERS) && AtPolicy(AfterAll(s, actions), A, "one", ra, B, "two", rb)
  {
    var s := Sys(TwoMigrations(), NO_CLIENTS, map[]);
    var first := BothBegun();
    TwoReady(s.store, A, "one");
    TwoReady(s.store, B, "two");
    var second;
    second, ra, rb := BothToPolicy(Sys(s.store, BOTH, map[A := [Fetch], B := [Fetch]]), A, "one", B, "two");
    RunThen(s, first, second, WORKERS);
    actions := first + second;
  }

  /** The requests of the race: each pass checks, `b` creates the policy, and `a` finds it. */
  lemma Race(s: Sys, a: NsName, ca: string, ra: seq<Task>, b: NsName, cb: string, rb: seq<Task>)
    returns (actions: seq<Action>)
    requires AtPolicy(s, a, ca, ra, b, cb, rb)
    ensures IsRun(s, actions, WORKERS)
    ensures var now := AfterAll(s, actions);
      && a in now.passes && NAMESPACE_POLICY in now.store.policies
      && now.store.policies[NAMESPACE_POLICY].clusters == [cb]
      && var after := After(now, Request(a, OK));
         NAMESPACE_POLICY in after.store.policies && after.store.policies[NAMESPACE_POLICY].clusters == [ca]
  {
    var pa, pb := NamespacePolicy([ca]), NamespacePolicy([cb]);
    var s1 := Served(s, a, GetNamespacePolicy([ca]), ra);
    var s2 := Served(s1, b, GetNamespacePolicy([cb]), rb);
    var s3 := Served(s2, b, UpsertPolicy(NAMESPACE_POLICY, pb), rb);
    var s4 := Served(s3, b, CreatePolicy(NAMESPACE_POLICY, pb), rb);
    var s5 := Served(s4, a, UpsertPolicy(NAMESPACE_POLICY, pa), ra);
    var s6 := Served(s5, a, PutPolicy(NAMESPACE_POLICY, pb, MergePolicy(pa, pb)), ra);
    actions := FiveRequests(s, a, b);
  }

  lemma FiveRequests(s: Sys, a: NsName, b: NsName) returns (actions: seq<Action>)
    requires a in s.passes && b in After(s, Request(a, OK)).passes
    requires var s2 := After(After(s, Request(a, OK)), Request(b, OK));
      && b in s2.passes && b in After(s2, Request(b, OK)).passes
      && a in After(After(s2, Request(b, OK)), Request(b, OK)).passes
    ensures IsRun(s, actions, WORKERS)
    ensures var s2 := After(After(s, Request(a, OK)), Request(b, OK));
      AfterAll(s, actions) == After(After(After(s2, Request(b, OK)), Request(b, OK)), Request(a, OK))
  {
    actions := [];
    RunOne(s, actions, Request(a, OK), WORKERS);
    actions := actions + [Request(a, OK)];
    RunOne(s, actions, Request(b, OK), WORKERS);
    actions := actions + [Request(b, OK)];
    RunOne(s, actions, Request(b, OK), WORKERS);
    actions := actions + [Request(b, OK)];
    RunOne(s, actions, Request(b, OK), WORKERS);
    actions := actions + [Request(b, OK)];
    RunOne(s, actions, Request(a, OK), WORKERS);
    actions := actions + [Request(a, OK)];
  }

  /** One request of a policy task that is served. */
  lemma Served(s: Sys, key: NsName, t: Task, rest: seq<Task>) returns (now: Sys)
    requires key in s.passes && s.passes[key] == [t] + rest
    requires SingleWorker.OnPolicies(t) && s.clients.karmada && PolicyTurn(s.store, t, OK).Go?
    ensures now == After(s, Request(key, OK))
    ensures var turn := PolicyTurn(s.store, t, OK);
      && now.store == turn.store && now.clients == s.clients
      && (turn.next != [] ==> key in now.passes && now.passes[key] == turn.next + rest)
      && (forall other | other in s.passes && other != key ::
            other in now.passes && now.passes[other] == s.passes[other])
  {
    now := After(s, Request(key, OK));
    assert ([t] + rest)[1..] == rest;
  }

  /** With two workers the namespace policy is not written once: in a reachable state a pass that found
      it missing is about to replace the placement that the other pass has given it since. */
  lemma TwoWorkersOverwrite() returns (s: Sys, actions: seq<Action>, key: NsName, reply: Reply)
    ensures Initial(s) && IsRun(s, actions, WORKERS)
    ensures var now := AfterAll(s, actions);
      && key in now.passes
      && !SingleWorker.WriteOnceStep(now.store.policies, After(now, Request(key, reply)).store.policies)
  {
    s, key, reply := Sys(TwoMigrations(), NO_CLIENTS, map[]), A, OK;
    var first, ra, rb := BothAtPolicy();
    var second := Race(AfterAll(s, first), A, "one", ra, B, "two", rb);
    RunThen(s, first, second, WORKERS);
    actions := first + second;
  }

  // ----- The CRD -----

  /** The body of a pass over one pod and one cluster, up to the policy of the backup. */
  function UpToPolicy(cluster: string, w: Want): seq<Task> {
    NamespaceTasks([cluster]) + (CrdTasks([cluster]) + [GetBackup(w)])
  }

  function FromPolicy(w: Want, pod: PodInfo): seq<Task> {
    [UpsertPolicy(PolicyId(w.id), PolicyFor(w))] + [ListOrphans(PodNames([pod]))]
  }

  lemma BodyOfOne(key: NsName, spec: MigrationSpec, cluster: string, pod: PodInfo)
    requires spec.sourceClusters == [cluster]
    ensures var w := WantFor(key, spec, pod, cluster);
      Body(key, spec, [pod]) == UpToPolicy(cluster, w) + FromPolicy(w, pod)
  {
    var w := WantFor(key, spec, pod, cluster);
    assert spec.sourceClusters[1..] == [];
    assert Wants(key, spec, [pod], [cluster]) == [w];
    assert [w][1..] == [];
    assert WantTasks([w]) == [GetBackup(w)] + [UpsertPolicy(PolicyId(w.id), PolicyFor(w))];
  }

  /** Without clients neither CRDs nor policies are touched. */
  lemma ClientlessStart(key: NsName, st: Store, cluster: string, w: Want) returns (end: Store)
    ensures Can(key, NO_CLIENTS, st, UpToPolicy(cluster, w), end)
    ensures end.crds == st.crds && end.policies == st.policies
  {
    CanNamespace(key, NO_CLIENTS, st, [cluster]);
    var a :| Can(key, NO_CLIENTS, st, NamespaceTasks([cluster]), a);
    CanCrds(key, NO_CLIENTS, a, [cluster]);
    var b :| Can(key, NO_CLIENTS, a, CrdTasks([cluster]), b);
    CanBackup(key, NO_CLIENTS, b, w);
    end :| Can(key, NO_CLIENTS, b, [GetBackup(w)], end);
    CanBoth(key, NO_CLIENTS, a, CrdTasks([cluster]), b, [GetBackup(w)], end);
    CanBoth(key, NO_CLIENTS, st, NamespaceTasks([cluster]), a, CrdTasks([cluster]) + [GetBackup(w)], end);
    var first :| Carries(key, NO_CLIENTS, st, NamespaceTasks([cluster]), first, a);
    NamespaceRun(key, NO_CLIENTS, st, [cluster], first);
    var second :| Carries(key, NO_CLIENTS, a, CrdTasks([cluster]), second, b);
    var n := CrdsRun(key, NO_CLIENTS, a, [cluster], second);
    var third :| Carries(key, NO_CLIENTS, b, [GetBackup(w)], third, end);
    BackupRun(key, NO_CLIENTS, b, w, third);
  }

  /** A pass over one pod without clients, up to the policy that it would pass over. */
  lemma StartPastCrds(s: Sys, key: NsName, cluster: string, id: NsName) returns (actions: seq<Action>)
    requires key in s.passes && s.passes[key] == [Fetch] && OnDeployment(s.store, key) && s.clients == NO_CLIENTS
    requires Lists(s.store, s.store.migrations[key], [id]) && id in s.store.pods
    requires s.store.migrations[key].spec.sourceClusters == [cluster]
    ensures var pod, end := s.store.pods[id].info, AfterAll(s, actions);
      && IsRun(s, actions, WORKERS)
      && end.store.crds == s.store.crds && end.store.policies == s.store.policies
      && end == Sys(end.store, NO_CLIENTS,
           s.passes[key := FromPolicy(WantFor(key, s.store.migrations[key].spec, pod, cluster), pod)])
  {
    var spec, pod := s.store.migrations[key].spec, s.store.pods[id].info;
    var w := WantFor(key, spec, pod, cluster);
    var first := StartToBody(s, key, [id]);
    assert PodInfos(s.store.pods, [id]) == [pod];
    BodyOfOne(key, spec, cluster, pod);
    var known := AfterAll(s, first).store;
    var end := ClientlessStart(key, known, cluster, w);
    var replies :| Carries(key, NO_CLIENTS, known, UpToPolicy(cluster, w), replies, end);
    actions := BodyTo(s, key, [id], UpToPolicy(cluster, w), FromPolicy(w, pod), first, end, replies);
  }

  /** The pass has passed over the CRD; then another worker creates the clients, and it places. */
  lemma LateClients(s: Sys, key: NsName, other: NsName, w: Want, pod: PodInfo) returns (actions: seq<Action>)
    requires s.clients == NO_CLIENTS && key != other && s.store.policies == map[]
    requires s.passes == map[key := FromPolicy(w, pod)]
    ensures IsRun(s, actions, WORKERS)
    ensures AfterAll(s, actions).store == s.store.(policies := map[PolicyId(w.id) := PolicyFor(w)])
  {
    var id, policy, rest := PolicyId(w.id), PolicyFor(w), [ListOrphans(PodNames([pod]))];
    RunOne(s, [], Begin(other, true), WORKERS);
    actions := [] + [Begin(other, true)];
    OneRequest(AfterAll(s, actions), key, UpsertPolicy(id, policy), rest, OK);
    RunOne(s, actions, Request(key, OK), WORKERS);
    actions := actions + [Request(key, OK)];
    OneRequest(AfterAll(s, actions), key, CreatePolicy(id, policy), rest, OK);
    RunOne(s, actions, Request(key, OK), WORKERS);
    actions := actions + [Request(key, OK)];
  }

  lemma PlacesEarly(s: Sys, key: NsName, other: NsName, cluster: string, id: NsName) returns (actions: seq<Action>)
    requires s.clients == NO_CLIENTS && s.passes == map[key := [Fetch]] && key != other
    requires OnDeployment(s.store, key) && Lists(s.store, s.store.migrations[key], [id]) && id in s.store.pods
    requires s.store.migrations[key].spec.sourceClusters == [cluster]
    requires s.store.policies == map[] && cluster !in s.store.crds
    ensures IsRun(s, actions, WORKERS) && !SingleWorker.AllReady(AfterAll(s, actions).store)
  {
    var pod := s.store.pods[id].info;
    var w := WantFor(key, s.store.migrations[key].spec, pod, cluster);
    var first := StartPastCrds(s, key, cluster, id);
    var second := LateClients(AfterAll(s, first), key, other, w, pod);
    RunThen(s, first, second, WORKERS);
    actions := first + second;
    var end := AfterAll(s, actions).store;
    assert end.policies[PolicyId(w.id)] == PolicyFor(w) && cluster in ToSet(PolicyFor(w).clusters);
  }

  const POD := NsName("ns", "x")

  function OneMigration(): Store {
    ClusterWith("ns", map[A := Deployed("one")], PodNamed("ns", "x"))
  }

  lemma OnePodLists(st: Store)
    requires st.pods == PodNamed("ns", "x")
    requires Web("ns") in st.workloads && st.workloads[Web("ns")].selector == Parsed(map[], [])
    ensures Lists(st, Deployed("one"), [POD])
  {
    OnePodListed(st, "ns", "x");
  }

  lemma DeployedHere(st: Store, key: NsName, cluster: string)
    requires key in st.migrations && st.migrations[key] == Deployed(cluster)
    requires Web("ns") in st.workloads && st.workloads[Web("ns")].selector == Parsed(map[], [])
    ensures OnDeployment(st, key)
  {
    RefIsDeployment("ns");
  }

  lemma OneReady()
    ensures OnDeployment(OneMigration(), A) && Lists(OneMigration(), Deployed("one"), [POD])
  {
    DeployedHere(OneMigration(), A, "one");
    OnePodLists(OneMigration());
  }

  lemma OneBegun() returns (actions: seq<Action>)
    ensures var s := Sys(OneMigration(), NO_CLIENTS, map[]);
      IsRun(s, actions, WORKERS) && AfterAll(s, actions) == Sys(s.store, NO_CLIENTS, map[A := [Fetch]])
  {
    RunOne(Sys(OneMigration(), NO_CLIENTS, map[]), [], Begin(A, false), WORKERS);
    actions := [] + [Begin(A, false)];
  }

  /** With two workers a backup can be placed on a cluster without the CRD: a pass was past the CRD
      step, which it skipped for want of a client, when the other worker created the clients. */
  lemma TwoWorkersPlaceEarly() returns (s: Sys, actions: seq<Action>)
    ensures Initial(s) && IsRun(s, actions, WORKERS)
    ensures !SingleWorker.AllReady(AfterAll(s, actions).store)
  {
    s := Sys(OneMigration(), NO_CLIENTS, map[]);
    var first := OneBegun();
    OneReady();
    var second := PlacesEarly(Sys(s.store, NO_CLIENTS, map[A := [Fetch]]), A, B, "one", POD);
    RunThen(s, first, second, WORKERS);
    actions := first + second;
  }
}
