/** Two properties that the controller has because it runs with one worker. */
module SingleWorker {
  import opened Objects
  import opened Naming
  import opened Cluster
  import opened Machine
  import Safety
  import opened System

  // ----- The CRD is on the cluster before a backup is placed there -----

  ghost predicate Ready(crds: set<string>, policy: Policy) {
    OfBackup(policy) ==> ToSet(policy.clusters) <= crds
  }

  /** Every policy that the tasks are going to write is for clusters that have the CRD by then. */
  ghost predicate Covered(crds: set<string>, todo: seq<Task>)
    decreases |todo|
  {
    if todo == [] then true
    else if todo[0].GetCRD? || todo[0].CreateCRD? then Covered(crds + {todo[0].cluster}, todo[1..])
    else (todo[0].UpsertPolicy? || todo[0].CreatePolicy? || todo[0].PutPolicy?
          ==> Ready(crds, todo[0].policy)) && Covered(crds, todo[1..])
  }

  lemma {:induction false} CoveredGrows(crds: set<string>, more: set<string>, todo: seq<Task>)
    requires Covered(crds, todo) && crds <= more
    ensures Covered(more, todo)
    decreases |todo|
  {
    if todo != [] {
      if todo[0].GetCRD? || todo[0].CreateCRD? {
        CoveredGrows(crds + {todo[0].cluster}, more + {todo[0].cluster}, todo[1..]);
      } else {
        CoveredGrows(crds, more, todo[1..]);
      }
    }
  }

  lemma {:induction false} CoveredConcat(crds: set<string>, a: seq<Task>, b: seq<Task>)
    requires Covered(crds, a) && Covered(crds, b)
    ensures Covered(crds, a + b)
    decreases |a|
  {
    if a == [] {
      assert a + b == b;
    } else {
      assert (a + b)[1..] == a[1..] + b;
      if a[0].GetCRD? || a[0].CreateCRD? {
        CoveredGrows(crds, crds + {a[0].cluster}, b);
        CoveredConcat(crds + {a[0].cluster}, a[1..], b);
      } else {
        CoveredConcat(crds, a[1..], b);
      }
    }
  }

  lemma {:induction false} CrdTasksCover(crds: set<string>, clusters: seq<string>, rest: seq<Task>)
    requires Covered(crds + ToSet(clusters), rest)
    ensures Covered(crds, CrdTasks(clusters) + rest)
    decreases |clusters|
  {
    if clusters == [] {
      assert CrdTasks(clusters) + rest == rest;
      assert crds + ToSet(clusters) == crds;
    } else {
      var tail := CrdTasks(clusters[1..]) + rest;
      assert (CrdTasks(clusters) + rest)[1..] == tail;
      assert crds + ToSet(clusters) == (crds + {clusters[0]}) + ToSet(clusters[1..]) by {
        assert clusters == [clusters[0]] + clusters[1..];
      }
      CrdTasksCover(crds + {clusters[0]}, clusters[1..], rest);
    }
  }

  lemma {:induction false} WantTasksCovered(crds: set<string>, ws: seq<Want>)
    requires forall w | w in ws :: w.cluster in crds
    ensures Covered(crds, WantTasks(ws))
  {
    if ws != [] {
      assert ws[0] in ws && forall w | w in ws[1..] :: w in ws;
      WantTasksCovered(crds, ws[1..]);
      var head := [GetBackup(ws[0]), UpsertPolicy(PolicyId(ws[0].id), PolicyFor(ws[0]))];
      assert head[1..] == [UpsertPolicy(PolicyId(ws[0].id), PolicyFor(ws[0]))];
      assert ToSet([ws[0].cluster]) == {ws[0].cluster};
      assert Covered(crds, head[1..]);
      assert Covered(crds, head);
      CoveredConcat(crds, head, WantTasks(ws[1..]));
    }
  }

  lemma {:induction false} WantClusters(key: NsName, spec: MigrationSpec, pods: seq<PodInfo>, clusters: seq<string>)
    ensures forall w | w in Wants(key, spec, pods, clusters) :: w.cluster in ToSet(clusters)
  {
    if clusters != [] {
      WantClusters(key, spec, pods, clusters[1..]);
    }
  }

  /** Tasks that make no demand on CRDs. */
  lemma {:induction false} PlainCovered(crds: set<string>, todo: seq<Task>)
    requires forall t | t in todo ::
      !(t.UpsertPolicy? || t.CreatePolicy? || t.PutPolicy? || t.GetCRD? || t.CreateCRD?)
    ensures Covered(crds, todo)
    decreases |todo|
  {
    if todo != [] {
      PlainCovered(crds, todo[1..]);
    }
  }

  lemma BodyCovered(crds: set<string>, key: NsName, spec: MigrationSpec, pods: seq<PodInfo>)
    ensures Covered(crds, Body(key, spec, pods))
  {
    var clusters := spec.sourceClusters;
    var ws := Wants(key, spec, pods, clusters);
    var all := crds + ToSet(clusters);
    WantClusters(key, spec, pods, clusters);
    WantTasksCovered(all, ws);
    PlainCovered(all, [ListOrphans(PodNames(pods))]);
    CoveredConcat(all, WantTasks(ws), [ListOrphans(PodNames(pods))]);
    var rest := CrdTasks(clusters) + (WantTasks(ws) + [ListOrphans(PodNames(pods))]);
    CrdTasksCover(crds, clusters, WantTasks(ws) + [ListOrphans(PodNames(pods))]);
    PlainCovered(crds, NamespaceTasks(clusters));
    CoveredConcat(crds, NamespaceTasks(clusters), rest);
  }

  lemma CollectCovered(crds: set<string>, key: NsName, m: Migration, clusters: seq<string>, found: seq<PodInfo>)
    ensures Covered(crds, Collect(key, m, clusters, found))
  {
    if clusters == [] {
      BodyCovered(crds, key, m.spec, found);
    } else {
      PlainCovered(crds, Collect(key, m, clusters, found));
    }
  }

  lemma ProgramCovered(crds: set<string>, key: NsName, m: Migration)
    ensures Covered(crds, Program(key, m))
  {
    if m.deleting {
      Safety.UnlabelPodsShape(m.spec.sourceClusters, RefId(m.spec.resourceRef));
      PlainCovered(crds, DeleteProgram(m));
    } else {
      PlainCovered(crds, [LabelTask(m.spec)]);
      if KindOf(m.spec.resourceRef).PodTarget? {
        CollectCovered(crds, key, m, m.spec.sourceClusters, []);
      } else {
        PlainCovered(crds, DiscoverTasks(key, m));
      }
      CoveredConcat(crds, [LabelTask(m.spec)], DiscoverTasks(key, m));
    }
  }

  ghost predicate Opens(t: Task) {
    t.Fetch? || t.AddFinalizer? || t.FindWorkload? || t.ListPods? || t.FindPod?
  }

  ghost predicate OnPolicies(t: Task) {
    t.GetNamespacePolicy? || t.UpsertPolicy? || t.CreatePolicy? || t.PutPolicy?
  }

  lemma OpensToCovered(crds: set<string>, key: NsName, st: Store, t: Task, reply: Reply)
    requires Opens(t) && Step(key, st, t, reply).Go?
    ensures Covered(crds, Step(key, st, t, reply).next)
  {
    match t
    case Fetch =>
      if key in st.migrations {
        ProgramCovered(crds, key, st.migrations[key]);
        PlainCovered(crds, [AddFinalizer(st.migrations[key])]);
      }
    case AddFinalizer(seen) => ProgramCovered(crds, key, WithFinalizer(seen));
    case FindWorkload(m, target) => PlainCovered(crds, Step(key, st, t, reply).next);
    case ListPods(m, selector) => BodyCovered(crds, key, m.spec, PodInfos(st.pods, reply.listing));
    case FindPod(m, cluster, rest, found) =>
      var place := MemberPodId(cluster, RefId(m.spec.resourceRef));
      CollectCovered(crds, key, m, rest, if place in st.memberPods then found + [st.memberPods[place].info] else found);
  }

  lemma OtherPlain(key: NsName, st: Store, t: Task, reply: Reply)
    requires !Opens(t) && !OnPolicies(t) && !(t.GetCRD? || t.CreateCRD?)
    requires t.LabelPod? ==> t.clusters != []
    ensures var turn := Step(key, st, t, reply); turn.Go? ==> forall u | u in turn.next ::
      !(Opens(u) || OnPolicies(u) || u.GetCRD? || u.CreateCRD?)
  {
  }

  lemma PolicyStepCovered(key: NsName, st: Store, t: Task, rest: seq<Task>, reply: Reply)
    requires OnPolicies(t) && Covered(st.crds, [t] + rest)
    requires forall pid | pid in st.policies :: Ready(st.crds, st.policies[pid])
    ensures var turn := PolicyTurn(st, t, reply);
      && (turn.Go? ==> Covered(st.crds, turn.next + rest))
      && turn.store.crds == st.crds
      && forall pid | pid in turn.store.policies :: Ready(st.crds, turn.store.policies[pid])
  {
    assert ([t] + rest)[1..] == rest;
    var turn := PolicyTurn(st, t, reply);
    if turn.Go? {
      if turn.next == [] {
        assert turn.next + rest == rest;
      } else {
        assert turn.next == [turn.next[0]];
        assert (turn.next + rest)[1..] == rest;
      }
    }
  }

  lemma CrdStepCovered(key: NsName, st: Store, t: Task, rest: seq<Task>, reply: Reply)
    requires t.GetCRD? || t.CreateCRD?
    requires Covered(st.crds, [t] + rest)
    ensures var turn := InfraTurn(st, t, reply);
      && (turn.Go? ==> Covered(turn.store.crds, turn.next + rest))
      && st.crds <= turn.store.crds && turn.store.policies == st.policies
  {
    assert ([t] + rest)[1..] == rest;
    var turn := InfraTurn(st, t, reply);
    if turn.Go? {
      if turn.next == [] {
        assert turn.next + rest == rest;
        assert st.crds + {t.cluster} == turn.store.crds;
      } else {
        assert (turn.next + rest)[1..] == rest;
      }
    }
  }

  lemma OtherStepCovered(key: NsName, st: Store, t: Task, rest: seq<Task>, reply: Reply)
    requires !OnPolicies(t) && !(t.GetCRD? || t.CreateCRD?) && (t.LabelPod? ==> t.clusters != [])
    requires Covered(st.crds, [t] + rest)
    ensures var turn := Step(key, st, t, reply);
      && (turn.Go? ==> Covered(st.crds, turn.next + rest))
      && turn.store.crds == st.crds && turn.store.policies == st.policies
  {
    assert ([t] + rest)[1..] == rest;
    StepFrame(key, st, t, reply);
    var turn := Step(key, st, t, reply);
    if turn.Go? {
      if Opens(t) {
        OpensToCovered(st.crds, key, st, t, reply);
      } else {
        OtherPlain(key, st, t, reply);
        PlainCovered(st.crds, turn.next);
      }
      CoveredConcat(st.crds, turn.next, rest);
    }
  }

  /** Without clients a pass writes no policy at all. */
  ghost predicate WritesNoPolicy(todo: seq<Task>) {
    forall t | t in todo :: !WritesPolicies(t)
  }

  ghost predicate PassCovered(cl: Clients, crds: set<string>, todo: seq<Task>) {
    if cl.karmada then cl.member && Covered(crds, todo) else WritesNoPolicy(todo)
  }

  ghost predicate AllReady(st: Store) {
    forall pid | pid in st.policies :: Ready(st.crds, st.policies[pid])
  }

  lemma BodyWritesNoPolicy(key: NsName, spec: MigrationSpec, pods: seq<PodInfo>)
    ensures WritesNoPolicy(Body(key, spec, pods))
  {
    CrdTasksShape(spec.sourceClusters);
    WantTasksShape(Wants(key, spec, pods, spec.sourceClusters));
  }

  lemma ProgramWritesNoPolicy(key: NsName, m: Migration)
    ensures WritesNoPolicy(Program(key, m))
  {
    Safety.UnlabelPodsShape(m.spec.sourceClusters, RefId(m.spec.resourceRef));
    BodyWritesNoPolicy(key, m.spec, []);
  }

  lemma OpensToNoPolicy(key: NsName, st: Store, t: Task, reply: Reply)
    requires Opens(t) && Step(key, st, t, reply).Go?
    ensures WritesNoPolicy(Step(key, st, t, reply).next)
  {
    match t
    case Fetch => if key in st.migrations { ProgramWritesNoPolicy(key, st.migrations[key]); }
    case AddFinalizer(seen) => ProgramWritesNoPolicy(key, WithFinalizer(seen));
    case FindWorkload(_, _) =>
    case ListPods(m, selector) => BodyWritesNoPolicy(key, m.spec, PodInfos(st.pods, reply.listing));
    case FindPod(m, cluster, rest, found) =>
      var place := MemberPodId(cluster, RefId(m.spec.resourceRef));
      BodyWritesNoPolicy(key, m.spec, if place in st.memberPods then found + [st.memberPods[place].info] else found);
  }

  lemma ClientlessAdvance(key: NsName, cl: Clients, st: Store, todo: seq<Task>, reply: Reply)
    requires !cl.karmada && WritesNoPolicy(todo) && AllReady(st)
    ensures var moved := Advance(key, cl, st, todo, reply); WritesNoPolicy(moved.todo) && AllReady(moved.store)
  {
    if todo != [] && Blocked(todo[0], cl).None? && !Skipped(todo[0], cl) {
      var t := todo[0];
      assert !WritesPolicies(t);
      if t.GetCRD? || t.CreateCRD? {
        ClientlessCrd(st, t, reply);
      } else if !OnPolicies(t) {
        StepFrame(key, st, t, reply);
        if Step(key, st, t, reply).Go? {
          if Opens(t) {
            OpensToNoPolicy(key, st, t, reply);
          } else {
            OtherPlain(key, st, t, reply);
          }
        }
      }
    }
  }

  lemma ClientlessCrd(st: Store, t: Task, reply: Reply)
    requires t.GetCRD? || t.CreateCRD?
    ensures var turn := InfraTurn(st, t, reply);
      && st.crds <= turn.store.crds && turn.store.policies == st.policies
      && (turn.Go? ==> WritesNoPolicy(turn.next))
  {
  }

  lemma CoveredStep(key: NsName, st: Store, t: Task, rest: seq<Task>, reply: Reply)
    requires t.LabelPod? ==> t.clusters != []
    requires Covered(st.crds, [t] + rest) && AllReady(st)
    ensures var turn := Step(key, st, t, reply);
      && (turn.Go? ==> Covered(turn.store.crds, turn.next + rest))
      && AllReady(turn.store)
  {
    if OnPolicies(t) {
      assert Step(key, st, t, reply) == PolicyTurn(st, t, reply);
      PolicyStepCovered(key, st, t, rest, reply);
    } else if t.GetCRD? || t.CreateCRD? {
      assert Step(key, st, t, reply) == InfraTurn(st, t, reply);
      CrdStepCovered(key, st, t, rest, reply);
    } else {
      OtherStepCovered(key, st, t, rest, reply);
    }
  }

  lemma CoveredAdvance(key: NsName, cl: Clients, st: Store, todo: seq<Task>, reply: Reply)
    requires cl.karmada && cl.member && Covered(st.crds, todo) && AllReady(st)
    ensures var moved := Advance(key, cl, st, todo, reply);
      Covered(moved.store.crds, moved.todo) && AllReady(moved.store)
  {
    if todo != [] && Blocked(todo[0], cl).None? && !Skipped(todo[0], cl) {
      var t, rest := todo[0], todo[1..];
      assert todo == [t] + rest;
      CoveredStep(key, st, t, rest, reply);
    }
  }

  ghost predicate Provisioned(s: Sys) {
    && (s.clients.karmada ==> s.clients.member)
    && AllReady(s.store)
    && |s.passes| <= 1
    && (forall key | key in s.passes :: PassCovered(s.clients, s.store.crds, s.passes[key]))
  }

  lemma OnlyPass<T>(passes: map<NsName, T>, key: NsName, other: NsName)
    requires |passes| <= 1 && key in passes && other in passes
    ensures key == other
  {
    if key != other {
      assert {key, other} <= passes.Keys;
      assert |{key, other}| == 2;
      SubsetSize({key, other}, passes.Keys);
    }
  }

  lemma ActionProvisioned(s: Sys, a: Action)
    requires Provisioned(s) && Enabled(s, a, 1)
    ensures Provisioned(After(s, a))
  {
    match a
    case Begin(key, kubeconfig) =>
      assert s.passes == map[];
      PlainCovered(s.store.crds, [Fetch]);
    case Request(key, reply) =>
      var moved := Advance(key, s.clients, s.store, s.passes[key], reply);
      if s.clients.karmada {
        CoveredAdvance(key, s.clients, s.store, s.passes[key], reply);
      } else {
        ClientlessAdvance(key, s.clients, s.store, s.passes[key], reply);
      }
      SubsetSize((s.passes - {key}).Keys, s.passes.Keys);
      assert s.passes[key := moved.todo].Keys == s.passes.Keys;
      forall other | other in After(s, a).passes
        ensures PassCovered(s.clients, moved.store.crds, After(s, a).passes[other])
      {
        OnlyPass(s.passes, key, other);
      }
    case Environment(now) =>
      forall key | key in s.passes && s.clients.karmada ensures Covered(now.crds, s.passes[key]) {
        CoveredGrows(s.store.crds, now.crds, s.passes[key]);
      }
    case Restart =>
  }

  /** CRD before placement: with one worker, in every reachable state every policy of a backup is for
      clusters on which the CRD is installed, and the member client exists whenever Karmada's does. */
  lemma {:induction false} CrdBeforePlacement(s: Sys, actions: seq<Action>)
    requires Initial(s) && IsRun(s, actions, 1)
    ensures Provisioned(AfterAll(s, actions))
  {
    if actions != [] {
      CrdBeforePlacement(s, actions[..|actions| - 1]);
      ActionProvisioned(AfterAll(s, actions[..|actions| - 1]), actions[|actions| - 1]);
    }
  }

  // ----- The policy of the shared namespace is written once -----

  ghost predicate NoNamespacePolicy(todo: seq<Task>) {
    forall t | t in todo :: !t.GetNamespacePolicy? && (OnPolicies(t) ==> t.policyId != NAMESPACE_POLICY) && !Opens(t)
  }

  /** The tasks write the namespace policy at most once, by creating it, and only if it is absent. */
  ghost predicate WritesOnce(absent: bool, todo: seq<Task>) {
    if todo == [] then true
    else if Opens(todo[0]) || todo[0].GetNamespacePolicy? then NoNamespacePolicy(todo[1..])
    else if OnPolicies(todo[0]) && todo[0].policyId == NAMESPACE_POLICY
    then absent && !todo[0].PutPolicy? && NoNamespacePolicy(todo[1..])
    else WritesOnce(absent, todo[1..])
  }

  lemma {:induction false} NoNamespacePolicyWritesOnce(absent: bool, todo: seq<Task>)
    requires NoNamespacePolicy(todo)
    ensures WritesOnce(absent, todo)
    decreases |todo|
  {
    if todo != [] {
      assert todo[0] in todo;
      NoNamespacePolicyWritesOnce(absent, todo[1..]);
    }
  }

  lemma {:induction false} WritesOnceConcat(absent: bool, a: seq<Task>, b: seq<Task>)
    requires (NoNamespacePolicy(a) && WritesOnce(absent, b)) || (WritesOnce(absent, a) && NoNamespacePolicy(b))
    ensures WritesOnce(absent, a + b)
    decreases |a|
  {
    if a == [] {
      assert a + b == b;
      if NoNamespacePolicy(b) {
        NoNamespacePolicyWritesOnce(absent, b);
      }
    } else {
      assert (a + b)[1..] == a[1..] + b;
      assert a[0] in a;
      if Opens(a[0]) || a[0].GetNamespacePolicy? || (OnPolicies(a[0]) && a[0].policyId == NAMESPACE_POLICY) {
      } else {
        WritesOnceConcat(absent, a[1..], b);
      }
    }
  }

  lemma {:induction false} WantTasksNoNamespacePolicy(ws: seq<Want>)
    ensures NoNamespacePolicy(WantTasks(ws))
  {
    if ws != [] {
      WantTasksNoNamespacePolicy(ws[1..]);
      NamespacePolicyIsNoBackupPolicy(ws[0].id.name);
    }
  }

  lemma BodyWritesOnce(absent: bool, key: NsName, spec: MigrationSpec, pods: seq<PodInfo>)
    ensures WritesOnce(absent, Body(key, spec, pods))
  {
    CrdTasksShape(spec.sourceClusters);
    WantTasksNoNamespacePolicy(Wants(key, spec, pods, spec.sourceClusters));
    var body := Body(key, spec, pods);
    assert body[1..][1..] == CrdTasks(spec.sourceClusters)
      + (WantTasks(Wants(key, spec, pods, spec.sourceClusters)) + [ListOrphans(PodNames(pods))]);
    assert NoNamespacePolicy(body[1..][1..]);
    assert WritesOnce(absent, body[1..]);
  }

  lemma CollectWritesOnce(absent: bool, key: NsName, m: Migration, clusters: seq<string>, found: seq<PodInfo>)
    ensures WritesOnce(absent, Collect(key, m, clusters, found))
  {
    BodyWritesOnce(absent, key, m.spec, found);
  }

  lemma ProgramWritesOnce(absent: bool, key: NsName, m: Migration)
    ensures WritesOnce(absent, Program(key, m))
  {
    if m.deleting {
      Safety.UnlabelPodsShape(m.spec.sourceClusters, RefId(m.spec.resourceRef));
      NoNamespacePolicyWritesOnce(absent, DeleteProgram(m));
    } else {
      if KindOf(m.spec.resourceRef).PodTarget? {
        CollectWritesOnce(absent, key, m, m.spec.sourceClusters, []);
      }
      assert WritesOnce(absent, DiscoverTasks(key, m));
      assert NormalProgram(key, m)[1..] == DiscoverTasks(key, m);
    }
  }

  lemma OpensToWritesOnce(absent: bool, key: NsName, st: Store, t: Task, reply: Reply)
    requires Opens(t) && Step(key, st, t, reply).Go?
    ensures WritesOnce(absent, Step(key, st, t, reply).next)
  {
    match t
    case Fetch => if key in st.migrations { ProgramWritesOnce(absent, key, st.migrations[key]); }
    case AddFinalizer(seen) => ProgramWritesOnce(absent, key, WithFinalizer(seen));
    case _ => DiscoverToWritesOnce(absent, key, st, t, reply);
  }

  lemma DiscoverToWritesOnce(absent: bool, key: NsName, st: Store, t: Task, reply: Reply)
    requires t.FindWorkload? || t.ListPods? || t.FindPod?
    requires DiscoverTurn(key, st, t, reply).Go?
    ensures WritesOnce(absent, DiscoverTurn(key, st, t, reply).next)
  {
    match t
    case FindWorkload(_, _) =>
    case ListPods(m, selector) => BodyWritesOnce(absent, key, m.spec, PodInfos(st.pods, reply.listing));
    case FindPod(m, cluster, rest, found) =>
      var place := MemberPodId(cluster, RefId(m.spec.resourceRef));
      var now := if place in st.memberPods then found + [st.memberPods[place].info] else found;
      CollectWritesOnce(absent, key, m, rest, now);
  }

  ghost predicate PassOnce(ps: map<NsName, Policy>, todo: seq<Task>) {
    WritesOnce(NAMESPACE_POLICY !in ps, todo)
  }

  /** One request either leaves the namespace policy as it is or creates it. */
  ghost predicate WriteOnceStep(before: map<NsName, Policy>, after: map<NsName, Policy>) {
    NAMESPACE_POLICY in before ==> NAMESPACE_POLICY in after && after[NAMESPACE_POLICY] == before[NAMESPACE_POLICY]
  }

  lemma PolicyStepOnce(st: Store, t: Task, rest: seq<Task>, reply: Reply)
    requires OnPolicies(t) && PassOnce(st.policies, [t] + rest)
    ensures var turn := PolicyTurn(st, t, reply);
      && WriteOnceStep(st.policies, turn.store.policies)
      && (turn.Go? ==> PassOnce(turn.store.policies, turn.next + rest))
  {
    assert ([t] + rest)[1..] == rest;
    var turn := PolicyTurn(st, t, reply);
    if turn.Go? {
      if NoNamespacePolicy(rest) {
        NoNamespacePolicyWritesOnce(NAMESPACE_POLICY !in turn.store.policies, rest);
      }
      if turn.next == [] {
        assert turn.next + rest == rest;
      } else {
        assert (turn.next + rest)[1..] == rest;
      }
    }
  }

  lemma OtherStepOnce(key: NsName, st: Store, t: Task, rest: seq<Task>, reply: Reply)
    requires !OnPolicies(t) && (t.LabelPod? ==> t.clusters != [])
    requires PassOnce(st.policies, [t] + rest)
    ensures var turn := Step(key, st, t, reply);
      && turn.store.policies == st.policies
      && (turn.Go? ==> PassOnce(st.policies, turn.next + rest))
  {
    assert ([t] + rest)[1..] == rest;
    StepFrame(key, st, t, reply);
    var absent, turn := NAMESPACE_POLICY !in st.policies, Step(key, st, t, reply);
    if turn.Go? {
      if Opens(t) {
        OpensToWritesOnce(absent, key, st, t, reply);
      } else if !(t.GetCRD? || t.CreateCRD?) {
        OtherPlain(key, st, t, reply);
      }
      WritesOnceConcat(absent, turn.next, rest);
    }
  }

  lemma StepOnce(key: NsName, st: Store, t: Task, rest: seq<Task>, reply: Reply)
    requires t.LabelPod? ==> t.clusters != []
    requires PassOnce(st.policies, [t] + rest)
    ensures var turn := Step(key, st, t, reply);
      && WriteOnceStep(st.policies, turn.store.policies)
      && (turn.Go? ==> PassOnce(turn.store.policies, turn.next + rest))
  {
    if OnPolicies(t) {
      assert Step(key, st, t, reply) == PolicyTurn(st, t, reply);
      PolicyStepOnce(st, t, rest, reply);
    } else {
      OtherStepOnce(key, st, t, rest, reply);
    }
  }

  lemma AdvanceOnce(key: NsName, cl: Clients, st: Store, todo: seq<Task>, reply: Reply)
    requires PassOnce(st.policies, todo)
    ensures var moved := Advance(key, cl, st, todo, reply);
      && WriteOnceStep(st.policies, moved.store.policies)
      && PassOnce(moved.store.policies, moved.todo)
  {
    if todo != [] && Blocked(todo[0], cl).None? {
      var t, rest := todo[0], todo[1..];
      assert todo == [t] + rest;
      if Skipped(t, cl) {
        if NoNamespacePolicy(rest) {
          NoNamespacePolicyWritesOnce(NAMESPACE_POLICY !in st.policies, rest);
        }
      } else {
        StepOnce(key, st, t, rest, reply);
      }
    }
  }

  ghost predicate Once(s: Sys) {
    |s.passes| <= 1 && forall key | key in s.passes :: PassOnce(s.store.policies, s.passes[key])
  }

  lemma {:induction false} WritesOnceWhenAbsent(todo: seq<Task>)
    requires WritesOnce(false, todo)
    ensures WritesOnce(true, todo)
    decreases |todo|
  {
    if todo != [] && WritesOnce(false, todo[1..]) {
      WritesOnceWhenAbsent(todo[1..]);
    }
  }

  lemma ActionOnce(s: Sys, a: Action)
    requires Once(s) && Enabled(s, a, 1)
    ensures Once(After(s, a))
  {
    match a
    case Begin(key, _) =>
      assert s.passes == map[];
    case Request(key, reply) =>
      var moved := Advance(key, s.clients, s.store, s.passes[key], reply);
      AdvanceOnce(key, s.clients, s.store, s.passes[key], reply);
      SubsetSize((s.passes - {key}).Keys, s.passes.Keys);
      assert s.passes[key := moved.todo].Keys == s.passes.Keys;
      forall other | other in After(s, a).passes
        ensures PassOnce(moved.store.policies, After(s, a).passes[other])
      {
        OnlyPass(s.passes, key, other);
      }
    case Environment(now) =>
      forall key | key in s.passes ensures PassOnce(now.policies, s.passes[key]) {
        if NAMESPACE_POLICY !in now.policies && NAMESPACE_POLICY in s.store.policies {
          WritesOnceWhenAbsent(s.passes[key]);
        }
      }
    case Restart =>
  }

  lemma {:induction false} PassesWriteOnce(s: Sys, actions: seq<Action>)
    requires Initial(s) && IsRun(s, actions, 1)
    ensures Once(AfterAll(s, actions))
  {
    if actions != [] {
      PassesWriteOnce(s, actions[..|actions| - 1]);
      ActionOnce(AfterAll(s, actions[..|actions| - 1]), actions[|actions| - 1]);
    }
  }

  /** With one worker, no request that the controller can make in a reachable state changes the policy
      of the shared namespace. */
  lemma NoRequestOverwrites(s: Sys, actions: seq<Action>, key: NsName, reply: Reply)
    requires Initial(s) && IsRun(s, actions, 1) && key in AfterAll(s, actions).passes
    ensures var now := AfterAll(s, actions);
      WriteOnceStep(now.store.policies, After(now, Request(key, reply)).store.policies)
  {
    PassesWriteOnce(s, actions);
    var now := AfterAll(s, actions);
    AdvanceOnce(key, now.clients, now.store, now.passes[key], reply);
  }

  /** Nobody deletes the policy on the way. */
  ghost predicate PolicyThroughout(s: Sys, actions: seq<Action>) {
    NAMESPACE_POLICY in AfterAll(s, actions).store.policies &&
    (actions != [] ==> PolicyThroughout(s, actions[..|actions| - 1]))
  }

  ghost predicate SamePlacement(before: map<NsName, Policy>, after: map<NsName, Policy>)
    requires NAMESPACE_POLICY in before && NAMESPACE_POLICY in after
  {
    && after[NAMESPACE_POLICY].clusters == before[NAMESPACE_POLICY].clusters
    && after[NAMESPACE_POLICY].selector == before[NAMESPACE_POLICY].selector
  }

  lemma ActionKeepsPlacement(s: Sys, a: Action)
    requires Once(s) && Enabled(s, a, 1)
    requires NAMESPACE_POLICY in s.store.policies && NAMESPACE_POLICY in After(s, a).store.policies
    ensures SamePlacement(s.store.policies, After(s, a).store.policies)
  {
    if a.Request? {
      AdvanceOnce(a.key, s.clients, s.store, s.passes[a.key], a.reply);
    }
  }

  lemma {:induction false} PlacementStays(s: Sys, actions: seq<Action>)
    requires Once(s) && IsRun(s, actions, 1) && PolicyThroughout(s, actions)
    ensures PolicyThroughout(s, []) && Once(AfterAll(s, actions))
    ensures SamePlacement(s.store.policies, AfterAll(s, actions).store.policies)
  {
    if actions != [] {
      var before := actions[..|actions| - 1];
      PlacementStays(s, before);
      ActionKeepsPlacement(AfterAll(s, before), actions[|actions| - 1]);
      ActionOnce(AfterAll(s, before), actions[|actions| - 1]);
    }
  }

  /** With one worker the policy of the shared namespace is written once: over any run, with faults,
      restarts and other users, its placement stays the source clusters of its creator until somebody
      deletes it. */
  lemma NamespacePolicyIsWrittenOnce(s: Sys, first: seq<Action>, more: seq<Action>)
    requires Initial(s) && IsRun(s, first, 1) && IsRun(AfterAll(s, first), more, 1)
    requires PolicyThroughout(AfterAll(s, first), more)
    ensures var now, later := AfterAll(s, first), AfterAll(AfterAll(s, first), more);
      && NAMESPACE_POLICY in now.store.policies && NAMESPACE_POLICY in later.store.policies
      && SamePlacement(now.store.policies, later.store.policies)
  {
    PassesWriteOnce(s, first);
    PlacementStays(AfterAll(s, first), more);
  }
}
