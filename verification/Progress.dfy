/** When a pass can get through, and that it then does whenever it meets no fault: exactly when its
    target is there. And, since passes do get through, exactly when they converge. */
module Progress {
  import opened Objects
  import opened Naming
  import opened Cluster
  import opened Machine
  import opened Effect
  import opened Passes
  import opened Iterations
  import opened Convergence
  import opened FaultFree
  import opened Deletion

  /** Replies that come after the last request do not matter. */
  lemma {:induction false} ExecExtend(
    key: NsName, cl: Clients, st: Store, todo: seq<Task>, replies: seq<Reply>, more: seq<Reply>)
    requires Exec(key, cl, st, todo, replies).status.Done?
    ensures var r := Exec(key, cl, st, todo, replies);
      Exec(key, cl, st, todo, replies + more) == Run(r.store, r.replies + more, Done)
    decreases |replies|, |todo|
  {
    if todo != [] {
      if Skipped(todo[0], cl) {
        ExecExtend(key, cl, st, todo[1..], replies, more);
      } else {
        var turn := Step(key, st, todo[0], replies[0]);
        assert (replies + more)[1..] == replies[1..] + more;
        ExecExtend(key, cl, turn.store, turn.next + todo[1..], replies[1..], more);
      }
    }
  }

  /** Some replies without a fault carry the tasks through, to this store. */
  ghost predicate Can(key: NsName, cl: Clients, st: Store, todo: seq<Task>, now: Store) {
    exists replies :: Carries(key, cl, st, todo, replies, now)
  }

  ghost predicate Carries(key: NsName, cl: Clients, st: Store, todo: seq<Task>, replies: seq<Reply>, now: Store) {
    Exec(key, cl, st, todo, replies) == Run(now, [], Done) && NoFault(key, cl, st, todo, replies)
  }

  lemma CanBoth(key: NsName, cl: Clients, st: Store, a: seq<Task>, mid: Store, b: seq<Task>, end: Store)
    requires Can(key, cl, st, a, mid) && Can(key, cl, mid, b, end)
    ensures Can(key, cl, st, a + b, end)
  {
    var first :| Carries(key, cl, st, a, first, mid);
    var second :| Carries(key, cl, mid, b, second, end);
    ExecExtend(key, cl, st, a, first, second);
    assert [] + second == second;
    ExecSplit(key, cl, st, a, b, first + second);
    NoFaultBoth(key, cl, st, a, first, b, second);
    assert Carries(key, cl, st, a + b, first + second, end);
  }

  /** One answered request, and then whatever it puts in front. */
  lemma CanStep(key: NsName, cl: Clients, st: Store, t: Task, reply: Reply, end: Store)
    requires Blocked(t, cl).None? && !Skipped(t, cl)
    requires Serves(key, st, t, reply) && Step(key, st, t, reply).Go?
    requires Can(key, cl, Step(key, st, t, reply).store, Step(key, st, t, reply).next, end)
    ensures Can(key, cl, st, [t], end)
  {
    var turn := Step(key, st, t, reply);
    var rest :| Carries(key, cl, turn.store, turn.next, rest, end);
    ExecOne(key, cl, st, t, [reply] + rest);
    assert ([reply] + rest)[1..] == rest && turn.next + [t][1..] == turn.next;
    assert Carries(key, cl, st, [t], [reply] + rest, end);
  }

  lemma CanNothing(key: NsName, cl: Clients, st: Store)
    ensures Can(key, cl, st, [], st)
  {
    assert Carries(key, cl, st, [], [], st);
  }

  lemma CanSkip(key: NsName, cl: Clients, st: Store, t: Task)
    requires Blocked(t, cl).None? && Skipped(t, cl)
    ensures Can(key, cl, st, [t], st)
  {
    ExecOne(key, cl, st, t, []);
    assert Carries(key, cl, st, [t], [], st);
  }

  /** A single request that is answered and has no follow-up. */
  lemma CanLast(key: NsName, cl: Clients, st: Store, t: Task, reply: Reply)
    requires Blocked(t, cl).None? && !Skipped(t, cl)
    requires Serves(key, st, t, reply) && Step(key, st, t, reply).Go? && Step(key, st, t, reply).next == []
    ensures Can(key, cl, st, [t], Step(key, st, t, reply).store)
  {
    CanNothing(key, cl, Step(key, st, t, reply).store);
    CanStep(key, cl, st, t, reply, Step(key, st, t, reply).store);
  }

  const OK := Answer([])

  lemma {:induction false} ListingOf(ids: set<NsName>) returns (listing: seq<NsName>)
    ensures Enumerates(listing, ids)
    decreases ids
  {
    if ids == {} {
      listing := [];
      assert ToSet(listing) == {};
    } else {
      var id :| id in ids;
      var rest := ListingOf(ids - {id});
      listing := [id] + rest;
      assert ToSet(listing) == {id} + ToSet(rest);
      assert Distinct(listing);
    }
  }

  // ----- The phases of a normal pass -----

  lemma CanUpsert(key: NsName, cl: Clients, st: Store, id: NsName, policy: Policy)
    ensures exists now :: Can(key, cl, st, [UpsertPolicy(id, policy)], now)
  {
    if !cl.karmada {
      CanSkip(key, cl, st, UpsertPolicy(id, policy));
    } else {
      var next := if id in st.policies then PutPolicy(id, st.policies[id], MergePolicy(policy, st.policies[id]))
                  else CreatePolicy(id, policy);
      CanLast(key, cl, st, next, OK);
      CanStep(key, cl, st, UpsertPolicy(id, policy), OK, Step(key, st, next, OK).store);
    }
  }

  lemma CanBackup(key: NsName, cl: Clients, st: Store, w: Want)
    ensures exists now :: Can(key, cl, st, [GetBackup(w)], now)
  {
    var next := if w.id in st.backups then PutBackup(w, st.backups[w.id]) else CreateBackup(w);
    CanLast(key, cl, st, next, OK);
    CanStep(key, cl, st, GetBackup(w), OK, Step(key, st, next, OK).store);
  }

  lemma {:induction false} CanWants(key: NsName, cl: Clients, st: Store, ws: seq<Want>)
    ensures exists now :: Can(key, cl, st, WantTasks(ws), now)
    decreases |ws|
  {
    if ws == [] {
      CanNothing(key, cl, st);
      assert Can(key, cl, st, WantTasks(ws), st);
    } else {
      var w := ws[0];
      CanBackup(key, cl, st, w);
      var a :| Can(key, cl, st, [GetBackup(w)], a);
      CanUpsert(key, cl, a, PolicyId(w.id), PolicyFor(w));
      var b :| Can(key, cl, a, [UpsertPolicy(PolicyId(w.id), PolicyFor(w))], b);
      CanBoth(key, cl, st, [GetBackup(w)], a, [UpsertPolicy(PolicyId(w.id), PolicyFor(w))], b);
      CanWants(key, cl, b, ws[1..]);
      var end :| Can(key, cl, b, WantTasks(ws[1..]), end);
      assert [GetBackup(w)] + [UpsertPolicy(PolicyId(w.id), PolicyFor(w))]
          == [GetBackup(w), UpsertPolicy(PolicyId(w.id), PolicyFor(w))];
      CanBoth(key, cl, st, [GetBackup(w), UpsertPolicy(PolicyId(w.id), PolicyFor(w))], b, WantTasks(ws[1..]), end);
      assert Can(key, cl, st, WantTasks(ws), end);
    }
  }

  lemma CanCrd(key: NsName, cl: Clients, st: Store, cluster: string)
    ensures exists now :: Can(key, cl, st, [GetCRD(cluster)], now)
  {
    if !cl.member {
      CanSkip(key, cl, st, GetCRD(cluster));
    } else if cluster in st.crds {
      CanLast(key, cl, st, GetCRD(cluster), OK);
    } else {
      CanLast(key, cl, st, CreateCRD(cluster), OK);
      CanStep(key, cl, st, GetCRD(cluster), OK, Step(key, st, CreateCRD(cluster), OK).store);
    }
  }

  lemma {:induction false} CanCrds(key: NsName, cl: Clients, st: Store, clusters: seq<string>)
    ensures exists now :: Can(key, cl, st, CrdTasks(clusters), now)
    decreases |clusters|
  {
    if clusters == [] {
      CanNothing(key, cl, st);
      assert Can(key, cl, st, CrdTasks(clusters), st);
    } else {
      CanCrd(key, cl, st, clusters[0]);
      var a :| Can(key, cl, st, [GetCRD(clusters[0])], a);
      CanCrds(key, cl, a, clusters[1..]);
      var end :| Can(key, cl, a, CrdTasks(clusters[1..]), end);
      CanBoth(key, cl, st, [GetCRD(clusters[0])], a, CrdTasks(clusters[1..]), end);
      assert Can(key, cl, st, CrdTasks(clusters), end);
    }
  }

  lemma CanNamespace(key: NsName, cl: Clients, st: Store, clusters: seq<string>)
    ensures exists now :: Can(key, cl, st, NamespaceTasks(clusters), now)
  {
    var a: Store;
    if MIGRATION_NAMESPACE in st.namespaces {
      CanLast(key, cl, st, GetNamespace, OK);
      a := st;
    } else {
      CanLast(key, cl, st, CreateNamespace, OK);
      a := Step(key, st, CreateNamespace, OK).store;
      CanStep(key, cl, st, GetNamespace, OK, a);
    }
    CanNamespacePolicy(key, cl, a, clusters);
    var end :| Can(key, cl, a, [GetNamespacePolicy(clusters)], end);
    CanBoth(key, cl, st, [GetNamespace], a, [GetNamespacePolicy(clusters)], end);
    assert [GetNamespace] + [GetNamespacePolicy(clusters)] == NamespaceTasks(clusters);
  }

  lemma CanNamespacePolicy(key: NsName, cl: Clients, st: Store, clusters: seq<string>)
    ensures exists now :: Can(key, cl, st, [GetNamespacePolicy(clusters)], now)
  {
    if !cl.karmada {
      CanSkip(key, cl, st, GetNamespacePolicy(clusters));
    } else if NAMESPACE_POLICY in st.policies {
      CanLast(key, cl, st, GetNamespacePolicy(clusters), OK);
    } else {
      CanUpsert(key, cl, st, NAMESPACE_POLICY, NamespacePolicy(clusters));
      var end :| Can(key, cl, st, [UpsertPolicy(NAMESPACE_POLICY, NamespacePolicy(clusters))], end);
      CanStep(key, cl, st, GetNamespacePolicy(clusters), OK, end);
    }
  }

  lemma {:induction false} CanDelete(key: NsName, cl: Clients, st: Store, ids: seq<NsName>)
    ensures exists now :: Can(key, cl, st, DeleteTasks(ids), now) && now.migrations == st.migrations
    decreases |ids|
  {
    if ids == [] {
      CanNothing(key, cl, st);
    } else {
      var a := Step(key, st, DeleteBackup(ids[0]), OK).store;
      CanLast(key, cl, st, DeleteBackup(ids[0]), OK);
      CanDelete(key, cl, a, ids[1..]);
      var end :| Can(key, cl, a, DeleteTasks(ids[1..]), end) && end.migrations == a.migrations;
      CanBoth(key, cl, st, [DeleteBackup(ids[0])], a, DeleteTasks(ids[1..]), end);
      assert [DeleteBackup(ids[0])] + DeleteTasks(ids[1..]) == DeleteTasks(ids);
    }
  }

  lemma CanCleanup(key: NsName, cl: Clients, st: Store, live: set<string>)
    ensures exists now :: Can(key, cl, st, [ListOrphans(live)], now)
  {
    var listing := ListingOf(Selected(key, st.backups));
    CanDelete(key, cl, st, OrphansIn(st.backups, live, listing));
    var end :| Can(key, cl, st, DeleteTasks(OrphansIn(st.backups, live, listing)), end);
    CanStep(key, cl, st, ListOrphans(live), Answer(listing), end);
  }

  lemma CanBody(key: NsName, cl: Clients, st: Store, spec: MigrationSpec, pods: seq<PodInfo>)
    ensures exists now :: Can(key, cl, st, Body(key, spec, pods), now)
  {
    var ws, clusters := Wants(key, spec, pods, spec.sourceClusters), spec.sourceClusters;
    CanNamespace(key, cl, st, clusters);
    var a :| Can(key, cl, st, NamespaceTasks(clusters), a);
    CanCrds(key, cl, a, clusters);
    var b :| Can(key, cl, a, CrdTasks(clusters), b);
    CanWants(key, cl, b, ws);
    var c :| Can(key, cl, b, WantTasks(ws), c);
    CanCleanup(key, cl, c, PodNames(pods));
    var end :| Can(key, cl, c, [ListOrphans(PodNames(pods))], end);
    CanBoth(key, cl, b, WantTasks(ws), c, [ListOrphans(PodNames(pods))], end);
    CanBoth(key, cl, a, CrdTasks(clusters), b, WantTasks(ws) + [ListOrphans(PodNames(pods))], end);
    CanBoth(key, cl, st, NamespaceTasks(clusters), a,
            CrdTasks(clusters) + (WantTasks(ws) + [ListOrphans(PodNames(pods))]), end);
    assert Can(key, cl, st, Body(key, spec, pods), end);
  }

  // ----- The target -----

  /** The target can be labelled and its pods can be found. */
  ghost predicate TargetReady(cl: Clients, st: Store, spec: MigrationSpec) {
    match KindOf(spec.resourceRef)
    case WorkloadTarget(kind) =>
      var id := WorkloadId(kind, RefId(spec.resourceRef));
      id in st.workloads && st.workloads[id].selector.Parsed?
    case PodTarget =>
      cl.member && spec.sourceClusters != [] &&
      MemberPodId(spec.sourceClusters[0], RefId(spec.resourceRef)) in st.memberPods
    case Unsupported => false
  }

  lemma CanLabel(key: NsName, cl: Clients, st: Store, spec: MigrationSpec)
    requires TargetReady(cl, st, spec)
    ensures Can(key, cl, st, [LabelTask(spec)], Label(st, spec))
  {
    match KindOf(spec.resourceRef)
    case WorkloadTarget(kind) =>
      var id := WorkloadId(kind, RefId(spec.resourceRef));
      var w := st.workloads[id];
      CanLast(key, cl, st, PutWorkload(id, w, w.(labels := Labelled(w.labels))), OK);
      CanStep(key, cl, st, LabelTask(spec), OK, Label(st, spec));
    case PodTarget =>
      var place := MemberPodId(spec.sourceClusters[0], RefId(spec.resourceRef));
      var pod := st.memberPods[place];
      CanLast(key, cl, st, PutPod(place, pod, pod.(labels := Labelled(pod.labels))), OK);
      CanStep(key, cl, st, LabelTask(spec), OK, Label(st, spec));
    case Unsupported =>
  }

  lemma CanFind(key: NsName, cl: Clients, st: Store, m: Migration, clusters: seq<string>, found: seq<PodInfo>)
    requires cl.member && clusters != []
    requires var place := MemberPodId(clusters[0], RefId(m.spec.resourceRef));
      var now := if place in st.memberPods then found + [st.memberPods[place].info] else found;
      exists end :: Can(key, cl, st, Collect(key, m, clusters[1..], now), end)
    ensures exists end :: Can(key, cl, st, Collect(key, m, clusters, found), end)
  {
    var place := MemberPodId(clusters[0], RefId(m.spec.resourceRef));
    var now := if place in st.memberPods then found + [st.memberPods[place].info] else found;
    var end :| Can(key, cl, st, Collect(key, m, clusters[1..], now), end);
    CanStep(key, cl, st, FindPod(m, clusters[0], clusters[1..], found), OK, end);
    assert Can(key, cl, st, Collect(key, m, clusters, found), end);
  }

  lemma {:induction false} CanCollect(
    key: NsName, cl: Clients, st: Store, m: Migration, clusters: seq<string>, found: seq<PodInfo>)
    requires cl.member
    ensures exists now :: Can(key, cl, st, Collect(key, m, clusters, found), now)
    decreases |clusters|
  {
    if clusters == [] {
      CanBody(key, cl, st, m.spec, found);
      var end :| Can(key, cl, st, Body(key, m.spec, found), end);
      assert Can(key, cl, st, Collect(key, m, clusters, found), end);
    } else {
      var place := MemberPodId(clusters[0], RefId(m.spec.resourceRef));
      var now := if place in st.memberPods then found + [st.memberPods[place].info] else found;
      CanCollect(key, cl, st, m, clusters[1..], now);
      CanFind(key, cl, st, m, clusters, found);
    }
  }

  lemma CanDiscoverWorkload(key: NsName, cl: Clients, st: Store, m: Migration, id: WorkloadId)
    requires id in st.workloads && st.workloads[id].selector.Parsed?
    ensures exists now :: Can(key, cl, st, [FindWorkload(m, id)], now)
  {
    var selector := st.workloads[id].selector;
    var listing := ListingOf(SelectedPods(st, m.spec.resourceRef.ns, selector));
    var pods := PodInfos(st.pods, listing);
    CanBody(key, cl, st, m.spec, pods);
    var end :| Can(key, cl, st, Body(key, m.spec, pods), end);
    CanStep(key, cl, st, ListPods(m, selector), Answer(listing), end);
    CanStep(key, cl, st, FindWorkload(m, id), OK, end);
  }

  lemma CanDiscover(key: NsName, cl: Clients, st: Store, m: Migration)
    requires TargetReady(cl, st, m.spec)
    ensures exists now :: Can(key, cl, st, DiscoverTasks(key, m), now)
  {
    match KindOf(m.spec.resourceRef)
    case WorkloadTarget(kind) =>
      var id := WorkloadId(kind, RefId(m.spec.resourceRef));
      CanDiscoverWorkload(key, cl, st, m, id);
      var end :| Can(key, cl, st, [FindWorkload(m, id)], end);
      assert Can(key, cl, st, DiscoverTasks(key, m), end);
    case PodTarget =>
      CanCollect(key, cl, st, m, m.spec.sourceClusters, []);
      var end :| Can(key, cl, st, Collect(key, m, m.spec.sourceClusters, []), end);
      assert Can(key, cl, st, DiscoverTasks(key, m), end);
    case Unsupported =>
  }

  lemma CanOpen(key: NsName, cl: Clients, st: Store, end: Store)
    requires key in st.migrations && !st.migrations[key].deleting
    requires Can(key, cl, WithFinalizerIn(st, key), NormalProgram(key, WithFinalizer(st.migrations[key])), end)
    ensures Can(key, cl, st, [Fetch], end)
  {
    var m := st.migrations[key];
    if FINALIZER in m.finalizers {
      assert m.finalizers + {FINALIZER} == m.finalizers;
      assert WithFinalizer(m) == m && WithFinalizerIn(st, key) == st;
    } else {
      CanStep(key, cl, st, AddFinalizer(m), OK, end);
    }
    CanStep(key, cl, st, Fetch, OK, end);
  }

  /** A normal pass can get through exactly when its target is there: the workload exists and its
      selector parses, or the pod exists on the first source cluster and there is a client for it. */
  lemma NormalPassCanSucceed(key: NsName, cl: Clients, st: Store)
    requires key in st.migrations && !st.migrations[key].deleting
    ensures (exists replies :: Exec(key, cl, st, [Fetch], replies).status.Done?)
       <==> TargetReady(cl, st, st.migrations[key].spec)
    ensures TargetReady(cl, st, st.migrations[key].spec) ==> exists end :: Can(key, cl, st, [Fetch], end)
  {
    var m, a := WithFinalizer(st.migrations[key]), WithFinalizerIn(st, key);
    if TargetReady(cl, st, m.spec) {
      CanLabel(key, cl, a, m.spec);
      CanDiscover(key, cl, Label(a, m.spec), m);
      var end :| Can(key, cl, Label(a, m.spec), DiscoverTasks(key, m), end);
      CanBoth(key, cl, a, [LabelTask(m.spec)], Label(a, m.spec), DiscoverTasks(key, m), end);
      CanOpen(key, cl, st, end);
      var replies :| Carries(key, cl, st, [Fetch], replies, end);
      assert Exec(key, cl, st, [Fetch], replies).status.Done?;
    }
    if replies :| Exec(key, cl, st, [Fetch], replies).status.Done? {
      NeedsTarget(key, cl, st, replies);
    }
  }

  lemma LabelNeedsTarget(key: NsName, cl: Clients, st: Store, m: Migration, replies: seq<Reply>)
    requires Exec(key, cl, st, [LabelTask(m.spec)], replies).status.Done?
    ensures var spec := m.spec; match KindOf(spec.resourceRef)
      case WorkloadTarget(kind) => WorkloadId(kind, RefId(spec.resourceRef)) in st.workloads
      case PodTarget => TargetReady(cl, st, spec)
      case Unsupported => false
  {
    ExecOne(key, cl, st, LabelTask(m.spec), replies);
  }

  lemma DiscoveryNeedsSelector(key: NsName, cl: Clients, st: Store, m: Migration, replies: seq<Reply>)
    requires KindOf(m.spec.resourceRef).WorkloadTarget?
    requires Exec(key, cl, st, DiscoverTasks(key, m), replies).status.Done?
    ensures TargetReady(cl, st, m.spec)
  {
    ExecOne(key, cl, st, DiscoverTasks(key, m)[0], replies);
  }

  /** The first two steps of a pass already need the target. */
  lemma ProgramNeedsTarget(key: NsName, cl: Clients, st: Store, m: Migration, replies: seq<Reply>)
    requires Exec(key, cl, st, NormalProgram(key, m), replies).status.Done?
    ensures TargetReady(cl, st, m.spec)
  {
    ExecSplit(key, cl, st, [LabelTask(m.spec)], DiscoverTasks(key, m), replies);
    LabelNeedsTarget(key, cl, st, m, replies);
    var r1 := Exec(key, cl, st, [LabelTask(m.spec)], replies);
    LabelRun(key, cl, st, m.spec, replies);
    if KindOf(m.spec.resourceRef).WorkloadTarget? {
      DiscoveryNeedsSelector(key, cl, r1.store, m, r1.replies);
    }
  }
  lemma NeedsTarget(key: NsName, cl: Clients, st: Store, replies: seq<Reply>)
    requires key in st.migrations && !st.migrations[key].deleting
    requires Exec(key, cl, st, [Fetch], replies).status.Done?
    ensures TargetReady(cl, st, st.migrations[key].spec)
  {
    var left := OpeningRun(key, cl, st, replies);
    ProgramNeedsTarget(key, cl, WithFinalizerIn(st, key), WithFinalizer(st.migrations[key]), left);
  }
  lemma ProgramOnTrack(key: NsName, cl: Clients, st: Store, m: Migration)
    requires TargetReady(cl, st, m.spec)
    ensures OnTrack(cl, st, NormalProgram(key, m))
  {
    BodyStartable(key, cl, st, m.spec, []);
    assert NormalProgram(key, m)[1..] == DiscoverTasks(key, m);
  }

  lemma NoFaultOpening(key: NsName, cl: Clients, st: Store, replies: seq<Reply>)
    requires key in st.migrations && !st.migrations[key].deleting
    requires TargetReady(cl, st, st.migrations[key].spec) && NoFault(key, cl, st, [Fetch], replies)
    ensures Exec(key, cl, st, [Fetch], replies).status.Done?
  {
    var m, a := st.migrations[key], WithFinalizerIn(st, key);
    ExecOne(key, cl, st, Fetch, replies);
    assert AfterFetch(key, m) + [Fetch][1..] == AfterFetch(key, m);
    if FINALIZER in m.finalizers {
      ProgramOnTrack(key, cl, st, m);
      NoFaultSucceeds(key, cl, st, NormalProgram(key, m), replies[1..]);
    } else {
      var program := NormalProgram(key, WithFinalizer(m));
      ExecOne(key, cl, st, AddFinalizer(m), replies[1..]);
      assert program + [AddFinalizer(m)][1..] == program;
      ProgramOnTrack(key, cl, a, WithFinalizer(m));
      NoFaultSucceeds(key, cl, a, program, replies[1..][1..]);
    }
  }

  /** A normal pass that meets no fault gets through exactly when its target is there, and then the
      cluster is at the goal for the pods it discovered. */
  lemma FaultFreeNormalPass(key: NsName, cl: Clients, st: Store, replies: seq<Reply>) returns (p: Plan)
    requires key in st.migrations && !st.migrations[key].deleting
    requires NoFault(key, cl, st, [Fetch], replies)
    ensures p == Plan(key, cl, WithFinalizer(st.migrations[key]), p.pods)
    ensures var r := Exec(key, cl, st, [Fetch], replies);
      && (r.status.Done? <==> TargetReady(cl, st, st.migrations[key].spec))
      && (r.status.Done? ==> Discovered(st, p.migration.spec, p.pods) && r.store == Goal(p, st))
  {
    p := NormalPass(key, cl, st, replies);
    if TargetReady(cl, st, st.migrations[key].spec) {
      NoFaultOpening(key, cl, st, replies);
    } else if Exec(key, cl, st, [Fetch], replies).status.Done? {
      NeedsTarget(key, cl, st, replies);
    }
  }

  // ----- Convergence, both ways -----

  lemma StillReady(p: Plan, st: Store, now: Store)
    requires SameInputs(p, st, now) && TargetReady(p.clients, st, p.migration.spec)
    ensures TargetReady(p.clients, now, p.migration.spec)
  {
    SameInputsSameInfos(p, st, now);
  }

  lemma SomeSuccess(p: Plan, st: Store) returns (replies: seq<Reply>)
    requires Fits(p, st) && TargetReady(p.clients, st, p.migration.spec)
    ensures var r := Exec(p.key, p.clients, st, [Fetch], replies); r.status.Done? && r.store == Goal(p, st)
    ensures Fits(p, Goal(p, st)) && TargetReady(p.clients, Goal(p, st), p.migration.spec)
  {
    NormalPassCanSucceed(p.key, p.clients, st);
    replies :| Exec(p.key, p.clients, st, [Fetch], replies).status.Done?;
    PassKeepsGoal(p, st, replies);
    StillReady(p, st, Goal(p, st));
  }

  /** From a start that is not stable, one successful pass before another one makes a difference. */
  lemma UnstableDiverges(p: Plan, st: Store)
    requires Fits(p, st) && TargetReady(p.clients, st, p.migration.spec) && !Stable(p, st.backups)
    ensures !Converges(p, st)
  {
    var alone := SomeSuccess(p, st);
    var once := Goal(p, st);
    var last := SomeSuccess(p, once);
    GoalTwice(p, st);
    assert [alone][..0] == [];
    assert PassAll(p.key, p.clients, st, [alone]) == once;
    assert !SameEnd(p, st, [alone], last, alone);
  }

  /** Passes converge exactly from stable starts, and trivially when none can get through. */
  lemma ConvergesIffStable(p: Plan, st: Store)
    requires Fits(p, st)
    ensures Converges(p, st) <==> Stable(p, st.backups) || !TargetReady(p.clients, st, p.migration.spec)
  {
    if Stable(p, st.backups) {
      forall scripts, last, alone ensures SameEnd(p, st, scripts, last, alone) {
        CrashRestartConvergence(p, st, scripts, last, alone);
      }
    } else if TargetReady(p.clients, st, p.migration.spec) {
      UnstableDiverges(p, st);
    } else {
      forall scripts, last, alone ensures SameEnd(p, st, scripts, last, alone) {
        if Exec(p.key, p.clients, st, [Fetch], alone).status.Done? {
          NeedsTarget(p.key, p.clients, st, alone);
        }
      }
    }
  }

  // ----- Delete passes -----

  lemma {:induction false} CanUnlabelPods(key: NsName, cl: Clients, st: Store, clusters: seq<string>, pod: NsName)
    ensures exists now :: Can(key, cl, st, UnlabelPods(clusters, pod), now) && now.migrations == st.migrations
    decreases |clusters|
  {
    if clusters == [] {
      CanNothing(key, cl, st);
    } else {
      var place := MemberPodId(clusters[0], pod);
      var t, a := UnlabelPod(place), st;
      if !cl.member {
        CanSkip(key, cl, st, t);
      } else if place !in st.memberPods {
        CanLast(key, cl, st, t, OK);
      } else {
        var before := st.memberPods[place];
        var put := PutPod(place, before, before.(labels := Unlabelled(before.labels)));
        CanLast(key, cl, st, put, OK);
        a := Step(key, st, put, OK).store;
        CanStep(key, cl, st, t, OK, a);
      }
      CanUnlabelPods(key, cl, a, clusters[1..], pod);
      var end :| Can(key, cl, a, UnlabelPods(clusters[1..], pod), end) && end.migrations == a.migrations;
      CanBoth(key, cl, st, [t], a, UnlabelPods(clusters[1..], pod), end);
    }
  }

  lemma CanUnlabel(key: NsName, cl: Clients, st: Store, spec: MigrationSpec)
    requires !KindOf(spec.resourceRef).Unsupported?
    ensures exists now :: Can(key, cl, st, UnlabelTasks(spec), now) && now.migrations == st.migrations
  {
    match KindOf(spec.resourceRef)
    case WorkloadTarget(kind) =>
      var id := WorkloadId(kind, RefId(spec.resourceRef));
      if id in st.workloads {
        var w := st.workloads[id];
        var put := PutWorkload(id, w, w.(labels := Unlabelled(w.labels)));
        CanLast(key, cl, st, put, OK);
        CanStep(key, cl, st, UnlabelWorkload(id), OK, Step(key, st, put, OK).store);
      } else {
        CanLast(key, cl, st, UnlabelWorkload(id), OK);
      }
    case PodTarget =>
      CanUnlabelPods(key, cl, st, spec.sourceClusters, RefId(spec.resourceRef));
    case Unsupported =>
  }

  lemma CanReleaseAfter(key: NsName, cl: Clients, st: Store, m: Migration)
    requires key in st.migrations && st.migrations[key] == m
    ensures exists now :: Can(key, cl, st, [ListAll, RemoveFinalizer(m)], now)
  {
    CanDeleteAll(key, cl, st);
    var mid :| Can(key, cl, st, [ListAll], mid) && mid.migrations == st.migrations;
    assert WithoutFinalizer(m).finalizers <= m.finalizers;
    CanLast(key, cl, mid, RemoveFinalizer(m), OK);
    CanBoth(key, cl, st, [ListAll], mid, [RemoveFinalizer(m)], Step(key, mid, RemoveFinalizer(m), OK).store);
    assert [ListAll] + [RemoveFinalizer(m)] == [ListAll, RemoveFinalizer(m)];
  }

  lemma CanDeleteProgram(key: NsName, cl: Clients, st: Store, m: Migration)
    requires key in st.migrations && st.migrations[key] == m && !KindOf(m.spec.resourceRef).Unsupported?
    ensures exists now :: Can(key, cl, st, DeleteProgram(m), now)
  {
    CanUnlabel(key, cl, st, m.spec);
    var a :| Can(key, cl, st, UnlabelTasks(m.spec), a) && a.migrations == st.migrations;
    CanReleaseAfter(key, cl, a, m);
    var end :| Can(key, cl, a, [ListAll, RemoveFinalizer(m)], end);
    CanBoth(key, cl, st, UnlabelTasks(m.spec), a, [ListAll, RemoveFinalizer(m)], end);
    assert Can(key, cl, st, DeleteProgram(m), end);
  }

  lemma CanRelease(key: NsName, cl: Clients, st: Store)
    requires key in st.migrations && st.migrations[key].deleting && FINALIZER in st.migrations[key].finalizers
    requires !KindOf(st.migrations[key].spec.resourceRef).Unsupported?
    ensures exists now :: Can(key, cl, st, [Fetch], now)
  {
    var m := st.migrations[key];
    CanDeleteProgram(key, cl, st, m);
    var end :| Can(key, cl, st, DeleteProgram(m), end);
    CanStep(key, cl, st, Fetch, OK, end);
  }

  /** A delete pass that meets no fault gets through exactly when the kind is supported, whether or not
      the target still exists, and then it has its full effect: no m-backup is left, the target is
      unlabelled and the finalizer is gone. */
  lemma FaultFreeDeletePass(key: NsName, cl: Clients, st: Store, replies: seq<Reply>)
    requires key in st.migrations && st.migrations[key].deleting && FINALIZER in st.migrations[key].finalizers
    requires NoFault(key, cl, st, [Fetch], replies)
    ensures var r := Exec(key, cl, st, [Fetch], replies);
      && (r.status.Done? <==> !KindOf(st.migrations[key].spec.resourceRef).Unsupported?)
      && (r.status.Done? ==> r.store == Deleted(key, cl, st) && Selected(key, r.store.backups) == {})
  {
    var gone := DeletePass(key, cl, st, replies);
    NoFaultNoOutage(key, cl, st, [Fetch], replies);
    if KindOf(st.migrations[key].spec.resourceRef).Unsupported? {
      UnsupportedKindIsStuck(key, cl, st, replies);
    }
  }

  /** A migration that is being deleted can be released exactly when its kind is a supported one; the
      target need not exist any more. */
  lemma DeletePassCanSucceed(key: NsName, cl: Clients, st: Store)
    requires key in st.migrations && st.migrations[key].deleting && FINALIZER in st.migrations[key].finalizers
    ensures (exists replies :: Exec(key, cl, st, [Fetch], replies).status.Done?)
       <==> !KindOf(st.migrations[key].spec.resourceRef).Unsupported?
    ensures !KindOf(st.migrations[key].spec.resourceRef).Unsupported? ==> exists end :: Can(key, cl, st, [Fetch], end)
  {
    if KindOf(st.migrations[key].spec.resourceRef).Unsupported? {
      forall replies ensures Exec(key, cl, st, [Fetch], replies).status.Failed? {
        UnsupportedKindIsStuck(key, cl, st, replies);
      }
    } else {
      CanRelease(key, cl, st);
      var end :| Can(key, cl, st, [Fetch], end);
      var replies :| Carries(key, cl, st, [Fetch], replies, end);
      assert Exec(key, cl, st, [Fetch], replies).status.Done?;
    }
  }

  lemma CanDeleteAll(key: NsName, cl: Clients, st: Store)
    ensures exists now :: Can(key, cl, st, [ListAll], now) && now.migrations == st.migrations
  {
    var listing := ListingOf(Selected(key, st.backups));
    CanDelete(key, cl, st, listing);
    var end :| Can(key, cl, st, DeleteTasks(listing), end) && end.migrations == st.migrations;
    CanStep(key, cl, st, ListAll, Answer(listing), end);
  }
}
