/** A normal pass in a quiet cluster: what each phase has done to the store when the pass gets
    through it, and everything it can have done when it is cut off inside. */
module Passes {
  import opened Objects
  import opened Naming
  import opened Cluster
  import opened Machine
  import opened Effect

  // ----- Backups and their policies -----

  function AfterUpsert(cl: Clients, st: Store, id: NsName, policy: Policy): Store {
    if cl.karmada then st.(policies := Upsert(st.policies, id, policy)) else st
  }

  function AfterBackup(st: Store, w: Want): Store {
    st.(backups := UpsertBackup(st.backups, w))
  }

  function AfterWants(cl: Clients, st: Store, ws: seq<Want>): Store {
    st.(backups := UpsertBackups(st.backups, ws),
        policies := if cl.karmada then UpsertPolicies(st.policies, ws) else st.policies)
  }

  lemma UpsertRun(key: NsName, cl: Clients, st: Store, id: NsName, policy: Policy, replies: seq<Reply>)
    ensures var r := Exec(key, cl, st, [UpsertPolicy(id, policy)], replies);
      && (r.status.Done? ==> r.store == AfterUpsert(cl, st, id, policy))
      && (r.store == st || r.store == AfterUpsert(cl, st, id, policy))
  {
    if !cl.karmada {
      ExecOne(key, cl, st, UpsertPolicy(id, policy), replies);
    } else {
      var merged := if id in st.policies then MergePolicy(policy, st.policies[id]) else policy;
      var next := if id in st.policies then PutPolicy(id, st.policies[id], merged) else CreatePolicy(id, merged);
      ReadRun(key, cl, st, UpsertPolicy(id, policy), [next], replies);
      WriteRun(key, cl, st, next, None, st.(policies := st.policies[id := merged]), [], Tail(replies));
    }
  }

  lemma BackupRun(key: NsName, cl: Clients, st: Store, w: Want, replies: seq<Reply>)
    ensures var r := Exec(key, cl, st, [GetBackup(w)], replies);
      && (r.status.Done? ==> r.store == AfterBackup(st, w))
      && (r.store == st || r.store == AfterBackup(st, w))
  {
    var next := if w.id in st.backups then PutBackup(w, st.backups[w.id]) else CreateBackup(w);
    ReadRun(key, cl, st, GetBackup(w), [next], replies);
    WriteRun(key, cl, st, next, None, AfterBackup(st, w), [], Tail(replies));
  }

  lemma AfterWantsOne(cl: Clients, st: Store, w: Want)
    ensures AfterWants(cl, st, [w]) == AfterUpsert(cl, AfterBackup(st, w), PolicyId(w.id), PolicyFor(w))
  {
    assert [w][1..] == [];
    assert UpsertBackups(st.backups, [w]) == UpsertBackup(st.backups, w);
    assert UpsertPolicies(st.policies, [w]) == Upsert(st.policies, PolicyId(w.id), PolicyFor(w));
  }

  lemma OneWantRun(key: NsName, cl: Clients, st: Store, w: Want, replies: seq<Reply>)
    ensures var r := Exec(key, cl, st, [GetBackup(w), UpsertPolicy(PolicyId(w.id), PolicyFor(w))], replies);
      var done := AfterWants(cl, st, [w]);
      && (r.status.Done? ==> r.store == done)
      && (r.store == st || r.store == AfterBackup(st, w) || r.store == done)
  {
    var id, policy := PolicyId(w.id), PolicyFor(w);
    assert [GetBackup(w), UpsertPolicy(id, policy)] == [GetBackup(w)] + [UpsertPolicy(id, policy)];
    AfterWantsOne(cl, st, w);
    ExecSplit(key, cl, st, [GetBackup(w)], [UpsertPolicy(id, policy)], replies);
    BackupRun(key, cl, st, w, replies);
    var r1 := Exec(key, cl, st, [GetBackup(w)], replies);
    UpsertRun(key, cl, r1.store, id, policy, r1.replies);
  }

  lemma AfterWantsConcat(cl: Clients, st: Store, a: seq<Want>, b: seq<Want>)
    ensures AfterWants(cl, AfterWants(cl, st, a), b) == AfterWants(cl, st, a + b)
  {
    UpsertsConcat(st.backups, a, b);
    PolicyUpsertsConcat(st.policies, a, b);
  }

  /** A cut-off loop has done its first `n` iterations, and perhaps the backup of the next one. */
  ghost predicate WantsCut(cl: Clients, st: Store, ws: seq<Want>, now: Store, n: nat) {
    n <= |ws| &&
    (now == AfterWants(cl, st, ws[..n]) ||
     (n < |ws| && now == AfterBackup(AfterWants(cl, st, ws[..n]), ws[n])))
  }

  lemma WantsCutCons(cl: Clients, st: Store, ws: seq<Want>, now: Store, n: nat)
    requires ws != [] && WantsCut(cl, AfterWants(cl, st, [ws[0]]), ws[1..], now, n)
    ensures WantsCut(cl, st, ws, now, n + 1)
    ensures AfterWants(cl, AfterWants(cl, st, [ws[0]]), ws[1..]) == AfterWants(cl, st, ws)
  {
    assert ws[..n + 1] == [ws[0]] + ws[1..][..n];
    assert ws == [ws[0]] + ws[1..];
    AfterWantsConcat(cl, st, [ws[0]], ws[1..][..n]);
    AfterWantsConcat(cl, st, [ws[0]], ws[1..]);
  }

  lemma WantsCutFirst(cl: Clients, st: Store, ws: seq<Want>, now: Store) returns (n: nat)
    requires ws != []
    requires now == st || now == AfterBackup(st, ws[0]) || now == AfterWants(cl, st, [ws[0]])
    ensures WantsCut(cl, st, ws, now, n)
  {
    assert ws[..0] == [] && ws[..1] == [ws[0]];
    n := if now == AfterWants(cl, st, [ws[0]]) then 1 else 0;
  }

  lemma {:induction false} WantsRun(key: NsName, cl: Clients, st: Store, ws: seq<Want>, replies: seq<Reply>)
    returns (n: nat)
    ensures var r := Exec(key, cl, st, WantTasks(ws), replies);
      WantsCut(cl, st, ws, r.store, n) && (r.status.Done? ==> r.store == AfterWants(cl, st, ws))
    decreases |ws|
  {
    n := 0;
    if ws != [] {
      var one := [GetBackup(ws[0]), UpsertPolicy(PolicyId(ws[0].id), PolicyFor(ws[0]))];
      ExecSplit(key, cl, st, one, WantTasks(ws[1..]), replies);
      OneWantRun(key, cl, st, ws[0], replies);
      var r1, done := Exec(key, cl, st, one, replies), AfterWants(cl, st, [ws[0]]);
      if r1.status.Done? {
        var m := WantsRun(key, cl, done, ws[1..], r1.replies);
        n := m + 1;
        WantsCutCons(cl, st, ws, Exec(key, cl, done, WantTasks(ws[1..]), r1.replies).store, m);
      } else {
        n := WantsCutFirst(cl, st, ws, r1.store);
      }
    }
  }

  // ----- CRDs -----

  function AfterCrds(cl: Clients, st: Store, clusters: seq<string>): Store {
    if cl.member then st.(crds := st.crds + ToSet(clusters)) else st
  }

  lemma OneCrdRun(key: NsName, cl: Clients, st: Store, cluster: string, replies: seq<Reply>)
    ensures var r := Exec(key, cl, st, [GetCRD(cluster)], replies);
      && (r.status.Done? ==> r.store == AfterCrds(cl, st, [cluster]))
      && (r.store == st || r.store == AfterCrds(cl, st, [cluster]))
  {
    assert ToSet([cluster]) == {cluster};
    ExecOne(key, cl, st, GetCRD(cluster), replies);
    if cl.member && replies != [] {
      var verdict := CreateVerdict(cluster in st.crds);
      WriteRun(key, cl, st, CreateCRD(cluster), verdict, st.(crds := st.crds + {cluster}), [], replies[1..]);
      assert cluster in st.crds ==> st.crds + {cluster} == st.crds;
    }
  }

  lemma {:induction false} CrdsRun(key: NsName, cl: Clients, st: Store, clusters: seq<string>, replies: seq<Reply>)
    returns (n: nat)
    ensures var r := Exec(key, cl, st, CrdTasks(clusters), replies);
      && n <= |clusters| && r.store == AfterCrds(cl, st, clusters[..n])
      && (r.status.Done? ==> r.store == AfterCrds(cl, st, clusters))
    decreases |clusters|
  {
    if clusters == [] {
      n := 0;
      assert ToSet(clusters) == {} && st.crds + {} == st.crds;
    } else {
      var c, rest := clusters[0], clusters[1..];
      ExecSplit(key, cl, st, [GetCRD(c)], CrdTasks(rest), replies);
      OneCrdRun(key, cl, st, c, replies);
      var r1 := Exec(key, cl, st, [GetCRD(c)], replies);
      if r1.status.Done? {
        var m := CrdsRun(key, cl, r1.store, rest, r1.replies);
        n := m + 1;
        assert ToSet(clusters[..n]) == {c} + ToSet(rest[..m]) by {
          assert clusters[..n] == [c] + rest[..m];
        }
        assert ToSet(clusters) == {c} + ToSet(rest) by {
          assert clusters == [c] + rest;
        }
        assert ToSet([c]) == {c};
      } else {
        n := if r1.store == st then 0 else 1;
        assert clusters[..0] == [] && clusters[..1] == [c];
        assert ToSet<string>([]) == {} && st.crds + {} == st.crds;
      }
    }
  }

  // ----- The shared namespace -----

  function AfterNamespace(st: Store): Store {
    st.(namespaces := st.namespaces + {MIGRATION_NAMESPACE})
  }

  function AfterNamespacePolicy(cl: Clients, st: Store, clusters: seq<string>): Store {
    if cl.karmada then st.(policies := WithNamespacePolicy(st.policies, clusters)) else st
  }

  lemma GetNamespaceRun(key: NsName, cl: Clients, st: Store, replies: seq<Reply>)
    ensures var r := Exec(key, cl, st, [GetNamespace], replies);
      && (r.status.Done? ==> r.store == AfterNamespace(st))
      && (r.store == st || r.store == AfterNamespace(st))
  {
    if MIGRATION_NAMESPACE in st.namespaces {
      ReadRun(key, cl, st, GetNamespace, [], replies);
      assert AfterNamespace(st) == st;
    } else {
      ReadRun(key, cl, st, GetNamespace, [CreateNamespace], replies);
      WriteRun(key, cl, st, CreateNamespace, None, AfterNamespace(st), [], Tail(replies));
    }
  }

  lemma NamespacePolicyRun(key: NsName, cl: Clients, st: Store, clusters: seq<string>, replies: seq<Reply>)
    ensures var r := Exec(key, cl, st, [GetNamespacePolicy(clusters)], replies);
      && (r.status.Done? ==> r.store == AfterNamespacePolicy(cl, st, clusters))
      && (r.store == st || r.store == AfterNamespacePolicy(cl, st, clusters))
  {
    if !cl.karmada {
      ExecOne(key, cl, st, GetNamespacePolicy(clusters), replies);
    } else if NAMESPACE_POLICY in st.policies {
      ReadRun(key, cl, st, GetNamespacePolicy(clusters), [], replies);
    } else {
      var next := UpsertPolicy(NAMESPACE_POLICY, NamespacePolicy(clusters));
      ReadRun(key, cl, st, GetNamespacePolicy(clusters), [next], replies);
      UpsertRun(key, cl, st, NAMESPACE_POLICY, NamespacePolicy(clusters), Tail(replies));
    }
  }

  lemma NamespaceRun(key: NsName, cl: Clients, st: Store, clusters: seq<string>, replies: seq<Reply>)
    ensures var r := Exec(key, cl, st, NamespaceTasks(clusters), replies);
      var half := AfterNamespace(st);
      var done := AfterNamespacePolicy(cl, half, clusters);
      (r.status.Done? ==> r.store == done) && (r.store == st || r.store == half || r.store == done)
  {
    assert NamespaceTasks(clusters) == [GetNamespace] + [GetNamespacePolicy(clusters)];
    ExecSplit(key, cl, st, [GetNamespace], [GetNamespacePolicy(clusters)], replies);
    GetNamespaceRun(key, cl, st, replies);
    var r1 := Exec(key, cl, st, [GetNamespace], replies);
    NamespacePolicyRun(key, cl, r1.store, clusters, r1.replies);
  }

  // ----- Clean-up -----

  function Without(st: Store, ids: set<NsName>): Store {
    st.(backups := st.backups - ids)
  }

  lemma WithoutTwice(st: Store, a: set<NsName>, b: set<NsName>)
    ensures Without(Without(st, a), b) == Without(st, a + b)
  {
    assert st.backups - a - b == st.backups - (a + b);
  }

  lemma OneDeleteRun(key: NsName, cl: Clients, st: Store, id: NsName, replies: seq<Reply>)
    ensures var r := Exec(key, cl, st, [DeleteBackup(id)], replies);
      && (r.store == st || r.store == Without(st, {id}))
      && (r.status.Done? ==> r.store == Without(st, {id}))
      && (r.status.Failed? ==> r.status.error == Unavailable)
  {
    WriteRun(key, cl, st, DeleteBackup(id), None, Without(st, {id}), [], replies);
  }

  lemma {:induction false} DeletesRun(key: NsName, cl: Clients, st: Store, ids: seq<NsName>, replies: seq<Reply>)
    returns (gone: set<NsName>)
    ensures var r := Exec(key, cl, st, DeleteTasks(ids), replies);
      && gone <= ToSet(ids) && r.store == Without(st, gone)
      && (r.status.Done? ==> gone == ToSet(ids))
      && (r.status.Failed? ==> r.status.error == Unavailable)
    decreases |ids|
  {
    gone := {};
    assert st.backups - {} == st.backups;
    if ids != [] {
      var id, rest := ids[0], ids[1..];
      assert DeleteTasks(ids) == [DeleteBackup(id)] + DeleteTasks(rest);
      assert ToSet(ids) == {id} + ToSet(rest) by { assert ids == [id] + rest; }
      ExecSplit(key, cl, st, [DeleteBackup(id)], DeleteTasks(rest), replies);
      OneDeleteRun(key, cl, st, id, replies);
      var r1 := Exec(key, cl, st, [DeleteBackup(id)], replies);
      if r1.status.Done? {
        var more := DeletesRun(key, cl, r1.store, rest, r1.replies);
        gone := {id} + more;
        WithoutTwice(st, {id}, more);
      } else if r1.store != st {
        gone := {id};
      }
    }
  }

  lemma {:induction false} OrphansInSet(bs: map<NsName, Backup>, live: set<string>, ids: seq<NsName>)
    ensures forall id :: id in OrphansIn(bs, live, ids) <==> id in ids && id in bs && Dead(live, bs[id])
  {
    if ids != [] {
      OrphansInSet(bs, live, ids[1..]);
      assert ids == [ids[0]] + ids[1..];
    }
  }

  lemma CleanupRun(key: NsName, cl: Clients, st: Store, live: set<string>, replies: seq<Reply>)
    returns (gone: set<NsName>)
    ensures var r := Exec(key, cl, st, [ListOrphans(live)], replies);
      && gone <= Orphans(key, live, st.backups) && r.store == Without(st, gone)
      && (r.status.Done? ==> gone == Orphans(key, live, st.backups))
  {
    ExecOne(key, cl, st, ListOrphans(live), replies);
    gone := {};
    assert st.backups - {} == st.backups;
    if replies != [] && replies[0].Answer? && Enumerates(replies[0].listing, Selected(key, st.backups)) {
      var ids := OrphansIn(st.backups, live, replies[0].listing);
      OrphansInSet(st.backups, live, replies[0].listing);
      assert ToSet(ids) == Orphans(key, live, st.backups);
      gone := DeletesRun(key, cl, st, ids, replies[1..]);
    }
  }

  // ----- The target label -----

  lemma LabelWorkloadRun(
    key: NsName, cl: Clients, st: Store, spec: MigrationSpec, kind: WorkloadKind, replies: seq<Reply>)
    requires KindOf(spec.resourceRef) == WorkloadTarget(kind)
    ensures var r := Exec(key, cl, st, [LabelTask(spec)], replies);
      && (r.status.Done? ==> r.store == Label(st, spec))
      && (r.store == st || r.store == Label(st, spec))
  {
    var id := WorkloadId(kind, RefId(spec.resourceRef));
    if id in st.workloads {
      var w := st.workloads[id];
      var put := PutWorkload(id, w, w.(labels := Labelled(w.labels)));
      ReadRun(key, cl, st, LabelTask(spec), [put], replies);
      WriteRun(key, cl, st, put, None, Label(st, spec), [], Tail(replies));
    } else {
      ExecOne(key, cl, st, LabelTask(spec), replies);
    }
  }

  lemma LabelPodRun(key: NsName, cl: Clients, st: Store, spec: MigrationSpec, replies: seq<Reply>)
    requires KindOf(spec.resourceRef).PodTarget?
    ensures var r := Exec(key, cl, st, [LabelTask(spec)], replies);
      && (r.status.Done? ==> r.store == Label(st, spec))
      && (r.store == st || r.store == Label(st, spec))
  {
    if cl.member && spec.sourceClusters != [] &&
       MemberPodId(spec.sourceClusters[0], RefId(spec.resourceRef)) in st.memberPods
    {
      var place := MemberPodId(spec.sourceClusters[0], RefId(spec.resourceRef));
      var pod := st.memberPods[place];
      var put := PutPod(place, pod, pod.(labels := Labelled(pod.labels)));
      ReadRun(key, cl, st, LabelTask(spec), [put], replies);
      WriteRun(key, cl, st, put, None, Label(st, spec), [], Tail(replies));
    } else {
      ExecOne(key, cl, st, LabelTask(spec), replies);
    }
  }

  lemma LabelRun(key: NsName, cl: Clients, st: Store, spec: MigrationSpec, replies: seq<Reply>)
    ensures var r := Exec(key, cl, st, [LabelTask(spec)], replies);
      && (r.status.Done? ==> r.store == Label(st, spec))
      && (r.store == st || r.store == Label(st, spec))
  {
    match KindOf(spec.resourceRef)
    case WorkloadTarget(kind) => LabelWorkloadRun(key, cl, st, spec, kind, replies);
    case PodTarget => LabelPodRun(key, cl, st, spec, replies);
    case Unsupported => ExecOne(key, cl, st, LabelTask(spec), replies);
  }

  lemma LabelTwice(st: Store, spec: MigrationSpec)
    ensures Label(Label(st, spec), spec) == Label(st, spec)
  {
    assert forall labels: Labels :: Labelled(Labelled(labels)) == Labelled(labels);
    var ws, ps := LabelWorkloads(st.workloads, spec), LabelPods(st.memberPods, spec);
    assert LabelWorkloads(ws, spec) == ws;
    assert LabelPods(ps, spec) == ps;
  }

  // ----- Discovery -----

  function Probe(memberPods: map<MemberPodId, Pod>, clusters: seq<string>, pod: NsName): seq<PodInfo> {
    if clusters == [] then []
    else (if MemberPodId(clusters[0], pod) in memberPods then [memberPods[MemberPodId(clusters[0], pod)].info] else [])
         + Probe(memberPods, clusters[1..], pod)
  }

  /** `pods` is a list of pods that a pass can discover: for a workload the pods it selects in any
      order, for a pod target the pod on each source cluster that has it, in cluster order. */
  ghost predicate Discovered(st: Store, spec: MigrationSpec, pods: seq<PodInfo>) {
    var ref := spec.resourceRef;
    match KindOf(ref)
    case WorkloadTarget(kind) =>
      var id := WorkloadId(kind, RefId(ref));
      && id in st.workloads && st.workloads[id].selector.Parsed?
      && exists listing :: ListedPods(st, ref.ns, st.workloads[id].selector, listing, pods)
    case PodTarget => pods == Probe(st.memberPods, spec.sourceClusters, RefId(ref))
    case Unsupported => false
  }

  ghost predicate ListedPods(st: Store, ns: string, selector: Selector, listing: seq<NsName>, pods: seq<PodInfo>) {
    Enumerates(listing, SelectedPods(st, ns, selector)) && pods == PodInfos(st.pods, listing)
  }

  lemma {:induction false} CollectRun(
    key: NsName, cl: Clients, st: Store, m: Migration, clusters: seq<string>, found: seq<PodInfo>, replies: seq<Reply>)
    returns (left: seq<Reply>)
    ensures var r := Exec(key, cl, st, Collect(key, m, clusters, found), replies);
      var pods := found + Probe(st.memberPods, clusters, RefId(m.spec.resourceRef));
      (r.status.Failed? && r.store == st) || r == Exec(key, cl, st, Body(key, m.spec, pods), left)
    decreases |clusters|
  {
    left := replies;
    var pod := RefId(m.spec.resourceRef);
    if clusters == [] {
      assert found + [] == found;
    } else {
      var t := FindPod(m, clusters[0], clusters[1..], found);
      if !cl.member {
        ExecOne(key, cl, st, t, replies);
      } else {
        var place := MemberPodId(clusters[0], pod);
        var now := if place in st.memberPods then found + [st.memberPods[place].info] else found;
        assert found + Probe(st.memberPods, clusters, pod) == now + Probe(st.memberPods, clusters[1..], pod);
        ReadRun(key, cl, st, t, Collect(key, m, clusters[1..], now), replies);
        left := CollectRun(key, cl, st, m, clusters[1..], now, Tail(replies));
      }
    }
  }

  lemma ListPodsRun(key: NsName, cl: Clients, st: Store, m: Migration, selector: Selector, replies: seq<Reply>)
    returns (pods: seq<PodInfo>, left: seq<Reply>)
    ensures var r := Exec(key, cl, st, [ListPods(m, selector)], replies);
      || (r.status.Failed? && r.store == st)
      || ((exists listing :: ListedPods(st, m.spec.resourceRef.ns, selector, listing, pods))
          && r == Exec(key, cl, st, Body(key, m.spec, pods), left))
  {
    ExecOne(key, cl, st, ListPods(m, selector), replies);
    pods, left := [], Tail(replies);
    var reply, ns := Head(replies), m.spec.resourceRef.ns;
    if reply.Answer? && Enumerates(reply.listing, SelectedPods(st, ns, selector)) {
      pods := PodInfos(st.pods, reply.listing);
      assert ListedPods(st, ns, selector, reply.listing, pods);
    }
  }

  lemma DiscoverRun(key: NsName, cl: Clients, st: Store, m: Migration, replies: seq<Reply>)
    returns (pods: seq<PodInfo>, left: seq<Reply>)
    ensures var r := Exec(key, cl, st, DiscoverTasks(key, m), replies);
      || (r.status.Failed? && r.store == st)
      || (Discovered(st, m.spec, pods) && r == Exec(key, cl, st, Body(key, m.spec, pods), left))
  {
    pods, left := [], replies;
    var ref := m.spec.resourceRef;
    match KindOf(ref)
    case WorkloadTarget(kind) =>
      var id := WorkloadId(kind, RefId(ref));
      if id in st.workloads && st.workloads[id].selector.Parsed? {
        var selector := st.workloads[id].selector;
        ReadRun(key, cl, st, FindWorkload(m, id), [ListPods(m, selector)], replies);
        pods, left := ListPodsRun(key, cl, st, m, selector, Tail(replies));
      } else {
        ExecOne(key, cl, st, FindWorkload(m, id), replies);
      }
    case PodTarget =>
      pods := Probe(st.memberPods, m.spec.sourceClusters, RefId(ref));
      left := CollectRun(key, cl, st, m, m.spec.sourceClusters, [], replies);
      assert [] + pods == pods;
    case Unsupported =>
      ExecOne(key, cl, st, RejectKind, replies);
  }
}
