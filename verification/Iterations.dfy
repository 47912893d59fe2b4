/** The iterations of the nested loop when the order of the pods, which the server chooses, is left
    out of account. */
module Iterations {
  import opened Objects
  import opened Naming
  import opened Cluster
  import opened Machine
  import opened Effect
  import opened Passes

  // ----- Iterations as a set -----

  lemma {:induction false} WantsAsSet(
    key: NsName, spec: MigrationSpec, pods: seq<PodInfo>, clusters: seq<string>, w: Want)
    ensures w in Wants(key, spec, pods, clusters)
       <==> exists pod, c :: pod in pods && c in clusters && w == WantFor(key, spec, pod, c)
  {
    if clusters != [] {
      var on, rest := WantsOn(key, spec, pods, clusters[0]), clusters[1..];
      WantsAsSet(key, spec, pods, rest, w);
      if w in on {
        var i :| 0 <= i < |on| && on[i] == w;
        assert pods[i] in pods && clusters[0] in clusters;
      }
      if pod, c :| pod in pods && c in clusters && w == WantFor(key, spec, pod, c) {
        if c == clusters[0] {
          var i :| 0 <= i < |pods| && pods[i] == pod;
          assert on[i] == w;
        } else {
          assert c in rest;
        }
      }
    }
  }

  /** Different iterations produce different names. */
  ghost predicate Consistent(ws: seq<Want>) {
    forall v, w | v in ws && w in ws && v.id == w.id :: v == w
  }

  lemma ConsistentDesired(ws: seq<Want>, w: Want)
    requires Consistent(ws) && w in ws
    ensures w.id in Desired(ws) && Desired(ws)[w.id] == w.backup
    ensures PolicyId(w.id) in DesiredPolicies(ws) && DesiredPolicies(ws)[PolicyId(w.id)] == PolicyFor(w)
  {
    var k :| 0 <= k < |ws| && ws[k] == w;
    var first := FirstIndex(ws, w.id);
    var last := LastIndex(ws, w.id);
    DesiredExactly(ws, w.id, first, last);
    DesiredPolicyExactly(ws, w.id, last);
  }

  lemma FirstIndex(ws: seq<Want>, id: NsName) returns (i: nat)
    requires Produces(ws, id)
    ensures FirstAt(ws, id, i)
  {
    i := 0;
    while ws[i].id != id
      invariant i < |ws|
      invariant forall j | 0 <= j < i :: ws[j].id != id
      invariant exists k :: i <= k < |ws| && ws[k].id == id
      decreases |ws| - i
    {
      i := i + 1;
    }
  }

  /** Without collisions only the set of iterations matters, not their order or repetitions. */
  lemma SameSetSameDesired(vs: seq<Want>, ws: seq<Want>)
    requires Consistent(vs) && forall w :: w in vs <==> w in ws
    ensures Desired(vs) == Desired(ws) && DesiredPolicies(vs) == DesiredPolicies(ws)
  {
    assert Consistent(ws);
    forall id ensures id in Desired(vs) <==> id in Desired(ws) {
      DesiredNames(vs, id);
      DesiredNames(ws, id);
      ProducesByMember(vs, ws, id);
      ProducesByMember(ws, vs, id);
    }
    forall id | id in Desired(vs) ensures Desired(vs)[id] == Desired(ws)[id] {
      DesiredNames(vs, id);
      var i :| 0 <= i < |vs| && vs[i].id == id;
      ConsistentDesired(vs, vs[i]);
      ConsistentDesired(ws, vs[i]);
    }
    SamePolicies(vs, ws);
    SamePolicies(ws, vs);
  }

  lemma ProducesByMember(vs: seq<Want>, ws: seq<Want>, id: NsName)
    requires forall w | w in vs :: w in ws
    ensures Produces(vs, id) ==> Produces(ws, id)
  {
    if i :| 0 <= i < |vs| && vs[i].id == id {
      assert vs[i] in ws;
    }
  }

  lemma SamePolicies(vs: seq<Want>, ws: seq<Want>)
    requires Consistent(vs) && Consistent(ws) && forall w | w in vs :: w in ws
    ensures forall pid | pid in DesiredPolicies(vs) ::
      pid in DesiredPolicies(ws) && DesiredPolicies(vs)[pid] == DesiredPolicies(ws)[pid]
  {
    forall pid | pid in DesiredPolicies(vs)
      ensures pid in DesiredPolicies(ws) && DesiredPolicies(vs)[pid] == DesiredPolicies(ws)[pid]
    {
      DesiredPolicyNames(vs, pid);
      var i :| 0 <= i < |vs| && PolicyId(vs[i].id) == pid;
      ConsistentDesired(vs, vs[i]);
      ConsistentDesired(ws, vs[i]);
    }
  }

  /** The API server keys a pod by its own namespace and name. */
  ghost predicate KeyedPods(st: Store) {
    forall id | id in st.pods :: st.pods[id].info.id == id
  }

  /** Listed pods lie in one namespace and have different names. */
  ghost predicate OneNamespace(ns: string, pods: seq<PodInfo>) {
    && (forall pod | pod in pods :: pod.id.ns == ns)
    && (forall a, b | a in pods && b in pods && a.id == b.id :: a == b)
  }

  lemma ListedIsOneNamespace(st: Store, ns: string, selector: Selector, listing: seq<NsName>, pods: seq<PodInfo>)
    requires KeyedPods(st) && ListedPods(st, ns, selector, listing, pods)
    ensures OneNamespace(ns, pods)
    ensures forall pod :: pod in pods <==> pod.id in SelectedPods(st, ns, selector) && st.pods[pod.id].info == pod
  {
    forall pod ensures pod in pods <==> pod.id in SelectedPods(st, ns, selector) && st.pods[pod.id].info == pod {
      if pod in pods {
        var i :| 0 <= i < |pods| && pods[i] == pod;
        assert listing[i] in SelectedPods(st, ns, selector);
      }
      if pod.id in SelectedPods(st, ns, selector) && st.pods[pod.id].info == pod {
        assert pod.id in listing;
        var i :| 0 <= i < |listing| && listing[i] == pod.id;
        assert pods[i] == pod;
      }
    }
  }

  lemma InjectiveConsistent(p: Plan, ns: string)
    requires OneNamespace(ns, p.pods)
    requires Injective(p.key.name, p.Live(), ToSet(p.Clusters()))
    ensures Consistent(p.Wanted())
  {
    var ws := p.Wanted();
    forall v, w | v in ws && w in ws && v.id == w.id ensures v == w {
      WantsAsSet(p.key, p.migration.spec, p.pods, p.Clusters(), v);
      WantsAsSet(p.key, p.migration.spec, p.pods, p.Clusters(), w);
      var pod, c :| pod in p.pods && c in p.Clusters() && v == WantFor(p.key, p.migration.spec, pod, c);
      var pod', c' :| pod' in p.pods && c' in p.Clusters() && w == WantFor(p.key, p.migration.spec, pod', c');
      assert pod.id.name in p.Live() && pod'.id.name in p.Live();
      assert pod.id.name == pod'.id.name && c == c';
      assert pod.id == pod'.id;
    }
  }

  // ----- The order of the pods -----

  lemma NoDashSuffixOfItself(c: string)
    ensures !DashSuffix(c, c)
  {
    forall x: string ensures c != x + "-" + c {
      assert |x + "-" + c| == |x| + 1 + |c|;
    }
  }

  lemma SameClusterSameName(migration: string, pod: string, pod': string, c: string)
    requires BackupName(migration, pod, c) == BackupName(migration, pod', c)
    ensures pod == pod'
  {
    SameMigrationCollision(migration, pod, c, pod', c);
    NoDashSuffixOfItself(c);
  }

  /** Names collide across clusters only, never between the iterations for one cluster. */
  lemma OneClusterConsistent(key: NsName, spec: MigrationSpec, ns: string, pods: seq<PodInfo>, c: string)
    requires OneNamespace(ns, pods)
    ensures Consistent(WantsOn(key, spec, pods, c))
  {
    var ws := WantsOn(key, spec, pods, c);
    forall v, w | v in ws && w in ws && v.id == w.id ensures v == w {
      var i :| 0 <= i < |ws| && ws[i] == v;
      var j :| 0 <= j < |ws| && ws[j] == w;
      SameClusterSameName(key.name, pods[i].id.name, pods[j].id.name, c);
      assert pods[i].id == pods[j].id;
    }
  }

  ghost predicate SamePods(pods: seq<PodInfo>, others: seq<PodInfo>) {
    forall pod :: pod in pods <==> pod in others
  }

  lemma OneClusterAnyOrder(
    key: NsName, spec: MigrationSpec, ns: string, pods: seq<PodInfo>, others: seq<PodInfo>, c: string)
    requires OneNamespace(ns, pods) && SamePods(pods, others)
    ensures Desired(WantsOn(key, spec, pods, c)) == Desired(WantsOn(key, spec, others, c))
    ensures DesiredPolicies(WantsOn(key, spec, pods, c)) == DesiredPolicies(WantsOn(key, spec, others, c))
  {
    var vs, ws := WantsOn(key, spec, pods, c), WantsOn(key, spec, others, c);
    OneClusterConsistent(key, spec, ns, pods, c);
    SubsetOfIterations(key, spec, pods, others, c);
    SubsetOfIterations(key, spec, others, pods, c);
    SameSetSameDesired(vs, ws);
  }

  lemma SubsetOfIterations(key: NsName, spec: MigrationSpec, pods: seq<PodInfo>, others: seq<PodInfo>, c: string)
    requires forall pod | pod in pods :: pod in others
    ensures forall w | w in WantsOn(key, spec, pods, c) :: w in WantsOn(key, spec, others, c)
  {
    var vs, ws := WantsOn(key, spec, pods, c), WantsOn(key, spec, others, c);
    forall w | w in vs ensures w in ws {
      var i :| 0 <= i < |vs| && vs[i] == w;
      assert pods[i] in others;
      var j :| 0 <= j < |others| && others[j] == pods[i];
      assert ws[j] == w;
    }
  }

  /** However the pods are ordered, the loops have the same effect: which iteration comes first or last
      for a name depends on the order of the clusters alone, whatever collides. */
  lemma {:induction false} AnyOrderSameBackups(
    key: NsName, spec: MigrationSpec, ns: string, pods: seq<PodInfo>, others: seq<PodInfo>, clusters: seq<string>,
    bs: map<NsName, Backup>)
    requires OneNamespace(ns, pods) && SamePods(pods, others)
    ensures UpsertBackups(bs, Wants(key, spec, pods, clusters)) == UpsertBackups(bs, Wants(key, spec, others, clusters))
    decreases |clusters|
  {
    if clusters != [] {
      var vs, ws := WantsOn(key, spec, pods, clusters[0]), WantsOn(key, spec, others, clusters[0]);
      OneClusterAnyOrder(key, spec, ns, pods, others, clusters[0]);
      UpsertsAreOverlay(bs, vs);
      UpsertsAreOverlay(bs, ws);
      UpsertsConcat(bs, vs, Wants(key, spec, pods, clusters[1..]));
      UpsertsConcat(bs, ws, Wants(key, spec, others, clusters[1..]));
      AnyOrderSameBackups(key, spec, ns, pods, others, clusters[1..], UpsertBackups(bs, vs));
    }
  }

  lemma {:induction false} AnyOrderSamePolicies(
    key: NsName, spec: MigrationSpec, ns: string, pods: seq<PodInfo>, others: seq<PodInfo>, clusters: seq<string>,
    ps: map<NsName, Policy>)
    requires OneNamespace(ns, pods) && SamePods(pods, others)
    ensures UpsertPolicies(ps, Wants(key, spec, pods, clusters))
         == UpsertPolicies(ps, Wants(key, spec, others, clusters))
    decreases |clusters|
  {
    if clusters != [] {
      var vs, ws := WantsOn(key, spec, pods, clusters[0]), WantsOn(key, spec, others, clusters[0]);
      OneClusterAnyOrder(key, spec, ns, pods, others, clusters[0]);
      PolicyUpsertsAreOverlay(ps, vs);
      PolicyUpsertsAreOverlay(ps, ws);
      PolicyUpsertsConcat(ps, vs, Wants(key, spec, pods, clusters[1..]));
      PolicyUpsertsConcat(ps, ws, Wants(key, spec, others, clusters[1..]));
      AnyOrderSamePolicies(key, spec, ns, pods, others, clusters[1..], UpsertPolicies(ps, vs));
    }
  }

  /** With other pods the plan is for the same objects. */
  ghost predicate SameWants(p: Plan, pods: seq<PodInfo>) {
    var q := p.(pods := pods);
    && Desired(q.Wanted()) == Desired(p.Wanted())
    && DesiredPolicies(q.Wanted()) == DesiredPolicies(p.Wanted())
    && q.Live() == p.Live()
  }

  /** Whatever discovery can yield, the plan is for the same objects: for a workload the server lists
      the pods in any order, and for a pod target there is one order only. */
  lemma AnyDiscovery(p: Plan, st: Store, pods: seq<PodInfo>)
    requires KeyedPods(st)
    requires Discovered(st, p.migration.spec, p.pods) && Discovered(st, p.migration.spec, pods)
    ensures SameWants(p, pods)
  {
    var spec := p.migration.spec;
    match KindOf(spec.resourceRef)
    case WorkloadTarget(kind) =>
      var ns := spec.resourceRef.ns;
      var selector := st.workloads[WorkloadId(kind, RefId(spec.resourceRef))].selector;
      var listing :| ListedPods(st, ns, selector, listing, p.pods);
      var other :| ListedPods(st, ns, selector, other, pods);
      ListedIsOneNamespace(st, ns, selector, listing, p.pods);
      ListedIsOneNamespace(st, ns, selector, other, pods);
      assert SamePods(p.pods, pods);
      AnyOrderSameBackups(p.key, spec, ns, p.pods, pods, p.Clusters(), map[]);
      AnyOrderSamePolicies(p.key, spec, ns, p.pods, pods, p.Clusters(), map[]);
      assert PodNames(pods) == PodNames(p.pods);
    case PodTarget =>
    case Unsupported =>
  }
}
