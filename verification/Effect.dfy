/** What a completed normal pass makes of the cluster, as a function of the cluster alone. */
module Effect {
  import opened Objects
  import opened Naming
  import opened Cluster
  import opened Machine

  // ----- Backups -----

  /** One iteration of the loop: an existing backup keeps everything but its spec. */
  function UpsertBackup(bs: map<NsName, Backup>, w: Want): map<NsName, Backup> {
    bs[w.id := if w.id in bs then bs[w.id].(spec := w.backup.spec) else w.backup]
  }

  function UpsertBackups(bs: map<NsName, Backup>, ws: seq<Want>): map<NsName, Backup>
    decreases |ws|
  {
    if ws == [] then bs else UpsertBackups(UpsertBackup(bs, ws[0]), ws[1..])
  }

  /** The backups that the iterations produce in an empty cluster. */
  function Desired(ws: seq<Want>): map<NsName, Backup> {
    UpsertBackups(map[], ws)
  }

  /** `bs` with the desired specs, and with the desired backups that were missing. */
  function Overlay(desired: map<NsName, Backup>, bs: map<NsName, Backup>): map<NsName, Backup> {
    map id | id in bs.Keys + desired.Keys ::
      if id !in desired then bs[id] else if id in bs then bs[id].(spec := desired[id].spec) else desired[id]
  }

  lemma OverlayStep(later: map<NsName, Backup>, w: Want, bs: map<NsName, Backup>)
    ensures Overlay(later, UpsertBackup(bs, w)) == Overlay(Overlay(later, UpsertBackup(map[], w)), bs)
  {
  }

  /** Whatever the iterations, their joint effect is an overlay of what they desire. */
  lemma {:induction false} UpsertsAreOverlay(bs: map<NsName, Backup>, ws: seq<Want>)
    ensures UpsertBackups(bs, ws) == Overlay(Desired(ws), bs)
    decreases |ws|
  {
    if ws != [] {
      UpsertsAreOverlay(UpsertBackup(bs, ws[0]), ws[1..]);
      UpsertsAreOverlay(UpsertBackup(map[], ws[0]), ws[1..]);
      OverlayStep(Desired(ws[1..]), ws[0], bs);
    }
  }

  lemma {:induction false} UpsertsConcat(bs: map<NsName, Backup>, a: seq<Want>, b: seq<Want>)
    ensures UpsertBackups(bs, a + b) == UpsertBackups(UpsertBackups(bs, a), b)
    decreases |a|
  {
    if a == [] {
      assert a + b == b;
    } else {
      assert (a + b)[1..] == a[1..] + b;
      UpsertsConcat(UpsertBackup(bs, a[0]), a[1..], b);
    }
  }

  /** An earlier overlay whose specs are replaced anyway makes no difference. */
  lemma OverlayAbsorbs(d: map<NsName, Backup>, first: map<NsName, Backup>, bs: map<NsName, Backup>)
    requires forall id | id in first :: id in d && d[id] == first[id].(spec := d[id].spec)
    ensures Overlay(d, Overlay(first, bs)) == Overlay(d, bs)
  {
  }

  /** Doing some of the iterations first does not change what doing all of them leads to. */
  lemma OverlayAfterPrefix(bs: map<NsName, Backup>, a: seq<Want>, b: seq<Want>)
    ensures Overlay(Desired(a + b), UpsertBackups(bs, a)) == Overlay(Desired(a + b), bs)
  {
    UpsertsAreOverlay(bs, a);
    UpsertsConcat(map[], a, b);
    UpsertsAreOverlay(Desired(a), b);
    OverlayAbsorbs(Desired(a + b), Desired(a), bs);
  }

  /** The backup that a cut-off loop may already have written belongs to one more iteration. */
  lemma HalfIteration(bs: map<NsName, Backup>, ws: seq<Want>, n: nat)
    requires n < |ws|
    ensures UpsertBackups(bs, ws[..n + 1]) == UpsertBackup(UpsertBackups(bs, ws[..n]), ws[n])
  {
    assert ws[..n + 1] == ws[..n] + [ws[n]];
    UpsertsConcat(bs, ws[..n], [ws[n]]);
    assert [ws[n]][1..] == [];
  }

  ghost predicate FirstAt(ws: seq<Want>, id: NsName, i: nat) {
    i < |ws| && ws[i].id == id && forall j | 0 <= j < i :: ws[j].id != id
  }

  ghost predicate LastAt(ws: seq<Want>, id: NsName, i: nat) {
    i < |ws| && ws[i].id == id && forall j | i < j < |ws| :: ws[j].id != id
  }

  ghost predicate Produces(ws: seq<Want>, id: NsName) {
    exists i :: 0 <= i < |ws| && ws[i].id == id
  }

  lemma DesiredSnoc(ws: seq<Want>)
    requires ws != []
    ensures Desired(ws) == UpsertBackup(Desired(ws[..|ws| - 1]), ws[|ws| - 1])
  {
    var n := |ws| - 1;
    assert ws == ws[..n] + [ws[n]];
    UpsertsConcat(map[], ws[..n], [ws[n]]);
    assert [ws[n]][1..] == [];
  }

  lemma {:induction false} DesiredNames(ws: seq<Want>, id: NsName)
    ensures id in Desired(ws) <==> Produces(ws, id)
    decreases |ws|
  {
    if ws != [] {
      var n := |ws| - 1;
      DesiredSnoc(ws);
      DesiredNames(ws[..n], id);
      if Produces(ws[..n], id) {
        var i :| 0 <= i < n && ws[..n][i].id == id;
        assert ws[i].id == id;
      }
      if i :| 0 <= i < |ws| && ws[i].id == id {
        assert i == n || ws[..n][i].id == id;
      }
    }
  }

  /** The desired backup at a name has the labels and owner of the first iteration that produces the
      name and the spec of the last one, whatever collides in between. */
  lemma {:induction false} DesiredExactly(ws: seq<Want>, id: NsName, i: nat, j: nat)
    requires FirstAt(ws, id, i) && LastAt(ws, id, j)
    ensures id in Desired(ws) && Desired(ws)[id] == ws[i].backup.(spec := ws[j].backup.spec)
    decreases |ws|
  {
    var n := |ws| - 1;
    var front, w := ws[..n], ws[n];
    DesiredSnoc(ws);
    if j < n {
      assert FirstAt(front, id, i) && LastAt(front, id, j);
      DesiredExactly(front, id, i, j);
    } else if i < n {
      assert FirstAt(front, id, i);
      var last := LastIndex(front, id);
      DesiredExactly(front, id, i, last);
    } else {
      DesiredNames(front, id);
      assert !Produces(front, id);
    }
  }

  lemma LastIndex(ws: seq<Want>, id: NsName) returns (i: nat)
    requires Produces(ws, id)
    ensures LastAt(ws, id, i)
  {
    i := |ws| - 1;
    while ws[i].id != id
      invariant 0 <= i < |ws|
      invariant forall j | i < j < |ws| :: ws[j].id != id
      decreases i
    {
      i := i - 1;
    }
  }

  /** The m-backups that the clean-up of a pass deletes. */
  function Orphans(key: NsName, live: set<string>, bs: map<NsName, Backup>): (ids: set<NsName>)
    ensures ids <= bs.Keys
  {
    set id | id in Selected(key, bs) && Dead(live, bs[id])
  }

  function Cleaned(key: NsName, live: set<string>, bs: map<NsName, Backup>): map<NsName, Backup> {
    bs - Orphans(key, live, bs)
  }

  // ----- Policies -----

  function Upsert(ps: map<NsName, Policy>, id: NsName, policy: Policy): map<NsName, Policy> {
    ps[id := if id in ps then MergePolicy(policy, ps[id]) else policy]
  }

  function UpsertPolicies(ps: map<NsName, Policy>, ws: seq<Want>): map<NsName, Policy>
    decreases |ws|
  {
    if ws == [] then ps else UpsertPolicies(Upsert(ps, PolicyId(ws[0].id), PolicyFor(ws[0])), ws[1..])
  }

  function DesiredPolicies(ws: seq<Want>): map<NsName, Policy> {
    UpsertPolicies(map[], ws)
  }

  function OverlayPolicies(desired: map<NsName, Policy>, ps: map<NsName, Policy>): map<NsName, Policy> {
    map id | id in ps.Keys + desired.Keys ::
      if id !in desired then ps[id] else if id in ps then MergePolicy(desired[id], ps[id]) else desired[id]
  }

  lemma {:induction false} DesiredPoliciesUnlabelled(ps: map<NsName, Policy>, ws: seq<Want>)
    requires forall id | id in ps :: ps[id].labels == map[]
    ensures forall id | id in UpsertPolicies(ps, ws) :: UpsertPolicies(ps, ws)[id].labels == map[]
    decreases |ws|
  {
    if ws != [] {
      DesiredPoliciesUnlabelled(Upsert(ps, PolicyId(ws[0].id), PolicyFor(ws[0])), ws[1..]);
    }
  }

  lemma MergeTwice(p: Policy, q: Policy, existing: Policy)
    requires q.labels == map[]
    ensures MergePolicy(p, MergePolicy(q, existing)) == MergePolicy(p, existing)
  {
    assert SystemLabels(SystemLabels(existing.labels)) == SystemLabels(existing.labels);
    assert map[] + SystemLabels(existing.labels) == SystemLabels(existing.labels);
  }

  lemma OverlayPoliciesStep(later: map<NsName, Policy>, id: NsName, policy: Policy, ps: map<NsName, Policy>)
    requires policy.labels == map[]
    ensures OverlayPolicies(later, Upsert(ps, id, policy))
         == OverlayPolicies(OverlayPolicies(later, Upsert(map[], id, policy)), ps)
  {
    var l, r := OverlayPolicies(later, Upsert(ps, id, policy)),
                OverlayPolicies(OverlayPolicies(later, Upsert(map[], id, policy)), ps);
    assert l.Keys == r.Keys;
    forall x | x in l ensures l[x] == r[x] {
      if x == id && id in later {
        assert MergePolicy(later[id], policy) == later[id].(labels := later[id].labels + map[]);
        assert later[id].labels + map[] == later[id].labels;
        if id in ps {
          MergeTwice(later[id], policy, ps[id]);
        }
      }
    }
  }

  lemma {:induction false} PolicyUpsertsAreOverlay(ps: map<NsName, Policy>, ws: seq<Want>)
    ensures UpsertPolicies(ps, ws) == OverlayPolicies(DesiredPolicies(ws), ps)
    decreases |ws|
  {
    if ws != [] {
      var id, policy := PolicyId(ws[0].id), PolicyFor(ws[0]);
      PolicyUpsertsAreOverlay(Upsert(ps, id, policy), ws[1..]);
      PolicyUpsertsAreOverlay(Upsert(map[], id, policy), ws[1..]);
      OverlayPoliciesStep(DesiredPolicies(ws[1..]), id, policy, ps);
    }
  }

  lemma {:induction false} PolicyUpsertsConcat(ps: map<NsName, Policy>, a: seq<Want>, b: seq<Want>)
    ensures UpsertPolicies(ps, a + b) == UpsertPolicies(UpsertPolicies(ps, a), b)
    decreases |a|
  {
    if a == [] {
      assert a + b == b;
    } else {
      assert (a + b)[1..] == a[1..] + b;
      PolicyUpsertsConcat(Upsert(ps, PolicyId(a[0].id), PolicyFor(a[0])), a[1..], b);
    }
  }

  lemma MergeIntoUnlabelled(policy: Policy, existing: Policy)
    requires existing.labels == map[]
    ensures MergePolicy(policy, existing) == policy
  {
    assert SystemLabels(map[]) == map[];
    assert policy.labels + map[] == policy.labels;
  }

  lemma OverlayPoliciesAbsorbs(d: map<NsName, Policy>, first: map<NsName, Policy>, ps: map<NsName, Policy>)
    requires first.Keys <= d.Keys && forall id | id in first :: first[id].labels == map[]
    ensures OverlayPolicies(d, OverlayPolicies(first, ps)) == OverlayPolicies(d, ps)
  {
    var l, r := OverlayPolicies(d, OverlayPolicies(first, ps)), OverlayPolicies(d, ps);
    assert l.Keys == r.Keys;
    forall id | id in l ensures l[id] == r[id] {
      if id in first {
        if id in ps {
          MergeTwice(d[id], first[id], ps[id]);
        } else {
          MergeIntoUnlabelled(d[id], first[id]);
        }
      }
    }
  }

  lemma OverlayPoliciesAfterPrefix(ps: map<NsName, Policy>, a: seq<Want>, b: seq<Want>)
    ensures OverlayPolicies(DesiredPolicies(a + b), UpsertPolicies(ps, a))
         == OverlayPolicies(DesiredPolicies(a + b), ps)
  {
    PolicyUpsertsAreOverlay(ps, a);
    PolicyUpsertsConcat(map[], a, b);
    PolicyUpsertsAreOverlay(DesiredPolicies(a), b);
    DesiredPoliciesUnlabelled(map[], a);
    OverlayPoliciesAbsorbs(DesiredPolicies(a + b), DesiredPolicies(a), ps);
  }

  lemma PoliciesSnoc(ws: seq<Want>)
    requires ws != []
    ensures var w := ws[|ws| - 1]; var d := DesiredPolicies(ws[..|ws| - 1]);
      DesiredPolicies(ws) == d[PolicyId(w.id) := PolicyFor(w)]
  {
    var n := |ws| - 1;
    var d, id := DesiredPolicies(ws[..n]), PolicyId(ws[n].id);
    assert ws == ws[..n] + [ws[n]];
    PolicyUpsertsConcat(map[], ws[..n], [ws[n]]);
    assert [ws[n]][1..] == [];
    DesiredPoliciesUnlabelled(map[], ws[..n]);
    if id in d {
      assert SystemLabels(d[id].labels) == map[];
      assert MergePolicy(PolicyFor(ws[n]), d[id]) == PolicyFor(ws[n]);
    }
  }

  /** The policy of a name is the one of the last iteration that produces the name. */
  lemma {:induction false} DesiredPolicyExactly(ws: seq<Want>, id: NsName, j: nat)
    requires LastAt(ws, id, j)
    ensures PolicyId(id) in DesiredPolicies(ws) && DesiredPolicies(ws)[PolicyId(id)] == PolicyFor(ws[j])
    decreases |ws|
  {
    var n := |ws| - 1;
    PoliciesSnoc(ws);
    if j < n {
      assert LastAt(ws[..n], id, j);
      DesiredPolicyExactly(ws[..n], id, j);
      if PolicyId(ws[n].id) == PolicyId(id) {
        PolicyNameInjective(ws[n].id.name, id.name);
      }
    }
  }

  lemma {:induction false} DesiredPolicyNames(ws: seq<Want>, pid: NsName)
    requires pid in DesiredPolicies(ws)
    ensures exists i :: 0 <= i < |ws| && PolicyId(ws[i].id) == pid
    decreases |ws|
  {
    if ws != [] {
      var n := |ws| - 1;
      PoliciesSnoc(ws);
      if PolicyId(ws[n].id) != pid {
        DesiredPolicyNames(ws[..n], pid);
        var i :| 0 <= i < n && PolicyId(ws[..n][i].id) == pid;
        assert PolicyId(ws[i].id) == pid;
      }
    }
  }

  lemma NamespacePolicyNotDesired(ws: seq<Want>)
    ensures NAMESPACE_POLICY !in DesiredPolicies(ws)
  {
    if NAMESPACE_POLICY in DesiredPolicies(ws) {
      DesiredPolicyNames(ws, NAMESPACE_POLICY);
      var i :| 0 <= i < |ws| && PolicyId(ws[i].id) == NAMESPACE_POLICY;
      NamespacePolicyIsNoBackupPolicy(ws[i].id.name);
    }
  }

  // ----- The whole store -----

  function LabelWorkloads(ws: map<WorkloadId, Workload>, spec: MigrationSpec): map<WorkloadId, Workload> {
    var kind := KindOf(spec.resourceRef);
    if kind.WorkloadTarget? && WorkloadId(kind.kind, RefId(spec.resourceRef)) in ws then
      var id := WorkloadId(kind.kind, RefId(spec.resourceRef));
      ws[id := ws[id].(labels := Labelled(ws[id].labels))]
    else ws
  }

  function LabelPods(ps: map<MemberPodId, Pod>, spec: MigrationSpec): map<MemberPodId, Pod> {
    if KindOf(spec.resourceRef).PodTarget? && spec.sourceClusters != [] &&
       MemberPodId(spec.sourceClusters[0], RefId(spec.resourceRef)) in ps then
      var place := MemberPodId(spec.sourceClusters[0], RefId(spec.resourceRef));
      ps[place := ps[place].(labels := Labelled(ps[place].labels))]
    else ps
  }

  /** The target of the migration carries the migration label, when it exists. */
  function Label(st: Store, spec: MigrationSpec): Store {
    st.(workloads := LabelWorkloads(st.workloads, spec), memberPods := LabelPods(st.memberPods, spec))
  }

  function WithNamespacePolicy(ps: map<NsName, Policy>, clusters: seq<string>): map<NsName, Policy> {
    if NAMESPACE_POLICY in ps then ps else ps[NAMESPACE_POLICY := NamespacePolicy(clusters)]
  }

  /** A normal pass over `key` with the pods it discovers. */
  datatype Plan = Plan(key: NsName, clients: Clients, migration: Migration, pods: seq<PodInfo>)
  {
    function Clusters(): seq<string> { migration.spec.sourceClusters }
    function Wanted(): seq<Want> { Wants(key, migration.spec, pods, Clusters()) }
    function Live(): set<string> { PodNames(pods) }
  }

  function GoalBackups(p: Plan, bs: map<NsName, Backup>): map<NsName, Backup> {
    Cleaned(p.key, p.Live(), Overlay(Desired(p.Wanted()), bs))
  }

  function GoalPolicies(p: Plan, ps: map<NsName, Policy>): map<NsName, Policy> {
    if p.clients.karmada
    then OverlayPolicies(DesiredPolicies(p.Wanted()), WithNamespacePolicy(ps, p.Clusters()))
    else ps
  }

  function GoalCrds(p: Plan, crds: set<string>): set<string> {
    if p.clients.member then crds + ToSet(p.Clusters()) else crds
  }

  /** The cluster that the pass is driving towards. */
  function Goal(p: Plan, st: Store): Store {
    Store(st.migrations[p.key := p.migration],
          LabelWorkloads(st.workloads, p.migration.spec),
          st.pods,
          LabelPods(st.memberPods, p.migration.spec),
          st.namespaces + {MIGRATION_NAMESPACE},
          GoalCrds(p, st.crds),
          GoalBackups(p, st.backups),
          GoalPolicies(p, st.policies))
  }
}
