/** What anybody can see of the backups and of their policies after a normal pass, name by name. */
module ObservedLoop {
  import opened Objects
  import opened Naming
  import opened Cluster
  import opened Machine
  import opened Effect
  import opened Passes
  import opened Iterations
  import opened Frames
  import opened Convergence
  import opened Exactness

  // ----- The places of the double loop -----

  /** The name of the backup for the `j`th pod on the `i`th source cluster. */
  ghost function NameAt(p: Plan, i: nat, j: nat): NsName
    requires i < |p.Clusters()| && j < |p.pods|
  {
    NsName(p.key.ns, p.key.name + "-" + p.pods[j].id.name + "-" + p.Clusters()[i])
  }

  ghost predicate ProducedAt(p: Plan, id: NsName, i: nat, j: nat) {
    i < |p.Clusters()| && j < |p.pods| && NameAt(p, i, j) == id
  }

  /** The loop over clusters is the outer one. */
  ghost predicate Later(i: nat, j: nat, i': nat, j': nat) {
    i < i' || (i == i' && j < j')
  }

  ghost predicate LastProducer(p: Plan, id: NsName, i: nat, j: nat) {
    ProducedAt(p, id, i, j) && forall i': nat, j': nat | ProducedAt(p, id, i', j') :: !Later(i, j, i', j')
  }

  ghost predicate FirstProducer(p: Plan, id: NsName, i: nat, j: nat) {
    ProducedAt(p, id, i, j) && forall i': nat, j': nat | ProducedAt(p, id, i', j') :: !Later(i', j', i, j)
  }

  function Place(p: Plan, i: nat, j: nat): nat {
    i * |p.pods| + j
  }

  /** The iteration for a cluster and a pod has this place in the list of iterations. */
  lemma {:induction false} WantAt(
    key: NsName, spec: MigrationSpec, pods: seq<PodInfo>, clusters: seq<string>, i: nat, j: nat)
    requires i < |clusters| && j < |pods|
    ensures var ws := Wants(key, spec, pods, clusters);
      i * |pods| + j < |ws| && ws[i * |pods| + j] == WantFor(key, spec, pods[j], clusters[i])
    decreases |clusters|
  {
    if i > 0 {
      WantAt(key, spec, pods, clusters[1..], i - 1, j);
      assert i * |pods| == (i - 1) * |pods| + |pods|;
    }
  }

  /** And every place belongs to one. */
  lemma {:induction false} PlaceOf(
    key: NsName, spec: MigrationSpec, pods: seq<PodInfo>, clusters: seq<string>, k: nat) returns (i: nat, j: nat)
    requires k < |Wants(key, spec, pods, clusters)|
    ensures i < |clusters| && j < |pods| && k == i * |pods| + j
    decreases |clusters|
  {
    if k < |pods| {
      i, j := 0, k;
    } else {
      i, j := PlaceOf(key, spec, pods, clusters[1..], k - |pods|);
      assert (i + 1) * |pods| == i * |pods| + |pods|;
      i := i + 1;
    }
  }

  lemma LaterPlace(n: nat, i: nat, j: nat, i': nat, j': nat)
    requires j < n && j' < n
    ensures Later(i, j, i', j') <==> i * n + j < i' * n + j'
  {
    if i < i' {
      assert (i + 1) * n <= i' * n;
    } else if i' < i {
      assert (i' + 1) * n <= i * n;
    }
  }

  lemma WantedAt(p: Plan, i: nat, j: nat)
    requires i < |p.Clusters()| && j < |p.pods|
    ensures Place(p, i, j) < |p.Wanted()|
    ensures var w := p.Wanted()[Place(p, i, j)];
      w == WantFor(p.key, p.migration.spec, p.pods[j], p.Clusters()[i]) && w.id == NameAt(p, i, j)
  {
    WantAt(p.key, p.migration.spec, p.pods, p.Clusters(), i, j);
  }

  lemma WantedIs(p: Plan, k: nat) returns (i: nat, j: nat)
    requires k < |p.Wanted()|
    ensures i < |p.Clusters()| && j < |p.pods| && k == Place(p, i, j) && p.Wanted()[k].id == NameAt(p, i, j)
  {
    i, j := PlaceOf(p.key, p.migration.spec, p.pods, p.Clusters(), k);
    WantedAt(p, i, j);
  }

  lemma LastProducerIsLast(p: Plan, id: NsName, i: nat, j: nat)
    requires LastProducer(p, id, i, j)
    ensures LastAt(p.Wanted(), id, Place(p, i, j))
  {
    WantedAt(p, i, j);
    forall k | Place(p, i, j) < k < |p.Wanted()| ensures p.Wanted()[k].id != id {
      var i', j' := WantedIs(p, k);
      LaterPlace(|p.pods|, i, j, i', j');
    }
  }

  lemma FirstProducerIsFirst(p: Plan, id: NsName, i: nat, j: nat)
    requires FirstProducer(p, id, i, j)
    ensures FirstAt(p.Wanted(), id, Place(p, i, j))
  {
    WantedAt(p, i, j);
    forall k | 0 <= k < Place(p, i, j) ensures p.Wanted()[k].id != id {
      var i', j' := WantedIs(p, k);
      LaterPlace(|p.pods|, i', j', i, j);
    }
  }

  /** Every name that is produced has a first and a last producer. */
  lemma ProducersExist(p: Plan, id: NsName, i: nat, j: nat) returns (i0: nat, j0: nat, i1: nat, j1: nat)
    requires ProducedAt(p, id, i, j)
    ensures FirstProducer(p, id, i0, j0) && LastProducer(p, id, i1, j1)
  {
    WantedAt(p, i, j);
    var first := FirstIndex(p.Wanted(), id);
    var last := LastIndex(p.Wanted(), id);
    i0, j0 := WantedIs(p, first);
    i1, j1 := WantedIs(p, last);
    forall i': nat, j': nat | ProducedAt(p, id, i', j') ensures !Later(i', j', i0, j0) && !Later(i1, j1, i', j') {
      WantedAt(p, i', j');
      LaterPlace(|p.pods|, i', j', i0, j0);
      LaterPlace(|p.pods|, i1, j1, i', j');
    }
  }

  lemma ProducedIffDesired(p: Plan, id: NsName)
    ensures id in Desired(p.Wanted()) <==> exists i: nat, j: nat :: ProducedAt(p, id, i, j)
  {
    DesiredNames(p.Wanted(), id);
    if Produces(p.Wanted(), id) {
      var k :| 0 <= k < |p.Wanted()| && p.Wanted()[k].id == id;
      var i, j := WantedIs(p, k);
      assert ProducedAt(p, id, i, j);
    }
    if i: nat, j: nat :| ProducedAt(p, id, i, j) {
      WantedAt(p, i, j);
    }
  }

  // ----- Backups -----

  /** A backup that is labelled with the migration but with no pod, or with one that is gone. */
  ghost predicate Forsaken(p: Plan, id: NsName, b: Backup) {
    && id.ns == p.key.ns && Find(b.labels, "stateful-migration") == Some(p.key.name)
    && forall pod | pod in p.pods :: Find(b.labels, "target-pod") != Some(pod.id.name)
  }

  lemma ForsakenIsOrphan(p: Plan, id: NsName, b: Backup)
    ensures Forsaken(p, id, b) <==> BelongsTo(p.key, id, b) && Dead(p.Live(), b)
  {
  }

  lemma MapsAfterNormalPass(p: Plan, st: Store, replies: seq<Reply>)
    requires Fits(p, st) && Exec(p.key, p.clients, st, [Fetch], replies).status.Done?
    ensures var now := Exec(p.key, p.clients, st, [Fetch], replies).store;
      now.backups == GoalBackups(p, st.backups) && now.policies == GoalPolicies(p, st.policies)
  {
    PassKeepsGoal(p, st, replies);
  }

  /** Which backups there are after a pass: the forsaken ones go, the others stay with their labels and
      their owner, and every name that the loop produces is there unless a forsaken backup had it. A
      name that the loop does not produce is not touched otherwise. */
  lemma BackupsAfterNormalPass(p: Plan, st: Store, replies: seq<Reply>, id: NsName)
    requires Fits(p, st) && Exec(p.key, p.clients, st, [Fetch], replies).status.Done?
    ensures var before, now := st.backups, Exec(p.key, p.clients, st, [Fetch], replies).store.backups;
      var produced := exists i: nat, j: nat :: ProducedAt(p, id, i, j);
      && (id in now <==> if id in before then !Forsaken(p, id, before[id]) else produced)
      && (id in before && id in now ==>
            now[id].labels == before[id].labels && now[id].owner == before[id].owner)
      && (id in before && id in now && !produced ==> now[id] == before[id])
  {
    MapsAfterNormalPass(p, st, replies);
    GoalPointwise(p, st.backups, id);
    ProducedIffDesired(p, id);
    assert Find(GoalBackups(p, st.backups), id).Some? <==> id in GoalBackups(p, st.backups);
    if id in st.backups {
      ForsakenIsOrphan(p, id, st.backups[id]);
    }
  }

  lemma SpecProduced(p: Plan, id: NsName, i: nat, j: nat)
    requires LastProducer(p, id, i, j)
    ensures id in Desired(p.Wanted()) && Describes(Desired(p.Wanted())[id].spec, p.migration.spec, p.pods[j])
  {
    LastProducerIsLast(p, id, i, j);
    WantedAt(p, i, j);
    var first := FirstIndex(p.Wanted(), id);
    DesiredExactly(p.Wanted(), id, first, Place(p, i, j));
  }

  /** A backup with a produced name describes the pod of the last iteration that produces the name. */
  lemma SpecAfterNormalPass(p: Plan, st: Store, replies: seq<Reply>, id: NsName, i: nat, j: nat)
    requires Fits(p, st) && Exec(p.key, p.clients, st, [Fetch], replies).status.Done?
    requires LastProducer(p, id, i, j)
    ensures var now := Exec(p.key, p.clients, st, [Fetch], replies).store;
      id in now.backups ==> Describes(now.backups[id].spec, p.migration.spec, p.pods[j])
  {
    MapsAfterNormalPass(p, st, replies);
    SpecProduced(p, id, i, j);
    GoalPointwise(p, st.backups, id);
    assert Find(GoalBackups(p, st.backups), id).Some? <==> id in GoalBackups(p, st.backups);
  }

  lemma LabelsProduced(p: Plan, id: NsName, i: nat, j: nat)
    requires FirstProducer(p, id, i, j)
    ensures id in Desired(p.Wanted())
    ensures var b := Desired(p.Wanted())[id];
      && b.owner == p.key
      && b.labels == map["stateful-migration" := p.key.name,
                         "target-cluster" := p.Clusters()[i], "target-pod" := p.pods[j].id.name]
  {
    FirstProducerIsFirst(p, id, i, j);
    WantedAt(p, i, j);
    var last := LastIndex(p.Wanted(), id);
    DesiredExactly(p.Wanted(), id, Place(p, i, j), last);
  }

  /** A new backup is owned by the migration and labelled by the first iteration that produces it. */
  lemma LabelsAfterNormalPass(p: Plan, st: Store, replies: seq<Reply>, id: NsName, i: nat, j: nat)
    requires Fits(p, st) && Exec(p.key, p.clients, st, [Fetch], replies).status.Done?
    requires FirstProducer(p, id, i, j) && id !in st.backups
    ensures var now := Exec(p.key, p.clients, st, [Fetch], replies).store;
      && id in now.backups && now.backups[id].owner == p.key
      && now.backups[id].labels == map["stateful-migration" := p.key.name,
                                       "target-cluster" := p.Clusters()[i], "target-pod" := p.pods[j].id.name]
  {
    MapsAfterNormalPass(p, st, replies);
    LabelsProduced(p, id, i, j);
    GoalPointwise(p, st.backups, id);
  }

  // ----- Policies of backups -----

  lemma PolicyProduced(p: Plan, id: NsName, i: nat, j: nat)
    requires LastProducer(p, id, i, j)
    ensures var pid, d := NsName(id.ns, id.name + "-policy"), DesiredPolicies(p.Wanted());
      && pid in d
      && d[pid] == Policy(map[], map[], ResourceSelector("migration.dcnlab.com/v1", "CheckpointBackup", id.name),
                          [p.Clusters()[i]])
  {
    LastProducerIsLast(p, id, i, j);
    WantedAt(p, i, j);
    DesiredPolicyExactly(p.Wanted(), id, Place(p, i, j));
  }

  /** With a client there is a policy under the name of the backup with `-policy` behind it: it selects
      this backup, places it on the cluster of the last iteration that produces the name, and has no
      labels but those that Karmada had put on a policy of this name, and no annotations. */
  lemma PolicyAfterNormalPass(p: Plan, st: Store, replies: seq<Reply>, id: NsName, i: nat, j: nat, k: string)
    requires Fits(p, st) && Exec(p.key, p.clients, st, [Fetch], replies).status.Done?
    requires LastProducer(p, id, i, j) && p.clients.karmada
    ensures var now, pid := Exec(p.key, p.clients, st, [Fetch], replies).store, NsName(id.ns, id.name + "-policy");
      var system := "propagationpolicy.karmada.io/" <= k || "karmada.io/" <= k;
      && pid in now.policies
      && now.policies[pid].selector == ResourceSelector("migration.dcnlab.com/v1", "CheckpointBackup", id.name)
      && now.policies[pid].clusters == [p.Clusters()[i]] && now.policies[pid].annotations == map[]
      && Find(now.policies[pid].labels, k)
         == if pid in st.policies && system then Find(st.policies[pid].labels, k) else None
  {
    MapsAfterNormalPass(p, st, replies);
    PolicyProduced(p, id, i, j);
    NamespacePolicyNotDesired(p.Wanted());
  }

  /** The name is not that of a policy for a backup that the loop produces. */
  ghost predicate NoPolicyOf(p: Plan, pid: NsName) {
    forall id: NsName, i: nat, j: nat | ProducedAt(p, id, i, j) :: pid != NsName(id.ns, id.name + "-policy")
  }

  lemma NoPolicyOfProduced(p: Plan, pid: NsName)
    requires NoPolicyOf(p, pid)
    ensures pid !in DesiredPolicies(p.Wanted())
  {
    if pid in DesiredPolicies(p.Wanted()) {
      DesiredPolicyNames(p.Wanted(), pid);
      var k :| 0 <= k < |p.Wanted()| && PolicyId(p.Wanted()[k].id) == pid;
      var i, j := WantedIs(p, k);
      assert ProducedAt(p, p.Wanted()[k].id, i, j);
    }
  }

  lemma GoalElsewhere(p: Plan, ps: map<NsName, Policy>, pid: NsName)
    requires pid !in DesiredPolicies(p.Wanted()) && pid != NAMESPACE_POLICY
    ensures Find(GoalPolicies(p, ps), pid) == Find(ps, pid)
  {
  }

  /** No other policy is touched but, if it was missing, that of the shared namespace. */
  lemma OtherPoliciesAfterNormalPass(p: Plan, st: Store, replies: seq<Reply>, pid: NsName)
    requires Fits(p, st) && Exec(p.key, p.clients, st, [Fetch], replies).status.Done?
    requires NoPolicyOf(p, pid) && pid != NsName("stateful-migration", "stateful-migration-propagation")
    ensures Find(Exec(p.key, p.clients, st, [Fetch], replies).store.policies, pid) == Find(st.policies, pid)
  {
    MapsAfterNormalPass(p, st, replies);
    NoPolicyOfProduced(p, pid);
    GoalElsewhere(p, st.policies, pid);
  }
}
