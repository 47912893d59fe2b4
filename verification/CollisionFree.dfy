/** What follows for a user who keeps to one naming rule that can be checked beforehand: no cluster
    name ends in a dash followed by another one. */
module CollisionFree {
  import opened Objects
  import opened Naming
  import opened Cluster
  import opened Machine
  import opened Effect
  import opened Passes
  import opened Iterations
  import opened Convergence
  import opened Exactness
  import opened Safety
  import opened Repair

  ghost predicate DashFree(clusters: set<string>) {
    forall c, c' | c in clusters && c' in clusters :: !DashSuffix(c, c')
  }

  /** The clusters that the backups of the migration are labelled with. */
  ghost function LabelledClusters(key: NsName, bs: map<NsName, Backup>): set<string> {
    set id | id in Selected(key, bs) && BACKUP_CLUSTER in bs[id].labels :: bs[id].labels[BACKUP_CLUSTER]
  }

  /** The rule, for the source clusters of today and those that backups remain from. */
  ghost predicate Rule(p: Plan, bs: map<NsName, Backup>) {
    DashFree(ToSet(p.Clusters()) + LabelledClusters(p.key, bs))
  }

  /** In a cluster that the controller can have produced, the rule excludes that the clean-up deletes
      what the same pass wants. */
  lemma RuleMakesStable(p: Plan, st: Store)
    requires NoLeak(st) && Rule(p, st.backups)
    ensures Stable(p, st.backups)
  {
    var bs := st.backups;
    forall id | id in Desired(p.Wanted()) && id in bs ensures id !in Orphans(p.key, p.Live(), bs) {
      if id in Selected(p.key, bs) {
        DesiredPairs(p);
        var pod, c :| pod in p.Live() && c in ToSet(p.Clusters()) && id == PairId(p.key, pod, c);
        var labels := bs[id].labels;
        assert WellFormed(id, bs[id]);
        assert labels[BACKUP_CLUSTER] in LabelledClusters(p.key, bs);
        SameMigrationCollision(p.key.name, pod, c, labels[BACKUP_POD], labels[BACKUP_CLUSTER]);
      }
    }
  }

  lemma RuleMakesInjective(p: Plan, bs: map<NsName, Backup>)
    requires Rule(p, bs)
    ensures Injective(p.key.name, p.Live(), ToSet(p.Clusters()))
  {
    forall pod, c, pod', c' | pod in p.Live() && pod' in p.Live() && c in p.Clusters() && c' in p.Clusters() &&
      BackupName(p.key.name, pod, c) == BackupName(p.key.name, pod', c')
      ensures pod == pod' && c == c'
    {
      assert c in ToSet(p.Clusters()) && c' in ToSet(p.Clusters());
      SameMigrationCollision(p.key.name, pod, c, pod', c');
    }
  }

  /** Convergence and idempotence under the rule, from any store that satisfies the invariant of all
      runs (NoLeak): however many passes were cut off and wherever, one that gets through ends where
      an undisturbed one would, nothing is wrong with the backups then, and once more changes nothing. */
  lemma CleanConvergence(
    p: Plan, st: Store, scripts: seq<seq<Reply>>, last: seq<Reply>, again: seq<Reply>, alone: seq<Reply>)
    requires Fits(p, st) && NoLeak(st) && Rule(p, st.backups)
    requires Exec(p.key, p.clients, PassAll(p.key, p.clients, st, scripts), [Fetch], last).status.Done?
    ensures var end := Exec(p.key, p.clients, PassAll(p.key, p.clients, st, scripts), [Fetch], last).store;
      && (Exec(p.key, p.clients, st, [Fetch], alone).status.Done? ==>
            end == Exec(p.key, p.clients, st, [Fetch], alone).store)
      && Wrong(p, end.backups) == {}
      && (Exec(p.key, p.clients, end, [Fetch], again).status.Done? ==>
            end == Exec(p.key, p.clients, end, [Fetch], again).store)
  {
    RuleMakesStable(p, st);
    PassAllKeepsGoal(p, st, scripts);
    var mid := PassAll(p.key, p.clients, st, scripts);
    PassKeepsGoal(p, mid, last);
    PassKeepsGoal(p, st, alone);
    NothingWrongAtGoal(p, st.backups);
    var end := Exec(p.key, p.clients, mid, [Fetch], last).store;
    if Exec(p.key, p.clients, end, [Fetch], again).status.Done? {
      IdempotentIffStable(p, mid, last, again);
    }
  }

  /** For a workload the rule makes iterations that share a name equal. */
  lemma RuleMakesConsistent(p: Plan, st: Store)
    requires Fits(p, st) && Rule(p, st.backups)
    requires KindOf(p.migration.spec.resourceRef).WorkloadTarget?
    ensures Consistent(p.Wanted())
  {
    var ref := p.migration.spec.resourceRef;
    var selector := st.workloads[WorkloadId(KindOf(ref).kind, RefId(ref))].selector;
    var listing :| ListedPods(st, ref.ns, selector, listing, p.pods);
    ListedIsOneNamespace(st, ref.ns, selector, listing, p.pods);
    RuleMakesInjective(p, st.backups);
    InjectiveConsistent(p, ref.ns);
  }

  /** Monotone repair under the rule: for a workload, in any store that satisfies the invariant of all
      runs, no request of the body of a pass makes the backups worse, and nothing is wrong at the end. */
  lemma CleanRepair(p: Plan, st: Store, replies: seq<Reply>, next: Reply)
    requires Fits(p, st) && NoLeak(st) && Rule(p, st.backups)
    requires KindOf(p.migration.spec.resourceRef).WorkloadTarget?
    ensures var before, after := AfterRequests(p, st, replies), AfterRequests(p, st, replies + [next]);
      |Wrong(p, after.store.backups)| <= |Wrong(p, before.store.backups)|
    ensures Wrong(p, GoalBackups(p, st.backups)) == {}
  {
    RuleMakesConsistent(p, st);
    RuleMakesStable(p, st);
    MonotoneRepair(p, st, replies, next);
  }

  // ----- Two sharp edges -----

  lemma OldNamesAreNotWanted(p: Plan, st: Store, id: NsName)
    requires NoLeak(st) && Rule(p, st.backups) && id in Selected(p.key, st.backups)
    requires st.backups[id].labels[BACKUP_CLUSTER] !in p.Clusters()
    ensures id !in Desired(p.Wanted())
  {
    var labels := st.backups[id].labels;
    assert labels[BACKUP_CLUSTER] in LabelledClusters(p.key, st.backups);
    DesiredPairs(p);
    if id in Desired(p.Wanted()) {
      var pod, c :| pod in p.Live() && c in ToSet(p.Clusters()) && id == PairId(p.key, pod, c);
      SameMigrationCollision(p.key.name, pod, c, labels[BACKUP_POD], labels[BACKUP_CLUSTER]);
      assert false;
    }
  }

  /** The clean-up looks at the pod of a backup and never at its cluster: after a successful pass an
      m-backup is there exactly if its pod lives, with its labels, and with a new spec exactly if its
      name is wanted. A backup for a cluster that is no source cluster any more is not wanted under
      the rule, and so it stays untouched as long as its pod lives. */
  lemma OldClustersStay(p: Plan, st: Store, replies: seq<Reply>, id: NsName)
    requires Fits(p, st) && NoLeak(st) && id in Selected(p.key, st.backups)
    ensures var r := Exec(p.key, p.clients, st, [Fetch], replies);
      var b, d := st.backups[id], Desired(p.Wanted());
      r.status.Done? ==>
        Find(r.store.backups, id) ==
          if b.labels[BACKUP_POD] !in p.Live() then None
          else if id in d then Some(b.(spec := d[id].spec)) else Some(b)
    ensures Rule(p, st.backups) && st.backups[id].labels[BACKUP_CLUSTER] !in p.Clusters() ==> id !in Desired(p.Wanted())
  {
    PassKeepsGoal(p, st, replies);
    assert WellFormed(id, st.backups[id]);
    GoalPointwise(p, st.backups, id);
    if Rule(p, st.backups) && st.backups[id].labels[BACKUP_CLUSTER] !in p.Clusters() {
      OldNamesAreNotWanted(p, st, id);
    }
  }

  ghost predicate OnePodName(pods: seq<PodInfo>, name: string) {
    pods != [] && forall pod | pod in pods :: pod.id.name == name
  }

  lemma NotProducedAgain(
    key: NsName, spec: MigrationSpec, pods: seq<PodInfo>, clusters: seq<string>, name: string, c: string, w: Want)
    requires OnePodName(pods, name) && w in Wants(key, spec, pods, clusters)
    requires c !in clusters
    ensures w.id != PairId(key, name, c)
  {
    WantsAsSet(key, spec, pods, clusters, w);
    var pod, x :| pod in pods && x in clusters && w == WantFor(key, spec, pod, x);
    if w.id == PairId(key, name, c) {
      SamePodSameCluster(key.name, name, c, x);
    }
  }

  /** The last iteration for a cluster is the one of the last pod. */
  lemma {:induction false} LastIteration(
    key: NsName, spec: MigrationSpec, pods: seq<PodInfo>, clusters: seq<string>, name: string, c: string)
    returns (j: nat)
    requires OnePodName(pods, name) && c in clusters
    ensures var ws := Wants(key, spec, pods, clusters);
      LastAt(ws, PairId(key, name, c), j) && ws[j] == WantFor(key, spec, pods[|pods| - 1], c)
    decreases |clusters|
  {
    var on, rest := WantsOn(key, spec, pods, clusters[0]), clusters[1..];
    var later, id := Wants(key, spec, pods, rest), PairId(key, name, c);
    if c in rest {
      var k := LastIteration(key, spec, pods, rest, name, c);
      j := |pods| + k;
    } else {
      j := |pods| - 1;
      forall i | 0 <= i < |later| ensures later[i].id != id {
        NotProducedAgain(key, spec, pods, rest, name, c, later[i]);
      }
    }
  }

  lemma LastPodDesired(p: Plan, name: string, c: string)
    requires OnePodName(p.pods, name) && c in p.Clusters()
    ensures var id := PairId(p.key, name, c);
      && id in Desired(p.Wanted())
      && Desired(p.Wanted())[id].spec == WantFor(p.key, p.migration.spec, p.pods[|p.pods| - 1], c).backup.spec
  {
    var j := LastIteration(p.key, p.migration.spec, p.pods, p.Clusters(), name, c);
    var i := FirstIndex(p.Wanted(), PairId(p.key, name, c));
    DesiredExactly(p.Wanted(), PairId(p.key, name, c), i, j);
  }

  /** A member cluster keys a pod by its namespace and name, too. */
  ghost predicate KeyedMemberPods(st: Store) {
    forall place | place in st.memberPods :: st.memberPods[place].info.id == place.id
  }

  ghost predicate LastPlace(st: Store, clusters: seq<string>, pod: NsName, k: nat) {
    && k < |clusters| && MemberPodId(clusters[k], pod) in st.memberPods
    && forall i | k < i < |clusters| :: MemberPodId(clusters[i], pod) !in st.memberPods
  }

  /** The pods found are those of the clusters that have one, and the last is the one of the last. */
  lemma {:induction false} ProbeLast(st: Store, clusters: seq<string>, pod: NsName, k: nat)
    requires LastPlace(st, clusters, pod, k)
    ensures var pods := Probe(st.memberPods, clusters, pod);
      pods != [] && pods[|pods| - 1] == st.memberPods[MemberPodId(clusters[k], pod)].info
    decreases |clusters|
  {
    if k == 0 {
      ProbeNothing(st, clusters[1..], pod);
    } else {
      ProbeLast(st, clusters[1..], pod, k - 1);
    }
  }

  lemma {:induction false} ProbeNothing(st: Store, clusters: seq<string>, pod: NsName)
    requires forall i | 0 <= i < |clusters| :: MemberPodId(clusters[i], pod) !in st.memberPods
    ensures Probe(st.memberPods, clusters, pod) == []
    decreases |clusters|
  {
    if clusters != [] {
      ProbeNothing(st, clusters[1..], pod);
    }
  }

  lemma {:induction false} ProbeNames(st: Store, clusters: seq<string>, pod: NsName)
    requires KeyedMemberPods(st)
    ensures forall info | info in Probe(st.memberPods, clusters, pod) :: info.id == pod
    decreases |clusters|
  {
    if clusters != [] {
      ProbeNames(st, clusters[1..], pod);
    }
  }

  /** What the pass wants for each cluster is the pod of the last cluster that has one. */
  lemma LastPodWanted(p: Plan, st: Store, k: nat, c: string)
    requires Discovered(st, p.migration.spec, p.pods) && KeyedMemberPods(st)
    requires KindOf(p.migration.spec.resourceRef).PodTarget?
    requires LastPlace(st, p.Clusters(), RefId(p.migration.spec.resourceRef), k) && c in p.Clusters()
    ensures var spec := p.migration.spec;
      var id := PairId(p.key, spec.resourceRef.name, c);
      var last := st.memberPods[MemberPodId(p.Clusters()[k], RefId(spec.resourceRef))].info;
      id in Desired(p.Wanted()) && Desired(p.Wanted())[id].spec == WantFor(p.key, spec, last, c).backup.spec
  {
    var pod := RefId(p.migration.spec.resourceRef);
    ProbeLast(st, p.Clusters(), pod, k);
    ProbeNames(st, p.Clusters(), pod);
    LastPodDesired(p, pod.name, c);
  }

  /** A pod target is found on every source cluster that has a pod of this name, and the backups for
      all source clusters then describe the pod of the last one: after a successful pass the stored
      backup of any source cluster has this spec, and it is there if the start was stable. */
  lemma LastPodWins(p: Plan, st: Store, replies: seq<Reply>, k: nat, c: string)
    requires Fits(p, st) && KeyedMemberPods(st)
    requires KindOf(p.migration.spec.resourceRef).PodTarget?
    requires LastPlace(st, p.Clusters(), RefId(p.migration.spec.resourceRef), k) && c in p.Clusters()
    ensures var r := Exec(p.key, p.clients, st, [Fetch], replies);
      var spec := p.migration.spec;
      var id := PairId(p.key, spec.resourceRef.name, c);
      var last := st.memberPods[MemberPodId(p.Clusters()[k], RefId(spec.resourceRef))].info;
      r.status.Done? ==>
        && (Stable(p, st.backups) ==> id in r.store.backups)
        && (id in r.store.backups ==> Describes(r.store.backups[id].spec, spec, last))
  {
    LastPodWanted(p, st, k, c);
    PassKeepsGoal(p, st, replies);
    SpecAtGoal(p, st.backups, PairId(p.key, p.migration.spec.resourceRef.name, c));
  }

  lemma SpecAtGoal(p: Plan, bs: map<NsName, Backup>, id: NsName)
    requires id in Desired(p.Wanted())
    ensures Stable(p, bs) ==> id in GoalBackups(p, bs)
    ensures id in GoalBackups(p, bs) ==> GoalBackups(p, bs)[id].spec == Desired(p.Wanted())[id].spec
  {
    GoalPointwise(p, bs, id);
    assert Find(GoalBackups(p, bs), id).Some? <==> id in GoalBackups(p, bs);
    if id in bs {
      assert id in Orphans(p.key, p.Live(), bs) <==> BelongsTo(p.key, id, bs[id]) && Dead(p.Live(), bs[id]);
    }
  }
}
