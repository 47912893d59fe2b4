/** What follows from the exact effect of a pass: its frame, one backup per pod and cluster, a policy
    for every backup, and that passes of different migrations commute. */
module Exactness {
  import opened Objects
  import opened Naming
  import opened Cluster
  import opened Machine
  import opened Effect
  import opened Passes
  import opened Iterations
  import opened Frames
  import opened Convergence
  import opened Safety

  // ----- Name by name -----

  /** What a pass makes of the backup `found` at a name. */
  ghost function BackupAfter(p: Plan, id: NsName, found: Option<Backup>): Option<Backup> {
    var d := Desired(p.Wanted());
    match found
    case None => Find(d, id)
    case Some(b) =>
      if BelongsTo(p.key, id, b) && Dead(p.Live(), b) then None
      else if id in d then Some(b.(spec := d[id].spec)) else found
  }

  lemma GoalPointwise(p: Plan, bs: map<NsName, Backup>, id: NsName)
    ensures Find(GoalBackups(p, bs), id) == BackupAfter(p, id, Find(bs, id))
  {
    var over := Overlay(Desired(p.Wanted()), bs);
    if id in Desired(p.Wanted()) {
      DesiredIsAlive(p, id);
    }
    if id in over {
      assert id in Orphans(p.key, p.Live(), over) <==> BelongsTo(p.key, id, over[id]) && Dead(p.Live(), over[id]);
    }
  }

  // ----- One backup per pod and cluster -----

  function PairId(key: NsName, pod: string, cluster: string): NsName {
    NsName(key.ns, BackupName(key.name, pod, cluster))
  }

  function PairIds(key: NsName, pods: set<string>, clusters: set<string>): set<NsName> {
    set pod, c | pod in pods && c in clusters :: PairId(key, pod, c)
  }

  lemma DesiredPairs(p: Plan)
    ensures Desired(p.Wanted()).Keys == PairIds(p.key, p.Live(), ToSet(p.Clusters()))
  {
    var ws := p.Wanted();
    forall id ensures id in Desired(ws) <==> id in PairIds(p.key, p.Live(), ToSet(p.Clusters())) {
      DesiredNames(ws, id);
      if Produces(ws, id) {
        var i :| 0 <= i < |ws| && ws[i].id == id;
        WantsAsSet(p.key, p.migration.spec, p.pods, p.Clusters(), ws[i]);
        var pod, c :| pod in p.pods && c in p.Clusters() && ws[i] == WantFor(p.key, p.migration.spec, pod, c);
        assert pod.id.name in p.Live() && c in ToSet(p.Clusters()) && id == PairId(p.key, pod.id.name, c);
      }
      if id in PairIds(p.key, p.Live(), ToSet(p.Clusters())) {
        var name, c :| name in p.Live() && c in ToSet(p.Clusters()) && id == PairId(p.key, name, c);
        var pod :| pod in p.pods && pod.id.name == name;
        var w := WantFor(p.key, p.migration.spec, pod, c);
        WantsAsSet(p.key, p.migration.spec, p.pods, p.Clusters(), w);
        var i :| 0 <= i < |ws| && ws[i] == w;
        assert ws[i].id == id;
      }
    }
  }

  /** The names of the pairs of a live pod and a source cluster. */
  function Pairs(p: Plan): set<NsName> {
    PairIds(p.key, p.Live(), ToSet(p.Clusters()))
  }

  /** The m-backups that the clean-up of a pass leaves alone, because their pod lives. */
  function Survivors(p: Plan, bs: map<NsName, Backup>): set<NsName> {
    Selected(p.key, bs) - Orphans(p.key, p.Live(), bs)
  }

  lemma SelectedAtGoalHere(p: Plan, bs: map<NsName, Backup>, id: NsName)
    ensures id in Selected(p.key, GoalBackups(p, bs)) <==> id in Survivors(p, bs) || (id in Pairs(p) && id !in bs)
  {
    GoalPointwise(p, bs, id);
    assert Find(GoalBackups(p, bs), id).Some? <==> id in GoalBackups(p, bs);
    DesiredPairs(p);
    if id in Desired(p.Wanted()) {
      DesiredIsAlive(p, id);
    }
    if id in bs {
      assert id in Orphans(p.key, p.Live(), bs) <==> BelongsTo(p.key, id, bs[id]) && Dead(p.Live(), bs[id]);
    }
  }

  /** The m-backups after a pass: those that survive it, and the pairs whose names were free. */
  lemma SelectedAtGoal(p: Plan, bs: map<NsName, Backup>)
    ensures Selected(p.key, GoalBackups(p, bs)) == Survivors(p, bs) + (Pairs(p) - bs.Keys)
  {
    forall id ensures id in Selected(p.key, GoalBackups(p, bs)) <==> id in Survivors(p, bs) + (Pairs(p) - bs.Keys) {
      SelectedAtGoalHere(p, bs, id);
    }
  }

  /** No m-backup of a live pod lies outside the pairs, and whatever sits on the name of a pair is an
      m-backup of a live pod. */
  ghost predicate OnlyPairs(p: Plan, bs: map<NsName, Backup>) {
    && (forall id | id in Selected(p.key, bs) && !Dead(p.Live(), bs[id]) :: id in Pairs(p))
    && (forall id | id in Pairs(p) && id in bs :: Alive(p, id, bs[id]))
  }

  /** A pass leaves exactly the pairs of a live pod and a source cluster as m-backups if and only if it
      starts from such a store. */
  lemma OneBackupPerPair(p: Plan, bs: map<NsName, Backup>)
    ensures Selected(p.key, GoalBackups(p, bs)) == Pairs(p) <==> OnlyPairs(p, bs)
  {
    SelectedAtGoal(p, bs);
    var now := Selected(p.key, GoalBackups(p, bs));
    assert forall id :: id in Survivors(p, bs) <==> id in Selected(p.key, bs) && !Dead(p.Live(), bs[id]);
    if now == Pairs(p) {
      forall id | id in Pairs(p) && id in bs ensures Alive(p, id, bs[id]) {
        assert id in Survivors(p, bs);
      }
      forall id | id in Selected(p.key, bs) && !Dead(p.Live(), bs[id]) ensures id in Pairs(p) {
        assert id in Survivors(p, bs) && id in now;
      }
    }
    if OnlyPairs(p, bs) {
      assert Survivors(p, bs) <= Pairs(p) && Pairs(p) * bs.Keys <= Survivors(p, bs);
    }
  }

  /** Well-formed m-backups that are only about source clusters, on names that nobody else uses, are
      such a start when it is stable. */
  ghost predicate Tidy(p: Plan, bs: map<NsName, Backup>) {
    && (forall id | id in Selected(p.key, bs) ::
          WellFormed(id, bs[id]) && bs[id].labels[BACKUP_CLUSTER] in p.Clusters())
    && (forall id | id in Desired(p.Wanted()) && id in bs :: BelongsTo(p.key, id, bs[id]))
  }

  lemma TidyHasOnlyPairs(p: Plan, bs: map<NsName, Backup>)
    requires Tidy(p, bs) && Stable(p, bs)
    ensures OnlyPairs(p, bs)
  {
    DesiredPairs(p);
    forall id | id in Selected(p.key, bs) && !Dead(p.Live(), bs[id]) ensures id in Pairs(p) {
      var labels := bs[id].labels;
      assert WellFormed(id, bs[id]) && labels[BACKUP_POD] in p.Live() && labels[BACKUP_CLUSTER] in ToSet(p.Clusters());
      assert id == PairId(p.key, labels[BACKUP_POD], labels[BACKUP_CLUSTER]);
    }
    forall id | id in Pairs(p) && id in bs ensures Alive(p, id, bs[id]) {
      assert id in Desired(p.Wanted()) && id !in Orphans(p.key, p.Live(), bs);
    }
  }

  // ----- Counting -----

  function AllPairs(pods: set<string>, clusters: set<string>): set<(string, string)> {
    set pod, c | pod in pods && c in clusters :: (pod, c)
  }

  function IdsOf(key: NsName, pairs: set<(string, string)>): set<NsName> {
    set pair | pair in pairs :: PairId(key, pair.0, pair.1)
  }

  ghost predicate Different(key: NsName, pairs: set<(string, string)>) {
    forall x, y | x in pairs && y in pairs && PairId(key, x.0, x.1) == PairId(key, y.0, y.1) :: x == y
  }

  lemma {:induction false} PairsOfOnePod(pod: string, clusters: set<string>)
    ensures |AllPairs({pod}, clusters)| == |clusters|
    decreases clusters
  {
    if clusters == {} {
      assert AllPairs({pod}, clusters) == {};
    } else {
      var c :| c in clusters;
      PairsOfOnePod(pod, clusters - {c});
      assert AllPairs({pod}, clusters) == AllPairs({pod}, clusters - {c}) + {(pod, c)};
    }
  }

  lemma OneMoreTimes(n: nat, m: nat, k: nat)
    requires n == m + 1
    ensures n * k == m * k + k
  {
  }

  lemma {:induction false} AllPairsCount(pods: set<string>, clusters: set<string>)
    ensures |AllPairs(pods, clusters)| == |pods| * |clusters|
    decreases pods
  {
    if pods == {} {
      assert AllPairs(pods, clusters) == {};
    } else {
      var pod :| pod in pods;
      AllPairsCount(pods - {pod}, clusters);
      PairsOfOnePod(pod, clusters);
      OneMorePod(pods, pod, clusters);
      OneMoreTimes(|pods|, |pods - {pod}|, |clusters|);
    }
  }

  lemma OneMorePod(pods: set<string>, pod: string, clusters: set<string>)
    requires pod in pods
    ensures |AllPairs(pods, clusters)| == |AllPairs(pods - {pod}, clusters)| + |AllPairs({pod}, clusters)|
  {
    assert AllPairs(pods, clusters) == AllPairs(pods - {pod}, clusters) + AllPairs({pod}, clusters);
    assert AllPairs(pods - {pod}, clusters) !! AllPairs({pod}, clusters);
  }

  /** There are at most as many names as pairs, and as many only if no two pairs share one. */
  lemma {:induction false} NameCount(key: NsName, pairs: set<(string, string)>)
    ensures |IdsOf(key, pairs)| <= |pairs|
    ensures |IdsOf(key, pairs)| == |pairs| <==> Different(key, pairs)
    decreases pairs
  {
    if pairs == {} {
      assert IdsOf(key, pairs) == {};
    } else {
      var x :| x in pairs;
      var rest, id := pairs - {x}, PairId(key, x.0, x.1);
      NameCount(key, rest);
      assert IdsOf(key, pairs) == IdsOf(key, rest) + {id};
      if id in IdsOf(key, rest) {
        assert IdsOf(key, pairs) == IdsOf(key, rest);
        var y :| y in rest && PairId(key, y.0, y.1) == id;
        assert !Different(key, pairs);
      } else {
        assert forall y | y in rest :: PairId(key, y.0, y.1) in IdsOf(key, rest);
        assert Different(key, pairs) <==> Different(key, rest);
      }
    }
  }

  lemma DifferentIffInjective(key: NsName, pods: set<string>, clusters: set<string>)
    ensures Different(key, AllPairs(pods, clusters)) <==> Injective(key.name, pods, clusters)
  {
    if Different(key, AllPairs(pods, clusters)) {
      forall p, c, p', c' | p in pods && p' in pods && c in clusters && c' in clusters &&
        BackupName(key.name, p, c) == BackupName(key.name, p', c')
        ensures p == p' && c == c'
      {
        assert (p, c) in AllPairs(pods, clusters) && (p', c') in AllPairs(pods, clusters);
      }
    }
    if Injective(key.name, pods, clusters) {
      forall x, y | x in AllPairs(pods, clusters) && y in AllPairs(pods, clusters) &&
        PairId(key, x.0, x.1) == PairId(key, y.0, y.1)
        ensures x == y
      {
        assert BackupName(key.name, x.0, x.1) == BackupName(key.name, y.0, y.1);
      }
    }
  }

  /** There are as many names as pods times clusters if and only if no two pairs share a name. */
  lemma PairCount(key: NsName, pods: set<string>, clusters: set<string>)
    ensures |PairIds(key, pods, clusters)| <= |pods| * |clusters|
    ensures |PairIds(key, pods, clusters)| == |pods| * |clusters| <==> Injective(key.name, pods, clusters)
  {
    NameCount(key, AllPairs(pods, clusters));
    AllPairsCount(pods, clusters);
    DifferentIffInjective(key, pods, clusters);
    forall id ensures id in PairIds(key, pods, clusters) <==> id in IdsOf(key, AllPairs(pods, clusters)) {
      if id in PairIds(key, pods, clusters) {
        var pod, c :| pod in pods && c in clusters && id == PairId(key, pod, c);
        assert (pod, c) in AllPairs(pods, clusters);
      }
    }
    assert PairIds(key, pods, clusters) == IdsOf(key, AllPairs(pods, clusters));
  }

  /** What a pass that gets through leaves of the migration: in number, what survives it and what was
      free; the pairs of a live pod and a source cluster exactly if it found only such; and then as
      many as pods times clusters exactly if no two pairs share a name. */
  lemma BackupCount(p: Plan, st: Store, replies: seq<Reply>)
    requires Fits(p, st)
    ensures var r := Exec(p.key, p.clients, st, [Fetch], replies);
      var left := Selected(p.key, r.store.backups);
      r.status.Done? ==>
        && |left| == |Survivors(p, st.backups)| + |Pairs(p) - st.backups.Keys|
        && (left == Pairs(p) <==> OnlyPairs(p, st.backups))
        && (OnlyPairs(p, st.backups) ==>
             (|left| == |p.Live()| * |ToSet(p.Clusters())| <==> Injective(p.key.name, p.Live(), ToSet(p.Clusters()))))
  {
    PassKeepsGoal(p, st, replies);
    SelectedAtGoal(p, st.backups);
    assert Survivors(p, st.backups) !! Pairs(p) - st.backups.Keys;
    OneBackupPerPair(p, st.backups);
    PairCount(p.key, p.Live(), ToSet(p.Clusters()));
  }

  // ----- Policies -----

  /** Iterations that share a name are for one cluster when names are injective, and the policy depends
      on nothing but the name and the cluster. */
  lemma PolicyOfPair(p: Plan, pod: string, c: string)
    requires Injective(p.key.name, p.Live(), ToSet(p.Clusters()))
    requires pod in p.Live() && c in p.Clusters()
    ensures var id := PairId(p.key, pod, c);
      && PolicyId(id) in DesiredPolicies(p.Wanted())
      && DesiredPolicies(p.Wanted())[PolicyId(id)].selector
         == ResourceSelector("migration.dcnlab.com/v1", "CheckpointBackup", id.name)
      && DesiredPolicies(p.Wanted())[PolicyId(id)].clusters == [c]
  {
    var ws, id := p.Wanted(), PairId(p.key, pod, c);
    assert c in ToSet(p.Clusters());
    DesiredPairs(p);
    DesiredNames(ws, id);
    var j := LastIndex(ws, id);
    DesiredPolicyExactly(ws, id, j);
    assert ws[j] in ws;
    WantsAsSet(p.key, p.migration.spec, p.pods, p.Clusters(), ws[j]);
    var other, c' :| other in p.pods && c' in p.Clusters() && ws[j] == WantFor(p.key, p.migration.spec, other, c');
    assert other.id.name in p.Live() && c' in ToSet(p.Clusters());
    assert BackupName(p.key.name, pod, c) == BackupName(p.key.name, other.id.name, c');
  }

  /** Every pair of a live pod and a source cluster has a policy that selects exactly the backup of its
      name and places it on exactly its cluster. */
  ghost predicate AllPlaced(p: Plan, ps: map<NsName, Policy>) {
    forall pod, c | pod in p.Live() && c in p.Clusters() :: PlacedOn(ps, PairId(p.key, pod, c), c)
  }

  ghost predicate PlacedOn(ps: map<NsName, Policy>, id: NsName, c: string) {
    && PolicyId(id) in ps
    && ps[PolicyId(id)].selector == ResourceSelector("migration.dcnlab.com/v1", "CheckpointBackup", id.name)
    && ps[PolicyId(id)].clusters == [c]
  }

  lemma PlacedIsInjective(p: Plan, ps: map<NsName, Policy>)
    requires AllPlaced(p, ps)
    ensures Injective(p.key.name, p.Live(), ToSet(p.Clusters()))
  {
    forall pod, c, pod', c' | pod in p.Live() && pod' in p.Live() && c in p.Clusters() && c' in p.Clusters() &&
      BackupName(p.key.name, pod, c) == BackupName(p.key.name, pod', c')
      ensures pod == pod' && c == c'
    {
      var id := PairId(p.key, pod, c);
      assert id == PairId(p.key, pod', c');
      assert PlacedOn(ps, id, c) && PlacedOn(ps, id, c');
      assert [c][0] == [c'][0];
      SameClusterSameName(p.key.name, pod, pod', c);
    }
  }

  /** With the Karmada client, a pass that gets through leaves every pair of a live pod and a source
      cluster with its own policy if and only if no two pairs share a name. */
  lemma PolicyCoverage(p: Plan, st: Store, replies: seq<Reply>)
    requires Fits(p, st) && p.clients.karmada
    ensures var r := Exec(p.key, p.clients, st, [Fetch], replies);
      r.status.Done? ==>
        (AllPlaced(p, r.store.policies) <==> Injective(p.key.name, p.Live(), ToSet(p.Clusters())))
  {
    PassKeepsGoal(p, st, replies);
    PlacedAtGoal(p, st.policies);
  }

  lemma PlacedAtGoal(p: Plan, ps: map<NsName, Policy>)
    requires p.clients.karmada
    ensures AllPlaced(p, GoalPolicies(p, ps)) <==> Injective(p.key.name, p.Live(), ToSet(p.Clusters()))
  {
    var now := GoalPolicies(p, ps);
    if AllPlaced(p, now) {
      PlacedIsInjective(p, now);
    }
    if Injective(p.key.name, p.Live(), ToSet(p.Clusters())) {
      forall pod, c | pod in p.Live() && c in p.Clusters() ensures PlacedOn(now, PairId(p.key, pod, c), c) {
        PolicyOfPair(p, pod, c);
      }
    }
  }

  lemma DesiredUnannotated(ws: seq<Want>, pid: NsName)
    requires pid in DesiredPolicies(ws)
    ensures DesiredPolicies(ws)[pid].annotations == map[]
  {
    DesiredPolicyNames(ws, pid);
    var i :| 0 <= i < |ws| && PolicyId(ws[i].id) == pid;
    var j := LastIndex(ws, ws[i].id);
    DesiredPolicyExactly(ws, ws[i].id, j);
  }

  /** Contrary to the comment on the merge, annotations are not preserved: a pass that gets through
      leaves every policy that it upserts without any, whatever annotations were stored. */
  lemma AnnotationsAreLost(p: Plan, st: Store, replies: seq<Reply>, pid: NsName)
    requires Fits(p, st) && p.clients.karmada && pid in DesiredPolicies(p.Wanted())
    ensures var r := Exec(p.key, p.clients, st, [Fetch], replies);
      r.status.Done? ==> pid in r.store.policies && r.store.policies[pid].annotations == map[]
  {
    PassKeepsGoal(p, st, replies);
    DesiredUnannotated(p.Wanted(), pid);
  }

  // ----- Two migrations -----

  /** The passes want different names, and neither finds a dead backup of its own on a name that the
      other one wants. */
  ghost predicate Apart(p: Plan, q: Plan, bs: map<NsName, Backup>) {
    && p.key != q.key
    && Desired(p.Wanted()).Keys !! Desired(q.Wanted()).Keys
    && (forall id | id in Desired(q.Wanted()) && id in bs :: id !in Orphans(p.key, p.Live(), bs))
    && (forall id | id in Desired(p.Wanted()) && id in bs :: id !in Orphans(q.key, q.Live(), bs))
  }

  /** The frame of a pass, with any replies and cut off anywhere: a backup of another migration, or of
      none, stays as it is unless its very name is wanted, no other backup appears, policies change
      under wanted names only, and an existing namespace policy stays. */
  lemma PassFrame(p: Plan, st: Store, replies: seq<Reply>)
    requires Fits(p, st)
    ensures var now := Exec(p.key, p.clients, st, [Fetch], replies).store;
      && (forall id | id in st.backups && !BelongsTo(p.key, id, st.backups[id]) && id !in Desired(p.Wanted()) ::
            id in now.backups && now.backups[id] == st.backups[id])
      && (forall id | id in now.backups && id !in st.backups :: id in Desired(p.Wanted()))
      && (forall pid | pid !in DesiredPolicies(p.Wanted()) && pid != NAMESPACE_POLICY ::
            Find(now.policies, pid) == Find(st.policies, pid))
      && (NAMESPACE_POLICY in st.policies ==>
            Find(now.policies, NAMESPACE_POLICY) == Find(st.policies, NAMESPACE_POLICY))
  {
    PassKeepsGoal(p, st, replies);
    var now := Exec(p.key, p.clients, st, [Fetch], replies).store;
    NamespacePolicyNotDesired(p.Wanted());
    forall id | id in st.backups && !BelongsTo(p.key, id, st.backups[id]) && id !in Desired(p.Wanted())
      ensures id in now.backups && now.backups[id] == st.backups[id]
    {
      assert Elsewhere(p, st.backups, id);
      assert Find(now.backups, id) == Some(st.backups[id]);
    }
    forall id | id in now.backups && id !in st.backups ensures id in Desired(p.Wanted()) {
      assert Elsewhere(p, st.backups, id) ==> Find(now.backups, id) == None;
    }
    assert forall pid | pid !in DesiredPolicies(p.Wanted()) && pid != NAMESPACE_POLICY ::
        PolicyElsewhere(p, st.policies, pid);
    assert NAMESPACE_POLICY in st.policies ==> PolicyElsewhere(p, st.policies, NAMESPACE_POLICY);
  }

  /** A backup that only one of the passes wants is left alone by the other. */
  lemma LeavesOther(p: Plan, q: Plan, id: NsName, b: Backup)
    requires p.key != q.key && id !in Desired(p.Wanted()) && BelongsTo(q.key, id, b)
    ensures BackupAfter(p, id, Some(b)) == Some(b)
  {
  }

  lemma CommuteOn(p: Plan, q: Plan, bs: map<NsName, Backup>, id: NsName)
    requires Apart(p, q, bs) && id in Desired(q.Wanted())
    ensures var found := Find(bs, id);
      BackupAfter(p, id, BackupAfter(q, id, found)) == BackupAfter(q, id, BackupAfter(p, id, found))
  {
    assert id !in Desired(p.Wanted());
    if id in bs {
      assert id in Orphans(p.key, p.Live(), bs) <==> BelongsTo(p.key, id, bs[id]) && Dead(p.Live(), bs[id]);
    } else {
      DesiredIsAlive(q, id);
      LeavesOther(p, q, id, Desired(q.Wanted())[id]);
    }
  }

  lemma CommuteAt(p: Plan, q: Plan, bs: map<NsName, Backup>, id: NsName)
    requires Apart(p, q, bs)
    ensures var found := Find(bs, id);
      BackupAfter(p, id, BackupAfter(q, id, found)) == BackupAfter(q, id, BackupAfter(p, id, found))
  {
    if id in Desired(q.Wanted()) {
      CommuteOn(p, q, bs, id);
    } else if id in Desired(p.Wanted()) {
      CommuteOn(q, p, bs, id);
    }
  }

  lemma BackupsCommute(p: Plan, q: Plan, bs: map<NsName, Backup>)
    requires Apart(p, q, bs)
    ensures GoalBackups(p, GoalBackups(q, bs)) == GoalBackups(q, GoalBackups(p, bs))
  {
    var l, r := GoalBackups(p, GoalBackups(q, bs)), GoalBackups(q, GoalBackups(p, bs));
    forall id ensures (id in l <==> id in r) && (id in l ==> l[id] == r[id]) {
      CommuteAt(p, q, bs, id);
      GoalPointwise(p, bs, id);
      GoalPointwise(q, bs, id);
      GoalPointwise(p, GoalBackups(q, bs), id);
      GoalPointwise(q, GoalBackups(p, bs), id);
      assert Find(l, id) == Find(r, id);
    }
  }

  lemma PoliciesApart(p: Plan, q: Plan)
    requires Desired(p.Wanted()).Keys !! Desired(q.Wanted()).Keys
    ensures DesiredPolicies(p.Wanted()).Keys !! DesiredPolicies(q.Wanted()).Keys
  {
    forall pid | pid in DesiredPolicies(p.Wanted()) && pid in DesiredPolicies(q.Wanted()) ensures false {
      DesiredPolicyNames(p.Wanted(), pid);
      DesiredPolicyNames(q.Wanted(), pid);
      var v, w := p.Wanted(), q.Wanted();
      var i :| 0 <= i < |v| && PolicyId(v[i].id) == pid;
      var j :| 0 <= j < |w| && PolicyId(w[j].id) == pid;
      PolicyNameInjective(v[i].id.name, w[j].id.name);
      DesiredNames(v, v[i].id);
      DesiredNames(w, w[j].id);
    }
  }

  /** What a pass makes of the policy `found` at a name other than that of the namespace policy. */
  ghost function PolicyAfter(p: Plan, pid: NsName, found: Option<Policy>): Option<Policy> {
    var d := DesiredPolicies(p.Wanted());
    if !p.clients.karmada || pid !in d then found
    else match found
      case None => Some(d[pid])
      case Some(policy) => Some(MergePolicy(d[pid], policy))
  }

  lemma PolicyPointwise(p: Plan, ps: map<NsName, Policy>, pid: NsName)
    requires pid != NAMESPACE_POLICY
    ensures Find(GoalPolicies(p, ps), pid) == PolicyAfter(p, pid, Find(ps, pid))
  {
    assert pid in WithNamespacePolicy(ps, p.Clusters()) <==> pid in ps;
  }

  lemma SameButOne<V>(l: map<NsName, V>, r: map<NsName, V>, x: NsName)
    requires forall id | id != x :: Find(l, id) == Find(r, id)
    ensures l - {x} == r - {x}
  {
    forall id | id != x ensures (id in l <==> id in r) && (id in l ==> l[id] == r[id]) {
      assert Find(l, id) == Find(r, id);
    }
  }

  lemma PoliciesCommuteAt(p: Plan, q: Plan, ps: map<NsName, Policy>, pid: NsName)
    requires Desired(p.Wanted()).Keys !! Desired(q.Wanted()).Keys && pid != NAMESPACE_POLICY
    ensures Find(GoalPolicies(p, GoalPolicies(q, ps)), pid) == Find(GoalPolicies(q, GoalPolicies(p, ps)), pid)
  {
    PoliciesApart(p, q);
    PolicyPointwise(p, ps, pid);
    PolicyPointwise(q, ps, pid);
    PolicyPointwise(p, GoalPolicies(q, ps), pid);
    PolicyPointwise(q, GoalPolicies(p, ps), pid);
    assert pid !in DesiredPolicies(p.Wanted()) || pid !in DesiredPolicies(q.Wanted());
  }

  lemma PoliciesCommute(p: Plan, q: Plan, ps: map<NsName, Policy>)
    requires Desired(p.Wanted()).Keys !! Desired(q.Wanted()).Keys
    ensures GoalPolicies(p, GoalPolicies(q, ps)) - {NAMESPACE_POLICY}
         == GoalPolicies(q, GoalPolicies(p, ps)) - {NAMESPACE_POLICY}
  {
    forall pid | pid != NAMESPACE_POLICY
      ensures Find(GoalPolicies(p, GoalPolicies(q, ps)), pid) == Find(GoalPolicies(q, GoalPolicies(p, ps)), pid)
    {
      PoliciesCommuteAt(p, q, ps, pid);
    }
    SameButOne(GoalPolicies(p, GoalPolicies(q, ps)), GoalPolicies(q, GoalPolicies(p, ps)), NAMESPACE_POLICY);
  }

  lemma LabelsCommute(a: MigrationSpec, b: MigrationSpec, st: Store)
    ensures LabelWorkloads(LabelWorkloads(st.workloads, a), b) == LabelWorkloads(LabelWorkloads(st.workloads, b), a)
    ensures LabelPods(LabelPods(st.memberPods, a), b) == LabelPods(LabelPods(st.memberPods, b), a)
  {
  }

  /** Everything but the policy of the shared namespace, which belongs to its first creator. */
  ghost predicate SameButNamespacePolicy(a: Store, b: Store) {
    a.(policies := a.policies - {NAMESPACE_POLICY}) == b.(policies := b.policies - {NAMESPACE_POLICY})
  }

  lemma GoalsCommute(p: Plan, q: Plan, st: Store)
    requires Apart(p, q, st.backups)
    ensures SameButNamespacePolicy(Goal(p, Goal(q, st)), Goal(q, Goal(p, st)))
  {
    BackupsCommute(p, q, st.backups);
    PoliciesCommute(p, q, st.policies);
    LabelsCommute(p.migration.spec, q.migration.spec, st);
    assert GoalCrds(p, GoalCrds(q, st.crds)) == GoalCrds(q, GoalCrds(p, st.crds));
  }

  lemma FitsInOther(p: Plan, q: Plan, st: Store)
    requires Fits(p, st) && p.key != q.key
    ensures Fits(p, Goal(q, st))
  {
    FitsAfter(p, st, Goal(q, st));
  }

  lemma ApartPassesCommute(p: Plan, q: Plan, st: Store, p1: seq<Reply>, q1: seq<Reply>, q2: seq<Reply>, p2: seq<Reply>)
    requires Fits(p, st) && Fits(q, st) && Apart(p, q, st.backups)
    ensures var first := Exec(p.key, p.clients, st, [Fetch], p1);
      var second := Exec(q.key, q.clients, first.store, [Fetch], q1);
      var first' := Exec(q.key, q.clients, st, [Fetch], q2);
      var second' := Exec(p.key, p.clients, first'.store, [Fetch], p2);
      first.status.Done? && second.status.Done? && first'.status.Done? && second'.status.Done? ==>
        SameButNamespacePolicy(second.store, second'.store)
  {
    PassKeepsGoal(p, st, p1);
    PassKeepsGoal(q, st, q2);
    FitsInOther(q, p, st);
    FitsInOther(p, q, st);
    PassKeepsGoal(q, Goal(p, st), q1);
    PassKeepsGoal(p, Goal(q, st), p2);
    GoalsCommute(p, q, st);
  }

  /** The migrations are in different namespaces, or neither name followed by a dash is a prefix of the
      other one. */
  ghost predicate NamesApart(a: NsName, b: NsName) {
    a != b && (a.ns == b.ns ==> !DashPrefix(a.name, b.name) && !DashPrefix(b.name, a.name))
  }

  lemma PairIdsApart(a: NsName, b: NsName, p: string, c: string, p': string, c': string)
    requires NamesApart(a, b)
    ensures PairId(a, p, c) != PairId(b, p', c')
  {
    if a.ns == b.ns && BackupName(a.name, p, c) == BackupName(b.name, p', c') {
      CollisionAcross(a.name, b.name);
    }
  }

  lemma WantedIsNotTheirs(p: Plan, q: Plan, st: Store, id: NsName)
    requires NoLeak(st) && NamesApart(p.key, q.key)
    requires id in Desired(q.Wanted()) && id in st.backups
    ensures id !in Orphans(p.key, p.Live(), st.backups)
  {
    if id in Selected(p.key, st.backups) {
      DesiredPairs(q);
      var pod, c :| pod in q.Live() && c in ToSet(q.Clusters()) && id == PairId(q.key, pod, c);
      var labels := st.backups[id].labels;
      assert WellFormed(id, st.backups[id]);
      assert id == PairId(p.key, labels[BACKUP_POD], labels[BACKUP_CLUSTER]);
      PairIdsApart(p.key, q.key, labels[BACKUP_POD], labels[BACKUP_CLUSTER], pod, c);
    }
  }

  lemma NamesWantApart(p: Plan, q: Plan)
    requires NamesApart(p.key, q.key)
    ensures Desired(p.Wanted()).Keys !! Desired(q.Wanted()).Keys
  {
    DesiredPairs(p);
    DesiredPairs(q);
    forall id | id in Desired(p.Wanted()) && id in Desired(q.Wanted()) ensures false {
      var pod, c :| pod in p.Live() && c in ToSet(p.Clusters()) && id == PairId(p.key, pod, c);
      var pod', c' :| pod' in q.Live() && c' in ToSet(q.Clusters()) && id == PairId(q.key, pod', c');
      PairIdsApart(p.key, q.key, pod, c, pod', c');
    }
  }

  /** In any store that a run can reach, the names of two migrations alone keep them apart. */
  lemma NamesMakeApart(p: Plan, q: Plan, st: Store)
    requires NoLeak(st) && NamesApart(p.key, q.key)
    ensures Apart(p, q, st.backups)
  {
    NamesWantApart(p, q);
    forall id | id in Desired(q.Wanted()) && id in st.backups ensures id !in Orphans(p.key, p.Live(), st.backups) {
      WantedIsNotTheirs(p, q, st, id);
    }
    forall id | id in Desired(p.Wanted()) && id in st.backups ensures id !in Orphans(q.key, q.Live(), st.backups) {
      WantedIsNotTheirs(q, p, st, id);
    }
  }

  /** Successful passes of two migrations whose names do not meet can be done in either order. */
  lemma PassesCommute(p: Plan, q: Plan, st: Store, p1: seq<Reply>, q1: seq<Reply>, q2: seq<Reply>, p2: seq<Reply>)
    requires Fits(p, st) && Fits(q, st) && NoLeak(st) && NamesApart(p.key, q.key)
    ensures var first := Exec(p.key, p.clients, st, [Fetch], p1);
      var second := Exec(q.key, q.clients, first.store, [Fetch], q1);
      var first' := Exec(q.key, q.clients, st, [Fetch], q2);
      var second' := Exec(p.key, p.clients, first'.store, [Fetch], p2);
      first.status.Done? && second.status.Done? && first'.status.Done? && second'.status.Done? ==>
        SameButNamespacePolicy(second.store, second'.store)
  {
    NamesMakeApart(p, q, st);
    ApartPassesCommute(p, q, st, p1, q1, q2, p2);
  }
}
