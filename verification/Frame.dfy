/** What a normal pass does not touch, wherever it is cut off. */
module Frames {
  import opened Objects
  import opened Naming
  import opened Cluster
  import opened Machine
  import opened Effect
  import opened Passes

  /** A backup name that the plan does not want and that holds no backup of its migration. */
  ghost predicate Elsewhere(p: Plan, bs: map<NsName, Backup>, id: NsName) {
    id !in Desired(p.Wanted()) && (id in bs ==> !BelongsTo(p.key, id, bs[id]))
  }

  /** A policy name that the plan does not want. The namespace policy is among them once it exists. */
  ghost predicate PolicyElsewhere(p: Plan, ps: map<NsName, Policy>, pid: NsName) {
    pid !in DesiredPolicies(p.Wanted()) && (pid == NAMESPACE_POLICY ==> pid in ps)
  }

  ghost predicate Untouched(p: Plan, st: Store, now: Store) {
    && (forall id | Elsewhere(p, st.backups, id) :: Find(now.backups, id) == Find(st.backups, id))
    && (forall pid | PolicyElsewhere(p, st.policies, pid) :: Find(now.policies, pid) == Find(st.policies, pid))
  }

  lemma UntouchedTwice(p: Plan, a: Store, b: Store, c: Store)
    requires Untouched(p, a, b) && Untouched(p, b, c)
    ensures Untouched(p, a, c)
  {
    forall id | Elsewhere(p, a.backups, id) ensures Find(c.backups, id) == Find(a.backups, id) {
      assert Find(b.backups, id) == Find(a.backups, id);
      assert Elsewhere(p, b.backups, id);
    }
    forall pid | PolicyElsewhere(p, a.policies, pid) ensures Find(c.policies, pid) == Find(a.policies, pid) {
      assert Find(b.policies, pid) == Find(a.policies, pid);
      assert PolicyElsewhere(p, b.policies, pid);
    }
  }

  lemma SameUntouched(p: Plan, q: Plan, st: Store, now: Store)
    requires q.key == p.key && Desired(q.Wanted()) == Desired(p.Wanted())
    requires DesiredPolicies(q.Wanted()) == DesiredPolicies(p.Wanted())
    requires Untouched(q, st, now)
    ensures Untouched(p, st, now)
  {
    assert forall id :: Elsewhere(p, st.backups, id) ==> Elsewhere(q, st.backups, id);
    assert forall pid :: PolicyElsewhere(p, st.policies, pid) ==> PolicyElsewhere(q, st.policies, pid);
  }

  /** Some of the iterations desire no more than all of them. */
  lemma PrefixDesires(ws: seq<Want>, n: nat)
    requires n <= |ws|
    ensures Desired(ws[..n]).Keys <= Desired(ws).Keys
    ensures DesiredPolicies(ws[..n]).Keys <= DesiredPolicies(ws).Keys
  {
    assert ws == ws[..n] + ws[n..];
    UpsertsConcat(map[], ws[..n], ws[n..]);
    UpsertsAreOverlay(Desired(ws[..n]), ws[n..]);
    PolicyUpsertsConcat(map[], ws[..n], ws[n..]);
    PolicyUpsertsAreOverlay(DesiredPolicies(ws[..n]), ws[n..]);
  }

  lemma PrefixUntouchedBackups(p: Plan, bs: map<NsName, Backup>, n: nat, id: NsName)
    requires n <= |p.Wanted()| && id !in Desired(p.Wanted())
    ensures Find(UpsertBackups(bs, p.Wanted()[..n]), id) == Find(bs, id)
  {
    PrefixDesires(p.Wanted(), n);
    UpsertsAreOverlay(bs, p.Wanted()[..n]);
  }

  lemma PrefixUntouchedPolicies(p: Plan, ps: map<NsName, Policy>, n: nat, pid: NsName)
    requires n <= |p.Wanted()| && pid !in DesiredPolicies(p.Wanted())
    ensures Find(UpsertPolicies(ps, p.Wanted()[..n]), pid) == Find(ps, pid)
  {
    PrefixDesires(p.Wanted(), n);
    PolicyUpsertsAreOverlay(ps, p.Wanted()[..n]);
  }

  lemma WantsUntouched(p: Plan, st: Store, now: Store, n: nat)
    requires WantsCut(p.clients, st, p.Wanted(), now, n)
    ensures Untouched(p, st, now)
  {
    var half := now != AfterWants(p.clients, st, p.Wanted()[..n]);
    if half {
      HalfIteration(st.backups, p.Wanted(), n);
    }
    forall id | Elsewhere(p, st.backups, id) ensures Find(now.backups, id) == Find(st.backups, id) {
      PrefixUntouchedBackups(p, st.backups, if half then n + 1 else n, id);
    }
    forall pid | PolicyElsewhere(p, st.policies, pid) ensures Find(now.policies, pid) == Find(st.policies, pid) {
      PrefixUntouchedPolicies(p, st.policies, n, pid);
    }
  }

  lemma TailUntouched(p: Plan, st: Store, replies: seq<Reply>)
    ensures var tail := WantTasks(p.Wanted()) + [ListOrphans(p.Live())];
      Untouched(p, st, Exec(p.key, p.clients, st, tail, replies).store)
  {
    ExecSplit(p.key, p.clients, st, WantTasks(p.Wanted()), [ListOrphans(p.Live())], replies);
    var n := WantsRun(p.key, p.clients, st, p.Wanted(), replies);
    var r1 := Exec(p.key, p.clients, st, WantTasks(p.Wanted()), replies);
    WantsUntouched(p, st, r1.store, n);
    if r1.status.Done? {
      var gone := CleanupRun(p.key, p.clients, r1.store, p.Live(), r1.replies);
      UntouchedTwice(p, st, r1.store, Without(r1.store, gone));
    }
  }

  lemma CrdsUntouched(p: Plan, st: Store, replies: seq<Reply>)
    ensures var afterNamespace := CrdTasks(p.Clusters()) + (WantTasks(p.Wanted()) + [ListOrphans(p.Live())]);
      Untouched(p, st, Exec(p.key, p.clients, st, afterNamespace, replies).store)
  {
    var tail := WantTasks(p.Wanted()) + [ListOrphans(p.Live())];
    ExecSplit(p.key, p.clients, st, CrdTasks(p.Clusters()), tail, replies);
    var n := CrdsRun(p.key, p.clients, st, p.Clusters(), replies);
    var r1 := Exec(p.key, p.clients, st, CrdTasks(p.Clusters()), replies);
    if r1.status.Done? {
      TailUntouched(p, r1.store, r1.replies);
      UntouchedTwice(p, st, r1.store, Exec(p.key, p.clients, r1.store, tail, r1.replies).store);
    }
  }

  lemma NamespaceUntouched(p: Plan, st: Store, replies: seq<Reply>)
    ensures Untouched(p, st, Exec(p.key, p.clients, st, NamespaceTasks(p.Clusters()), replies).store)
  {
    NamespaceRun(p.key, p.clients, st, p.Clusters(), replies);
  }

  lemma BodyUntouched(p: Plan, st: Store, replies: seq<Reply>)
    ensures Untouched(p, st, Exec(p.key, p.clients, st, Body(p.key, p.migration.spec, p.pods), replies).store)
  {
    var afterNamespace := CrdTasks(p.Clusters()) + (WantTasks(p.Wanted()) + [ListOrphans(p.Live())]);
    ExecSplit(p.key, p.clients, st, NamespaceTasks(p.Clusters()), afterNamespace, replies);
    NamespaceUntouched(p, st, replies);
    var r1 := Exec(p.key, p.clients, st, NamespaceTasks(p.Clusters()), replies);
    if r1.status.Done? {
      CrdsUntouched(p, r1.store, r1.replies);
      UntouchedTwice(p, st, r1.store, Exec(p.key, p.clients, r1.store, afterNamespace, r1.replies).store);
    }
  }
}
