/** Crashes and faults do not matter: every normal pass, however it ends, leaves the goal of the
    cluster where it was, and a pass that gets through arrives there. */
module Convergence {
  import opened Objects
  import opened Naming
  import opened Cluster
  import opened Machine
  import opened Effect
  import opened Passes
  import opened Iterations
  import opened Frames

  /** The condition of convergence: no desired name is taken by a backup that the clean-up of the
      same pass would delete, that is, one labelled with this migration and with a pod that is gone. */
  ghost predicate Stable(p: Plan, bs: map<NsName, Backup>) {
    forall id | id in Desired(p.Wanted()) && id in bs :: id !in Orphans(p.key, p.Live(), bs)
  }

  // ----- The desired backups themselves are never orphans -----

  ghost predicate Alive(p: Plan, id: NsName, b: Backup) {
    BelongsTo(p.key, id, b) && !Dead(p.Live(), b)
  }

  lemma {:induction false} WantsAlive(p: Plan, clusters: seq<string>)
    ensures forall w | w in Wants(p.key, p.migration.spec, p.pods, clusters) :: Alive(p, w.id, w.backup)
  {
    if clusters != [] {
      WantsAlive(p, clusters[1..]);
      var on := WantsOn(p.key, p.migration.spec, p.pods, clusters[0]);
      forall w | w in on ensures Alive(p, w.id, w.backup) {
        var i :| 0 <= i < |on| && on[i] == w;
        assert p.pods[i].id.name in p.Live();
      }
    }
  }

  lemma {:induction false} DesiredAlive(p: Plan, ws: seq<Want>)
    requires forall w | w in ws :: Alive(p, w.id, w.backup)
    ensures forall id | id in Desired(ws) :: Alive(p, id, Desired(ws)[id])
    decreases |ws|
  {
    if ws != [] {
      var n := |ws| - 1;
      DesiredSnoc(ws);
      assert forall w | w in ws[..n] :: w in ws;
      DesiredAlive(p, ws[..n]);
      assert ws[n] in ws;
    }
  }

  lemma DesiredIsAlive(p: Plan, id: NsName)
    requires id in Desired(p.Wanted())
    ensures Alive(p, id, Desired(p.Wanted())[id])
  {
    WantsAlive(p, p.Clusters());
    DesiredAlive(p, p.Wanted());
  }

  // ----- Each kind of write keeps the goal of the backups -----

  lemma UpsertsKeepBackups(p: Plan, bs: map<NsName, Backup>, n: nat)
    requires n <= |p.Wanted()|
    ensures GoalBackups(p, UpsertBackups(bs, p.Wanted()[..n])) == GoalBackups(p, bs)
    ensures Stable(p, bs) ==> Stable(p, UpsertBackups(bs, p.Wanted()[..n]))
  {
    var ws := p.Wanted();
    assert ws == ws[..n] + ws[n..];
    OverlayAfterPrefix(bs, ws[..n], ws[n..]);
    if Stable(p, bs) {
      WantsAlive(p, p.Clusters());
      assert forall w | w in ws[..n] :: w in ws;
      DesiredAlive(p, ws[..n]);
      UpsertsAreOverlay(bs, ws[..n]);
      var now := UpsertBackups(bs, ws[..n]);
      forall id | id in Desired(ws) && id in now ensures id !in Orphans(p.key, p.Live(), now) {
        if id in bs {
          assert id !in Orphans(p.key, p.Live(), bs);
          assert now[id].labels == bs[id].labels;
        } else {
          assert now[id] == Desired(ws[..n])[id];
        }
      }
    }
  }

  lemma DeletesKeepBackups(p: Plan, bs: map<NsName, Backup>, gone: set<NsName>)
    requires Stable(p, bs) && gone <= Orphans(p.key, p.Live(), bs)
    ensures GoalBackups(p, bs - gone) == GoalBackups(p, bs)
    ensures Stable(p, bs - gone)
  {
    var d := Desired(p.Wanted());
    var l, r := Overlay(d, bs - gone), Overlay(d, bs);
    assert forall id | id in d :: id in bs <==> id in bs - gone;
    assert l == r - gone;
    assert forall id | id in gone :: id in Orphans(p.key, p.Live(), r);
    assert Cleaned(p.key, p.Live(), l) == Cleaned(p.key, p.Live(), r);
  }

  // ----- The phases keep the goal -----

  ghost predicate Keeps(p: Plan, st: Store, now: Store) {
    Goal(p, now) == Goal(p, st) && (Stable(p, st.backups) ==> Stable(p, now.backups))
  }

  /** What a normal pass leaves alone or only labels. */
  ghost predicate SameInputs(p: Plan, st: Store, now: Store) {
    && now.pods == st.pods
    && (now.workloads == st.workloads || now.workloads == Label(st, p.migration.spec).workloads)
    && (now.memberPods == st.memberPods || now.memberPods == Label(st, p.migration.spec).memberPods)
  }

  /** Discovery reads pods, selectors and pod details, but no label of a workload or member pod. */
  ghost predicate SameInfos(st: Store, now: Store) {
    && now.pods == st.pods
    && now.workloads.Keys == st.workloads.Keys
    && (forall id | id in st.workloads :: now.workloads[id].selector == st.workloads[id].selector)
    && now.memberPods.Keys == st.memberPods.Keys
    && (forall place | place in st.memberPods :: now.memberPods[place].info == st.memberPods[place].info)
  }

  lemma SameInputsSameInfos(p: Plan, st: Store, now: Store)
    requires SameInputs(p, st, now)
    ensures SameInfos(st, now)
  {
  }

  lemma NamespaceKeeps(p: Plan, st: Store)
    ensures var half := AfterNamespace(st);
      Keeps(p, st, half) && Keeps(p, st, AfterNamespacePolicy(p.clients, half, p.Clusters()))
  {
    assert st.namespaces + {MIGRATION_NAMESPACE} + {MIGRATION_NAMESPACE} == st.namespaces + {MIGRATION_NAMESPACE};
  }

  lemma CrdsKeep(p: Plan, st: Store, n: nat)
    requires n <= |p.Clusters()|
    ensures Keeps(p, st, AfterCrds(p.clients, st, p.Clusters()[..n]))
  {
    var all, some := ToSet(p.Clusters()), ToSet(p.Clusters()[..n]);
    assert some <= all;
    assert st.crds + some + all == st.crds + all;
  }

  lemma WantsKeepPolicies(p: Plan, ps: map<NsName, Policy>, n: nat)
    requires n <= |p.Wanted()| && p.clients.karmada && NAMESPACE_POLICY in ps
    ensures GoalPolicies(p, UpsertPolicies(ps, p.Wanted()[..n])) == GoalPolicies(p, ps)
    ensures NAMESPACE_POLICY in UpsertPolicies(ps, p.Wanted()[..n])
  {
    var ws := p.Wanted();
    assert ws == ws[..n] + ws[n..];
    OverlayPoliciesAfterPrefix(ps, ws[..n], ws[n..]);
    PolicyUpsertsAreOverlay(ps, ws[..n]);
  }

  lemma WantsKeep(p: Plan, st: Store, now: Store, n: nat)
    requires WantsCut(p.clients, st, p.Wanted(), now, n)
    requires p.clients.karmada ==> NAMESPACE_POLICY in st.policies
    ensures Keeps(p, st, now)
  {
    var ws := p.Wanted();
    if p.clients.karmada {
      WantsKeepPolicies(p, st.policies, n);
    }
    if now == AfterWants(p.clients, st, ws[..n]) {
      UpsertsKeepBackups(p, st.backups, n);
    } else {
      HalfIteration(st.backups, ws, n);
      UpsertsKeepBackups(p, st.backups, n + 1);
    }
  }

  lemma CleanupKeeps(p: Plan, st: Store, gone: set<NsName>)
    requires Stable(p, st.backups) && gone <= Orphans(p.key, p.Live(), st.backups)
    ensures Keeps(p, st, Without(st, gone))
  {
    DeletesKeepBackups(p, st.backups, gone);
  }

  // ----- The body of a pass -----

  ghost predicate BodyStart(p: Plan, st: Store) {
    p.key in st.migrations && st.migrations[p.key] == p.migration && Label(st, p.migration.spec) == st
  }

  function AfterBody(p: Plan, st: Store): Store {
    var a := AfterNamespacePolicy(p.clients, AfterNamespace(st), p.Clusters());
    var b := AfterWants(p.clients, AfterCrds(p.clients, a, p.Clusters()), p.Wanted());
    Without(b, Orphans(p.key, p.Live(), b.backups))
  }

  lemma LabelledAlready(p: Plan, st: Store)
    requires BodyStart(p, st)
    ensures LabelWorkloads(st.workloads, p.migration.spec) == st.workloads
    ensures LabelPods(st.memberPods, p.migration.spec) == st.memberPods
    ensures st.migrations[p.key := p.migration] == st.migrations
  {
    var now := Label(st, p.migration.spec);
    assert now.workloads == st.workloads && now.memberPods == st.memberPods;
  }

  lemma AfterWantsIsOverlay(cl: Clients, st: Store, ws: seq<Want>)
    ensures AfterWants(cl, st, ws).backups == Overlay(Desired(ws), st.backups)
    ensures AfterWants(cl, st, ws).policies ==
            if cl.karmada then OverlayPolicies(DesiredPolicies(ws), st.policies) else st.policies
  {
    UpsertsAreOverlay(st.backups, ws);
    PolicyUpsertsAreOverlay(st.policies, ws);
  }

  lemma AfterBodyMaps(p: Plan, st: Store)
    ensures AfterBody(p, st).backups == GoalBackups(p, st.backups)
    ensures AfterBody(p, st).policies == GoalPolicies(p, st.policies)
  {
    var a := AfterCrds(p.clients, AfterNamespacePolicy(p.clients, AfterNamespace(st), p.Clusters()), p.Clusters());
    AfterWantsIsOverlay(p.clients, a, p.Wanted());
  }

  lemma AfterBodyRest(p: Plan, st: Store)
    requires BodyStart(p, st)
    ensures var end, goal := AfterBody(p, st), Goal(p, st);
      end.(backups := goal.backups, policies := goal.policies) == goal
  {
    LabelledAlready(p, st);
  }

  /** Steps 3 to 6 in sequence have exactly the effect that the goal describes. */
  lemma AfterBodyIsGoal(p: Plan, st: Store)
    requires BodyStart(p, st)
    ensures AfterBody(p, st) == Goal(p, st)
  {
    AfterBodyMaps(p, st);
    AfterBodyRest(p, st);
  }

  lemma TailSteps(p: Plan, st: Store, replies: seq<Reply>)
    ensures var r := Exec(p.key, p.clients, st, WantTasks(p.Wanted()) + [ListOrphans(p.Live())], replies);
      var b := AfterWants(p.clients, st, p.Wanted());
      && (r.status.Done? ==> r.store == Without(b, Orphans(p.key, p.Live(), b.backups)))
      && r.store.(backups := st.backups, policies := st.policies) == st
  {
    ExecSplit(p.key, p.clients, st, WantTasks(p.Wanted()), [ListOrphans(p.Live())], replies);
    var n := WantsRun(p.key, p.clients, st, p.Wanted(), replies);
    var r1 := Exec(p.key, p.clients, st, WantTasks(p.Wanted()), replies);
    if r1.status.Done? {
      var gone := CleanupRun(p.key, p.clients, r1.store, p.Live(), r1.replies);
    }
  }

  lemma TailKeeps(p: Plan, st: Store, replies: seq<Reply>)
    requires p.clients.karmada ==> NAMESPACE_POLICY in st.policies
    requires Stable(p, st.backups)
    ensures Keeps(p, st, Exec(p.key, p.clients, st, WantTasks(p.Wanted()) + [ListOrphans(p.Live())], replies).store)
  {
    ExecSplit(p.key, p.clients, st, WantTasks(p.Wanted()), [ListOrphans(p.Live())], replies);
    var n := WantsRun(p.key, p.clients, st, p.Wanted(), replies);
    var r1 := Exec(p.key, p.clients, st, WantTasks(p.Wanted()), replies);
    WantsKeep(p, st, r1.store, n);
    if r1.status.Done? {
      var gone := CleanupRun(p.key, p.clients, r1.store, p.Live(), r1.replies);
      CleanupKeeps(p, r1.store, gone);
      KeepsTransitive(p, st, r1.store, Without(r1.store, gone));
    }
  }

  lemma CrdsAndTailSteps(p: Plan, st: Store, replies: seq<Reply>)
    ensures var tail := WantTasks(p.Wanted()) + [ListOrphans(p.Live())];
      var r := Exec(p.key, p.clients, st, CrdTasks(p.Clusters()) + tail, replies);
      var b := AfterWants(p.clients, AfterCrds(p.clients, st, p.Clusters()), p.Wanted());
      && (r.status.Done? ==> r.store == Without(b, Orphans(p.key, p.Live(), b.backups)))
      && r.store.(backups := st.backups, policies := st.policies, crds := st.crds) == st
  {
    var tail := WantTasks(p.Wanted()) + [ListOrphans(p.Live())];
    ExecSplit(p.key, p.clients, st, CrdTasks(p.Clusters()), tail, replies);
    var n := CrdsRun(p.key, p.clients, st, p.Clusters(), replies);
    var r1 := Exec(p.key, p.clients, st, CrdTasks(p.Clusters()), replies);
    if r1.status.Done? {
      TailSteps(p, r1.store, r1.replies);
    }
  }

  lemma CrdsAndTailKeep(p: Plan, st: Store, replies: seq<Reply>)
    requires p.clients.karmada ==> NAMESPACE_POLICY in st.policies
    requires Stable(p, st.backups)
    ensures var tail := WantTasks(p.Wanted()) + [ListOrphans(p.Live())];
      Keeps(p, st, Exec(p.key, p.clients, st, CrdTasks(p.Clusters()) + tail, replies).store)
  {
    var tail := WantTasks(p.Wanted()) + [ListOrphans(p.Live())];
    ExecSplit(p.key, p.clients, st, CrdTasks(p.Clusters()), tail, replies);
    var n := CrdsRun(p.key, p.clients, st, p.Clusters(), replies);
    CrdsKeep(p, st, n);
    var r1 := Exec(p.key, p.clients, st, CrdTasks(p.Clusters()), replies);
    if r1.status.Done? {
      TailKeeps(p, r1.store, r1.replies);
      KeepsTransitive(p, st, r1.store, Exec(p.key, p.clients, r1.store, tail, r1.replies).store);
    }
  }

  lemma KeepsTransitive(p: Plan, a: Store, b: Store, c: Store)
    requires Stable(p, a.backups) && Keeps(p, a, b) && Keeps(p, b, c)
    ensures Keeps(p, a, c)
  {
  }

  lemma BodySteps(p: Plan, st: Store, replies: seq<Reply>)
    ensures var r := Exec(p.key, p.clients, st, Body(p.key, p.migration.spec, p.pods), replies);
      && (r.status.Done? ==> r.store == AfterBody(p, st))
      && r.store.(backups := st.backups, policies := st.policies, crds := st.crds, namespaces := st.namespaces) == st
  {
    var afterNamespace := CrdTasks(p.Clusters()) + (WantTasks(p.Wanted()) + [ListOrphans(p.Live())]);
    ExecSplit(p.key, p.clients, st, NamespaceTasks(p.Clusters()), afterNamespace, replies);
    NamespaceRun(p.key, p.clients, st, p.Clusters(), replies);
    var r1 := Exec(p.key, p.clients, st, NamespaceTasks(p.Clusters()), replies);
    if r1.status.Done? {
      CrdsAndTailSteps(p, r1.store, r1.replies);
    }
  }

  lemma BodyKeeps(p: Plan, st: Store, replies: seq<Reply>)
    requires Stable(p, st.backups)
    ensures Keeps(p, st, Exec(p.key, p.clients, st, Body(p.key, p.migration.spec, p.pods), replies).store)
  {
    var afterNamespace := CrdTasks(p.Clusters()) + (WantTasks(p.Wanted()) + [ListOrphans(p.Live())]);
    ExecSplit(p.key, p.clients, st, NamespaceTasks(p.Clusters()), afterNamespace, replies);
    NamespaceRun(p.key, p.clients, st, p.Clusters(), replies);
    NamespaceKeeps(p, st);
    var r1 := Exec(p.key, p.clients, st, NamespaceTasks(p.Clusters()), replies);
    assert Keeps(p, st, r1.store);
    if r1.status.Done? {
      CrdsAndTailKeep(p, r1.store, r1.replies);
      KeepsTransitive(p, st, r1.store, Exec(p.key, p.clients, r1.store, afterNamespace, r1.replies).store);
    }
  }

  lemma BodyRun(p: Plan, st: Store, replies: seq<Reply>)
    requires BodyStart(p, st)
    ensures var r := Exec(p.key, p.clients, st, Body(p.key, p.migration.spec, p.pods), replies);
      && (r.status.Done? ==> r.store == Goal(p, st))
      && (Stable(p, st.backups) ==> Keeps(p, st, r.store))
      && SameInputs(p, st, r.store) && r.store.migrations == st.migrations
  {
    BodySteps(p, st, replies);
    AfterBodyIsGoal(p, st);
    if Stable(p, st.backups) {
      BodyKeeps(p, st, replies);
    }
  }

  // ----- The whole pass -----

  function WithFinalizerIn(st: Store, key: NsName): Store
    requires key in st.migrations
  {
    st.(migrations := st.migrations[key := WithFinalizer(st.migrations[key])])
  }

  lemma OpeningRun(key: NsName, cl: Clients, st: Store, replies: seq<Reply>) returns (left: seq<Reply>)
    requires key in st.migrations && !st.migrations[key].deleting
    ensures var r := Exec(key, cl, st, [Fetch], replies);
      var m := st.migrations[key];
      || (r.status.Failed? && (r.store == st || r.store == WithFinalizerIn(st, key)))
      || r == Exec(key, cl, WithFinalizerIn(st, key), NormalProgram(key, WithFinalizer(m)), left)
  {
    left := replies;
    var m := st.migrations[key];
    ExecOne(key, cl, st, Fetch, replies);
    if replies != [] && replies[0].Answer? {
      left := replies[1..];
      if FINALIZER in m.finalizers {
        assert WithFinalizer(m) == m by { assert m.finalizers + {FINALIZER} == m.finalizers; }
        assert WithFinalizerIn(st, key) == st;
      } else {
        ExecOne(key, cl, st, AddFinalizer(m), replies[1..]);
        if |replies| > 1 && replies[1].Answer? {
          left := replies[1..][1..];
        }
      }
    }
  }

  lemma {:induction false} ProbeSameInfo(
    a: map<MemberPodId, Pod>, b: map<MemberPodId, Pod>, clusters: seq<string>, pod: NsName)
    requires a.Keys == b.Keys && forall place | place in a :: a[place].info == b[place].info
    ensures Probe(a, clusters, pod) == Probe(b, clusters, pod)
  {
    if clusters != [] {
      ProbeSameInfo(a, b, clusters[1..], pod);
    }
  }

  /** What can be discovered does not depend on the labels that a pass writes. */
  lemma DiscoveredSame(spec: MigrationSpec, st: Store, now: Store, pods: seq<PodInfo>)
    requires SameInfos(st, now)
    ensures Discovered(now, spec, pods) <==> Discovered(st, spec, pods)
  {
    var ref := spec.resourceRef;
    match KindOf(ref)
    case WorkloadTarget(kind) =>
      var id := WorkloadId(kind, RefId(ref));
      assert (id in now.workloads <==> id in st.workloads);
      if id in st.workloads && st.workloads[id].selector.Parsed? {
        var selector := st.workloads[id].selector;
        assert now.workloads[id].selector == selector;
        assert SelectedPods(now, ref.ns, selector) == SelectedPods(st, ref.ns, selector);
        assert forall listing :: ListedPods(now, ref.ns, selector, listing, pods)
                            <==> ListedPods(st, ref.ns, selector, listing, pods);
      }
    case PodTarget =>
      ProbeSameInfo(st.memberPods, now.memberPods, spec.sourceClusters, RefId(ref));
    case Unsupported =>
  }

  /** The plan is about the migration as the pass finds it, with the finalizer added. */
  ghost predicate PlanFor(p: Plan, st: Store) {
    && p.key in st.migrations && !st.migrations[p.key].deleting
    && p.migration == WithFinalizer(st.migrations[p.key])
  }

  lemma StartKeeps(p: Plan, st: Store)
    requires PlanFor(p, st)
    ensures var a := WithFinalizerIn(st, p.key);
      Keeps(p, st, a) && Keeps(p, st, Label(a, p.migration.spec)) && BodyStart(p, Label(a, p.migration.spec))
    ensures Goal(p, Label(WithFinalizerIn(st, p.key), p.migration.spec)) == Goal(p, st)
  {
    var a := WithFinalizerIn(st, p.key);
    LabelTwice(st, p.migration.spec);
    LabelTwice(a, p.migration.spec);
  }

  /** A pass either fails before it knows its pods, having at most added the finalizer and the
      target label, or it discovers pods and carries out the body for them. */
  ghost predicate Early(p: Plan, st: Store, r: Run)
    requires p.key in st.migrations
  {
    var a := WithFinalizerIn(st, p.key);
    r.status.Failed? && (r.store == st || r.store == a || r.store == Label(a, p.migration.spec))
  }

  ghost predicate CarriedOut(p: Plan, st: Store, r: Run)
    requires p.key in st.migrations
  {
    && Discovered(st, p.migration.spec, p.pods)
    && (r.status.Done? ==> r.store == Goal(p, st))
    && (Stable(p, st.backups) ==> Keeps(p, st, r.store))
    && SameInputs(p, st, r.store) && r.store.migrations == WithFinalizerIn(st, p.key).migrations
    && Untouched(p, st, r.store)
  }

  /** From the label on: discovery, and the body for the pods that it finds. */
  lemma PassFromDiscovery(p: Plan, st: Store, replies: seq<Reply>) returns (q: Plan)
    requires PlanFor(p, st)
    ensures q == p.(pods := q.pods)
    ensures var b := Label(WithFinalizerIn(st, p.key), p.migration.spec);
      var r := Exec(p.key, p.clients, b, DiscoverTasks(p.key, p.migration), replies);
      Early(q, st, r) || CarriedOut(q, st, r)
  {
    q := p;
    var spec := p.migration.spec;
    var b := Label(WithFinalizerIn(st, p.key), spec);
    var pods, left := DiscoverRun(p.key, p.clients, b, p.migration, replies);
    if Discovered(b, spec, pods) {
      q := p.(pods := pods);
      BodyCarriesOut(q, st, left);
    }
  }

  lemma BodyCarriesOut(p: Plan, st: Store, replies: seq<Reply>)
    requires PlanFor(p, st)
    requires Discovered(Label(WithFinalizerIn(st, p.key), p.migration.spec), p.migration.spec, p.pods)
    ensures var b := Label(WithFinalizerIn(st, p.key), p.migration.spec);
      CarriedOut(p, st, Exec(p.key, p.clients, b, Body(p.key, p.migration.spec, p.pods), replies))
  {
    var b := Label(WithFinalizerIn(st, p.key), p.migration.spec);
    SameInputsSameInfos(p, st, b);
    DiscoveredSame(p.migration.spec, st, b, p.pods);
    StartKeeps(p, st);
    BodyRun(p, b, replies);
    BodyUntouched(p, b, replies);
  }

  lemma PassFromLabel(p: Plan, st: Store, replies: seq<Reply>) returns (q: Plan)
    requires PlanFor(p, st)
    ensures q == p.(pods := q.pods)
    ensures var r := Exec(p.key, p.clients, WithFinalizerIn(st, p.key), NormalProgram(p.key, p.migration), replies);
      Early(q, st, r) || CarriedOut(q, st, r)
  {
    q := p;
    var spec, a := p.migration.spec, WithFinalizerIn(st, p.key);
    ExecSplit(p.key, p.clients, a, [LabelTask(spec)], DiscoverTasks(p.key, p.migration), replies);
    LabelRun(p.key, p.clients, a, spec, replies);
    var r1 := Exec(p.key, p.clients, a, [LabelTask(spec)], replies);
    if r1.status.Done? {
      q := PassFromDiscovery(p, st, r1.replies);
    }
  }

  /** The exact effect of a normal pass: when it gets through, the store is the goal for the pods
      that it discovered, for arbitrary pod and cluster lists with duplicates and collisions; and
      however it ends, everything but the desired objects and its own orphans is untouched. */
  lemma NormalPass(key: NsName, cl: Clients, st: Store, replies: seq<Reply>) returns (p: Plan)
    requires key in st.migrations && !st.migrations[key].deleting
    ensures p == Plan(key, cl, WithFinalizer(st.migrations[key]), p.pods)
    ensures var r := Exec(key, cl, st, [Fetch], replies);
      Early(p, st, r) || CarriedOut(p, st, r)
  {
    p := Plan(key, cl, WithFinalizer(st.migrations[key]), []);
    var left := OpeningRun(key, cl, st, replies);
    if Exec(key, cl, st, [Fetch], replies)
       == Exec(key, cl, WithFinalizerIn(st, key), NormalProgram(key, p.migration), left) {
      p := PassFromLabel(p, st, left);
    }
  }

  /** `p` is the plan of a normal pass that starts now, for pods that it can discover. */
  ghost predicate Fits(p: Plan, st: Store) {
    PlanFor(p, st) && Discovered(st, p.migration.spec, p.pods) && KeyedPods(st)
  }

  lemma SameGoal(p: Plan, q: Plan, st: Store)
    requires q == p.(pods := q.pods) && SameWants(p, q.pods)
    ensures Goal(q, st) == Goal(p, st)
    ensures Stable(q, st.backups) <==> Stable(p, st.backups)
  {
  }

  lemma FitsAfter(p: Plan, st: Store, now: Store)
    requires Fits(p, st) && SameInfos(st, now)
    requires p.key in now.migrations
    requires now.migrations[p.key] == st.migrations[p.key] || now.migrations[p.key] == p.migration
    ensures Fits(p, now)
  {
    DiscoveredSame(p.migration.spec, st, now, p.pods);
    assert WithFinalizer(p.migration) == p.migration;
  }

  /** What is carried out for the pods that one pass discovers is carried out for those of any other. */
  lemma CarriedOutByAny(p: Plan, q: Plan, st: Store, r: Run)
    requires Fits(p, st) && q == p.(pods := q.pods) && CarriedOut(q, st, r)
    ensures CarriedOut(p, st, r)
  {
    AnyDiscovery(p, st, q.pods);
    SameGoal(p, q, st);
    SameGoal(p, q, r.store);
    SameUntouched(p, q, st, r.store);
  }

  /** The heart of convergence: a normal pass with any replies, cut off anywhere, with writes that
      fail or that fail although they took effect, keeps the goal of the cluster; and when it gets
      through, the cluster is at the goal. The pods may be listed in any order and names may collide. */
  lemma PassKeepsGoal(p: Plan, st: Store, replies: seq<Reply>)
    requires Fits(p, st)
    ensures var r := Exec(p.key, p.clients, st, [Fetch], replies);
      && (r.status.Done? ==> r.store == Goal(p, st))
      && (Stable(p, st.backups) ==> Keeps(p, st, r.store))
      && Fits(p, r.store) && SameInputs(p, st, r.store) && Untouched(p, st, r.store)
  {
    var r := Exec(p.key, p.clients, st, [Fetch], replies);
    var q := NormalPass(p.key, p.clients, st, replies);
    StartKeeps(p, st);
    if CarriedOut(q, st, r) {
      CarriedOutByAny(p, q, st, r);
    }
    SameInputsSameInfos(p, st, r.store);
    FitsAfter(p, st, r.store);
  }

  // ----- Main results -----

  /** The stores after a sequence of passes, each with its own faults. */
  function PassAll(key: NsName, cl: Clients, st: Store, scripts: seq<seq<Reply>>): Store
    decreases |scripts|
  {
    if scripts == [] then st
    else Exec(key, cl, PassAll(key, cl, st, scripts[..|scripts| - 1]), [Fetch], scripts[|scripts| - 1]).store
  }

  lemma {:induction false} PassAllKeepsGoal(p: Plan, st: Store, scripts: seq<seq<Reply>>)
    requires Fits(p, st) && Stable(p, st.backups)
    ensures Fits(p, PassAll(p.key, p.clients, st, scripts))
    ensures Keeps(p, st, PassAll(p.key, p.clients, st, scripts))
    decreases |scripts|
  {
    if scripts != [] {
      var front := scripts[..|scripts| - 1];
      PassAllKeepsGoal(p, st, front);
      PassKeepsGoal(p, PassAll(p.key, p.clients, st, front), scripts[|scripts| - 1]);
    }
  }

  /** Crash-restart convergence: after any number of passes cut off anywhere, one successful pass
      ends in the same store as a successful pass would have from the start. */
  lemma CrashRestartConvergence(p: Plan, st: Store, scripts: seq<seq<Reply>>, last: seq<Reply>, alone: seq<Reply>)
    requires Fits(p, st) && Stable(p, st.backups)
    ensures var late := Exec(p.key, p.clients, PassAll(p.key, p.clients, st, scripts), [Fetch], last);
      var early := Exec(p.key, p.clients, st, [Fetch], alone);
      late.status.Done? && early.status.Done? ==> late.store == early.store
  {
    PassAllKeepsGoal(p, st, scripts);
    PassKeepsGoal(p, PassAll(p.key, p.clients, st, scripts), last);
    PassKeepsGoal(p, st, alone);
  }

  /** Whatever passes come first and however they end, a successful one leads to the same store. */
  ghost predicate Converges(p: Plan, st: Store) {
    forall scripts: seq<seq<Reply>>, last: seq<Reply>, alone: seq<Reply> :: SameEnd(p, st, scripts, last, alone)
  }

  ghost predicate SameEnd(p: Plan, st: Store, scripts: seq<seq<Reply>>, last: seq<Reply>, alone: seq<Reply>) {
    var late := Exec(p.key, p.clients, PassAll(p.key, p.clients, st, scripts), [Fetch], last);
    var early := Exec(p.key, p.clients, st, [Fetch], alone);
    late.status.Done? && early.status.Done? ==> late.store == early.store
  }

  lemma GoalTwice(p: Plan, st: Store)
    requires !Stable(p, st.backups)
    ensures Goal(p, Goal(p, st)) != Goal(p, st)
  {
    var d := Desired(p.Wanted());
    var id :| id in d && id in st.backups && id in Orphans(p.key, p.Live(), st.backups);
    var once := GoalBackups(p, st.backups);
    assert id in Orphans(p.key, p.Live(), Overlay(d, st.backups));
    assert id !in once;
    WantsAlive(p, p.Clusters());
    DesiredAlive(p, p.Wanted());
    assert Overlay(d, once)[id] == d[id];
    assert id in GoalBackups(p, once);
  }

  /** Stability is exactly what idempotence needs: a second successful pass leaves the store as the
      first one left it if and only if no desired name was taken by a dead backup of the migration. */
  lemma IdempotentIffStable(p: Plan, st: Store, first: seq<Reply>, second: seq<Reply>)
    requires Fits(p, st)
    requires Exec(p.key, p.clients, st, [Fetch], first).status.Done?
    requires Exec(p.key, p.clients, Exec(p.key, p.clients, st, [Fetch], first).store, [Fetch], second).status.Done?
    ensures var once := Exec(p.key, p.clients, st, [Fetch], first).store;
      Exec(p.key, p.clients, once, [Fetch], second).store == once <==> Stable(p, st.backups)
  {
    var once := Exec(p.key, p.clients, st, [Fetch], first).store;
    PassKeepsGoal(p, st, first);
    PassKeepsGoal(p, once, second);
    if !Stable(p, st.backups) {
      GoalTwice(p, st);
    }
  }
}
