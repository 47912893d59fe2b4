/** Delete passes: their exact effect, their progress under faults, and what a whole life of a
    migration leaves behind. */
module Deletion {
  import opened Objects
  import opened Naming
  import opened Cluster
  import opened Machine
  import opened Effect
  import opened Passes
  import opened Convergence

  // ----- Removing the target label -----

  function UnlabelWorkloads(ws: map<WorkloadId, Workload>, spec: MigrationSpec): map<WorkloadId, Workload> {
    var kind := KindOf(spec.resourceRef);
    if kind.WorkloadTarget? && WorkloadId(kind.kind, RefId(spec.resourceRef)) in ws then
      var id := WorkloadId(kind.kind, RefId(spec.resourceRef));
      ws[id := ws[id].(labels := Unlabelled(ws[id].labels))]
    else ws
  }

  function UnlabelOn(ps: map<MemberPodId, Pod>, clusters: set<string>, pod: NsName): map<MemberPodId, Pod> {
    map place | place in ps ::
      if place.cluster in clusters && place.id == pod
      then ps[place].(labels := Unlabelled(ps[place].labels)) else ps[place]
  }

  function UnlabelMemberPods(cl: Clients, ps: map<MemberPodId, Pod>, spec: MigrationSpec): map<MemberPodId, Pod> {
    if KindOf(spec.resourceRef).PodTarget? && cl.member
    then UnlabelOn(ps, ToSet(spec.sourceClusters), RefId(spec.resourceRef)) else ps
  }

  function Unlabel(cl: Clients, st: Store, spec: MigrationSpec): Store {
    st.(workloads := UnlabelWorkloads(st.workloads, spec),
        memberPods := UnlabelMemberPods(cl, st.memberPods, spec))
  }

  function UnlabelPodsIn(st: Store, clusters: set<string>, pod: NsName): Store {
    st.(memberPods := UnlabelOn(st.memberPods, clusters, pod))
  }

  ghost predicate OnlyUnavailable(r: Run) {
    r.status.Failed? ==> r.status.error == Unavailable
  }

  lemma UnlabelOnePodRun(key: NsName, cl: Clients, st: Store, cluster: string, pod: NsName, replies: seq<Reply>)
    requires cl.member
    ensures var r := Exec(key, cl, st, [UnlabelPod(MemberPodId(cluster, pod))], replies);
      var done := UnlabelPodsIn(st, {cluster}, pod);
      (r.status.Done? ==> r.store == done) && (r.store == st || r.store == done) && OnlyUnavailable(r)
  {
    var place := MemberPodId(cluster, pod);
    ExecOne(key, cl, st, UnlabelPod(place), replies);
    if place in st.memberPods {
      var before := st.memberPods[place];
      var after := before.(labels := Unlabelled(before.labels));
      assert st.memberPods[place := after] == UnlabelOn(st.memberPods, {cluster}, pod);
      if replies != [] {
        ExecOne(key, cl, st, PutPod(place, before, after), replies[1..]);
      }
    } else {
      assert st.memberPods == UnlabelOn(st.memberPods, {cluster}, pod);
    }
  }

  lemma UnlabelOnTwice(ps: map<MemberPodId, Pod>, a: set<string>, b: set<string>, pod: NsName)
    ensures UnlabelOn(UnlabelOn(ps, a, pod), b, pod) == UnlabelOn(ps, a + b, pod)
  {
    assert forall labels: Labels :: Unlabelled(Unlabelled(labels)) == Unlabelled(labels);
  }

  /** A cut-off removal has unlabelled the pods of some of the clusters. */
  lemma {:induction false} UnlabelPodsRun(
    key: NsName, cl: Clients, st: Store, clusters: seq<string>, pod: NsName, replies: seq<Reply>)
    returns (done: set<string>)
    requires cl.member
    ensures var r := Exec(key, cl, st, UnlabelPods(clusters, pod), replies);
      && r.store == UnlabelPodsIn(st, done, pod) && done <= ToSet(clusters)
      && (r.status.Done? ==> done == ToSet(clusters)) && OnlyUnavailable(r)
    decreases |clusters|
  {
    done := {};
    assert UnlabelOn(st.memberPods, {}, pod) == st.memberPods;
    if clusters != [] {
      var c, rest := clusters[0], clusters[1..];
      assert ToSet(clusters) == {c} + ToSet(rest) by { assert clusters == [c] + rest; }
      ExecSplit(key, cl, st, [UnlabelPod(MemberPodId(c, pod))], UnlabelPods(rest, pod), replies);
      UnlabelOnePodRun(key, cl, st, c, pod, replies);
      var r1 := Exec(key, cl, st, [UnlabelPod(MemberPodId(c, pod))], replies);
      if r1.status.Done? {
        var more := UnlabelPodsRun(key, cl, r1.store, rest, pod, r1.replies);
        UnlabelOnTwice(st.memberPods, {c}, more, pod);
        done := {c} + more;
      } else if r1.store != st {
        done := {c};
      }
    }
  }

  lemma UnlabelWorkloadRun(key: NsName, cl: Clients, st: Store, id: WorkloadId, replies: seq<Reply>)
    ensures var r := Exec(key, cl, st, [UnlabelWorkload(id)], replies);
      var done := if id in st.workloads
                  then st.workloads[id := st.workloads[id].(labels := Unlabelled(st.workloads[id].labels))]
                  else st.workloads;
      && (r.status.Done? ==> r.store == st.(workloads := done)) && OnlyUnavailable(r)
      && r.store.(workloads := st.workloads) == st
  {
    ExecOne(key, cl, st, UnlabelWorkload(id), replies);
    if replies != [] && id in st.workloads {
      var w := st.workloads[id];
      ExecOne(key, cl, st, PutWorkload(id, w, w.(labels := Unlabelled(w.labels))), replies[1..]);
    }
  }

  lemma UnlabelRun(key: NsName, cl: Clients, st: Store, spec: MigrationSpec, replies: seq<Reply>)
    ensures var r := Exec(key, cl, st, UnlabelTasks(spec), replies);
      && (r.status.Done? ==> r.store == Unlabel(cl, st, spec))
      && r.store.(workloads := st.workloads, memberPods := st.memberPods) == st
      && (!KindOf(spec.resourceRef).Unsupported? ==> OnlyUnavailable(r))
      && (KindOf(spec.resourceRef).Unsupported? ==> r == Run(st, replies, Failed(UnsupportedKind)))
  {
    match KindOf(spec.resourceRef)
    case WorkloadTarget(kind) =>
      UnlabelWorkloadRun(key, cl, st, WorkloadId(kind, RefId(spec.resourceRef)), replies);
    case PodTarget =>
      if cl.member {
        var done := UnlabelPodsRun(key, cl, st, spec.sourceClusters, RefId(spec.resourceRef), replies);
      } else {
        UnlabelPodsSkipped(key, cl, st, spec.sourceClusters, RefId(spec.resourceRef), replies);
      }
    case Unsupported =>
      ExecOne(key, cl, st, RejectKind, replies);
  }

  // ----- Deleting the backups and the finalizer -----

  lemma DeleteAllRun(key: NsName, cl: Clients, st: Store, replies: seq<Reply>) returns (gone: set<NsName>)
    ensures var r := Exec(key, cl, st, [ListAll], replies);
      && gone <= Selected(key, st.backups) && r.store == Without(st, gone)
      && (r.status.Done? ==> gone == Selected(key, st.backups)) && OnlyUnavailable(r)
  {
    ExecOne(key, cl, st, ListAll, replies);
    gone := {};
    assert st.backups - {} == st.backups;
    if replies != [] && replies[0].Answer? && Enumerates(replies[0].listing, Selected(key, st.backups)) {
      gone := DeletesRun(key, cl, st, replies[0].listing, replies[1..]);
    }
  }

  function Released(st: Store, key: NsName): Store
    requires key in st.migrations
  {
    PutMigration(st, key, WithoutFinalizer(st.migrations[key]))
  }

  lemma ReleaseRun(key: NsName, cl: Clients, st: Store, m: Migration, replies: seq<Reply>)
    requires key in st.migrations && st.migrations[key] == m
    ensures var r := Exec(key, cl, st, [RemoveFinalizer(m)], replies);
      && (r.status.Done? ==> r.store == Released(st, key))
      && (r.store == st || r.store == Released(st, key)) && OnlyUnavailable(r)
  {
    ExecOne(key, cl, st, RemoveFinalizer(m), replies);
    assert WithoutFinalizer(m).finalizers <= m.finalizers;
  }

  /** The effect of a complete delete pass. */
  function Deleted(key: NsName, cl: Clients, st: Store): Store
    requires key in st.migrations
  {
    Released(Without(Unlabel(cl, st, st.migrations[key].spec), Selected(key, st.backups)), key)
  }

  lemma ReadyToDelete(key: NsName, cl: Clients, st: Store, replies: seq<Reply>)
    requires key in st.migrations && st.migrations[key].deleting && FINALIZER in st.migrations[key].finalizers
    ensures var r := Exec(key, cl, st, [Fetch], replies);
      || (r.store == st && r.status == Failed(Unavailable))
      || (replies != [] && r == Exec(key, cl, st, DeleteProgram(st.migrations[key]), replies[1..]))
  {
    ExecOne(key, cl, st, Fetch, replies);
  }

  /** A cut-off delete pass has only deleted m-backups, and it still has the finalizer unless all of
      them are gone. */
  ghost predicate DeleteCut(key: NsName, st: Store, now: Store, gone: set<NsName>) {
    && key in st.migrations
    && gone <= Selected(key, st.backups) && now.backups == st.backups - gone
    && (now.migrations == st.migrations ||
        (gone == Selected(key, st.backups) && now.migrations == Released(st, key).migrations))
    && now.policies == st.policies && now.crds == st.crds
  }

  lemma ReleaseAfterDelete(key: NsName, cl: Clients, st: Store, m: Migration, replies: seq<Reply>)
    returns (gone: set<NsName>)
    requires key in st.migrations && st.migrations[key] == m
    ensures var r := Exec(key, cl, st, [ListAll, RemoveFinalizer(m)], replies);
      && gone <= Selected(key, st.backups) && OnlyUnavailable(r)
      && (r.store == Without(st, gone) ||
          (gone == Selected(key, st.backups) && r.store == Released(Without(st, gone), key)))
      && (r.status.Done? ==>
          gone == Selected(key, st.backups) && r.store == Released(Without(st, gone), key))
  {
    assert [ListAll, RemoveFinalizer(m)] == [ListAll] + [RemoveFinalizer(m)];
    ExecSplit(key, cl, st, [ListAll], [RemoveFinalizer(m)], replies);
    gone := DeleteAllRun(key, cl, st, replies);
    var r1 := Exec(key, cl, st, [ListAll], replies);
    if r1.status.Done? {
      ReleaseRun(key, cl, r1.store, m, r1.replies);
    }
  }

  lemma UnlabelKeepsTheRest(key: NsName, cl: Clients, st: Store, now: Store, gone: set<NsName>)
    requires key in st.migrations && now.(workloads := st.workloads, memberPods := st.memberPods) == st
    ensures Selected(key, now.backups) == Selected(key, st.backups)
    ensures gone <= Selected(key, st.backups) ==> DeleteCut(key, st, Without(now, gone), gone)
    ensures gone == Selected(key, st.backups) ==> DeleteCut(key, st, Released(Without(now, gone), key), gone)
    ensures gone == Selected(key, st.backups) ==> Selected(key, st.backups - gone) == {}
  {
  }

  lemma DeleteProgramRun(key: NsName, cl: Clients, st: Store, replies: seq<Reply>) returns (gone: set<NsName>)
    requires key in st.migrations && st.migrations[key].deleting && FINALIZER in st.migrations[key].finalizers
    ensures var r := Exec(key, cl, st, DeleteProgram(st.migrations[key]), replies);
      && DeleteCut(key, st, r.store, gone)
      && (r.status.Done? ==> r.store == Deleted(key, cl, st) && Selected(key, r.store.backups) == {})
      && (!KindOf(st.migrations[key].spec.resourceRef).Unsupported? ==> OnlyUnavailable(r))
  {
    gone := {};
    assert st.backups - {} == st.backups;
    var m := st.migrations[key];
    ExecSplit(key, cl, st, UnlabelTasks(m.spec), [ListAll, RemoveFinalizer(m)], replies);
    UnlabelRun(key, cl, st, m.spec, replies);
    var r1 := Exec(key, cl, st, UnlabelTasks(m.spec), replies);
    if r1.status.Done? {
      gone := ReleaseAfterDelete(key, cl, r1.store, m, r1.replies);
      UnlabelKeepsTheRest(key, cl, st, r1.store, gone);
    }
  }

  /** Deletion progress: a delete pass never adds a backup and never gives up the finalizer before the
      last m-backup is gone. When it gets through no m-backup is left, the target is unlabelled and the
      finalizer is gone; and only an outage keeps it from that, if the kind is a supported one. */
  lemma DeletePass(key: NsName, cl: Clients, st: Store, replies: seq<Reply>) returns (gone: set<NsName>)
    requires key in st.migrations && st.migrations[key].deleting && FINALIZER in st.migrations[key].finalizers
    ensures var r := Exec(key, cl, st, [Fetch], replies);
      && DeleteCut(key, st, r.store, gone)
      && (r.status.Done? ==> r.store == Deleted(key, cl, st) && Selected(key, r.store.backups) == {})
      && (!KindOf(st.migrations[key].spec.resourceRef).Unsupported? ==> OnlyUnavailable(r))
  {
    gone := {};
    assert st.backups - {} == st.backups;
    ReadyToDelete(key, cl, st, replies);
    if replies != [] && Exec(key, cl, st, [Fetch], replies)
                     == Exec(key, cl, st, DeleteProgram(st.migrations[key]), replies[1..]) {
      gone := DeleteProgramRun(key, cl, st, replies[1..]);
    }
  }

  /** A migration of an unsupported kind is never released: every pass fails before it deletes. */
  lemma UnsupportedKindIsStuck(key: NsName, cl: Clients, st: Store, replies: seq<Reply>)
    requires key in st.migrations && st.migrations[key].deleting && FINALIZER in st.migrations[key].finalizers
    requires KindOf(st.migrations[key].spec.resourceRef).Unsupported?
    ensures Exec(key, cl, st, [Fetch], replies).store == st
    ensures Exec(key, cl, st, [Fetch], replies).status.Failed?
  {
    ReadyToDelete(key, cl, st, replies);
    var m := st.migrations[key];
    if replies != [] {
      ExecSplit(key, cl, st, UnlabelTasks(m.spec), [ListAll, RemoveFinalizer(m)], replies[1..]);
      UnlabelRun(key, cl, st, m.spec, replies[1..]);
    }
  }

  // ----- Label round trip -----

  lemma UnlabelAfterLabel(p: Plan, cl: Clients, st: Store, now: Store)
    requires SameInputs(p, st, now)
    ensures UnlabelWorkloads(now.workloads, p.migration.spec) == UnlabelWorkloads(st.workloads, p.migration.spec)
    ensures (KindOf(p.migration.spec.resourceRef).PodTarget? && !cl.member ==> now.memberPods == st.memberPods) ==>
      UnlabelMemberPods(cl, now.memberPods, p.migration.spec) == UnlabelMemberPods(cl, st.memberPods, p.migration.spec)
  {
    assert forall labels: Labels :: Unlabelled(Labelled(labels)) == Unlabelled(labels);
  }

  /** Without a client the pass of a pod target stops before it labels anything. */
  lemma NoClientNoLabel(p: Plan, st: Store, replies: seq<Reply>)
    requires PlanFor(p, st)
    requires KindOf(p.migration.spec.resourceRef).PodTarget? && !p.clients.member
    ensures Exec(p.key, p.clients, st, [Fetch], replies).store.memberPods == st.memberPods
  {
    var left := OpeningRun(p.key, p.clients, st, replies);
    var a, spec := WithFinalizerIn(st, p.key), p.migration.spec;
    ExecSplit(p.key, p.clients, a, [LabelTask(spec)], DiscoverTasks(p.key, p.migration), left);
    ExecOne(p.key, p.clients, a, LabelTask(spec), left);
  }

  lemma PassInputs(p: Plan, st: Store, replies: seq<Reply>)
    requires PlanFor(p, st)
    ensures var now := Exec(p.key, p.clients, st, [Fetch], replies).store;
      && PlanFor(p, now) && SameInputs(p, st, now)
      && (KindOf(p.migration.spec.resourceRef).PodTarget? && !p.clients.member ==> now.memberPods == st.memberPods)
  {
    var q := NormalPass(p.key, p.clients, st, replies);
    assert WithFinalizer(p.migration) == p.migration;
    if KindOf(p.migration.spec.resourceRef).PodTarget? && !p.clients.member {
      NoClientNoLabel(p, st, replies);
    }
  }

  lemma {:induction false} PassAllInputs(p: Plan, st: Store, scripts: seq<seq<Reply>>)
    requires PlanFor(p, st)
    ensures var now := PassAll(p.key, p.clients, st, scripts);
      && PlanFor(p, now) && SameInputs(p, st, now)
      && (KindOf(p.migration.spec.resourceRef).PodTarget? && !p.clients.member ==> now.memberPods == st.memberPods)
    decreases |scripts|
  {
    if scripts != [] {
      var mid := PassAll(p.key, p.clients, st, scripts[..|scripts| - 1]);
      PassAllInputs(p, st, scripts[..|scripts| - 1]);
      PassInputs(p, mid, scripts[|scripts| - 1]);
      LabelTwice(st, p.migration.spec);
    }
  }

  /** The label was on none of the objects that the removal touches. */
  ghost predicate Unmarked(cl: Clients, st: Store, spec: MigrationSpec) {
    Unlabel(cl, st, spec) == st
  }

  lemma UnmarkedExactly(cl: Clients, st: Store, spec: MigrationSpec)
    ensures Unmarked(cl, st, spec) <==>
      match KindOf(spec.resourceRef)
      case WorkloadTarget(kind) =>
        var id := WorkloadId(kind, RefId(spec.resourceRef));
        id in st.workloads ==> MIGRATION_LABEL !in st.workloads[id].labels
      case PodTarget =>
        cl.member ==> forall c | c in spec.sourceClusters ::
          var place := MemberPodId(c, RefId(spec.resourceRef));
          place in st.memberPods ==> MIGRATION_LABEL !in st.memberPods[place].labels
      case Unsupported => true
  {
    assert forall labels: Labels :: Unlabelled(labels) == labels <==> MIGRATION_LABEL !in labels;
    match KindOf(spec.resourceRef)
    case WorkloadTarget(kind) =>
      var id := WorkloadId(kind, RefId(spec.resourceRef));
      if id in st.workloads {
        assert UnlabelWorkloads(st.workloads, spec)[id].labels == Unlabelled(st.workloads[id].labels);
        if MIGRATION_LABEL !in st.workloads[id].labels {
          assert UnlabelWorkloads(st.workloads, spec) == st.workloads;
        }
      }
    case PodTarget =>
      if cl.member {
        var pod, after := RefId(spec.resourceRef), UnlabelMemberPods(cl, st.memberPods, spec);
        if after == st.memberPods {
          forall c | c in spec.sourceClusters && MemberPodId(c, pod) in st.memberPods
            ensures MIGRATION_LABEL !in st.memberPods[MemberPodId(c, pod)].labels
          {
            assert c in ToSet(spec.sourceClusters);
            assert after[MemberPodId(c, pod)].labels == Unlabelled(st.memberPods[MemberPodId(c, pod)].labels);
          }
        }
        if forall c | c in spec.sourceClusters ::
          MemberPodId(c, pod) in st.memberPods ==> MIGRATION_LABEL !in st.memberPods[MemberPodId(c, pod)].labels
        {
          forall place | place in st.memberPods ensures after[place] == st.memberPods[place] {
            if place.cluster in ToSet(spec.sourceClusters) && place.id == pod {
              assert place == MemberPodId(place.cluster, pod);
            }
          }
          assert after == st.memberPods;
        }
      }
    case Unsupported =>
  }

  /** A user asks for the deletion of the migration. */
  function Doomed(st: Store, key: NsName): Store
    requires key in st.migrations
  {
    st.(migrations := st.migrations[key := st.migrations[key].(deleting := true)])
  }

  /** Label round trip and no residue: any number of normal passes, however they end, then a deletion
      request and a delete pass that gets through. The targets are what they were before, without
      the migration label, and exactly so if they had not carried it; and of the backups that the
      passes made none is left. */
  lemma LifeOfAMigration(p: Plan, st: Store, scripts: seq<seq<Reply>>, last: seq<Reply>)
    requires PlanFor(p, st)
    requires var mid := PassAll(p.key, p.clients, st, scripts);
      p.key in mid.migrations && FINALIZER in mid.migrations[p.key].finalizers &&
      Exec(p.key, p.clients, Doomed(mid, p.key), [Fetch], last).status.Done?
    ensures var doomed := Doomed(PassAll(p.key, p.clients, st, scripts), p.key);
      var end := Exec(p.key, p.clients, doomed, [Fetch], last).store;
      && end.workloads == UnlabelWorkloads(st.workloads, p.migration.spec)
      && end.memberPods == UnlabelMemberPods(p.clients, st.memberPods, p.migration.spec)
      && (Unmarked(p.clients, st, p.migration.spec)
          ==> end.workloads == st.workloads && end.memberPods == st.memberPods)
      && Selected(p.key, end.backups) == {}
      && end.policies == PassAll(p.key, p.clients, st, scripts).policies
  {
    var mid := PassAll(p.key, p.clients, st, scripts);
    PassAllInputs(p, st, scripts);
    var gone := DeletePass(p.key, p.clients, Doomed(mid, p.key), last);
    UnlabelAfterLabel(p, p.clients, st, mid);
  }
}
