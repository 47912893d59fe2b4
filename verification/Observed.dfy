/** What anybody can see in the cluster after a pass, in literal names, labels and fields. Nothing here
    is stated through the functions that passes compute with. */
module Observed {
  import opened Objects
  import opened Naming
  import opened Cluster
  import opened Machine
  import opened Effect
  import opened Passes
  import opened Iterations
  import opened Convergence
  import opened Exactness
  import opened Deletion
  import opened Progress

  // ----- Kinds and selectors -----

  predicate UpperOf(c: char, d: char) {
    'A' <= c <= 'Z' && d as int == c as int + 32
  }

  /** Equal but for the case of ASCII letters. */
  ghost predicate EqualFold(s: string, t: string) {
    |s| == |t| && forall i | 0 <= i < |s| :: s[i] == t[i] || UpperOf(s[i], t[i]) || UpperOf(t[i], s[i])
  }

  lemma {:induction false} ToLowerAt(s: string, i: nat)
    requires i < |s|
    ensures |ToLower(s)| == |s| && ToLower(s)[i] == LowerChar(s[i])
  {
    if i > 0 {
      ToLowerAt(s[1..], i - 1);
    }
  }

  lemma FoldsTo(s: string, t: string)
    requires forall i | 0 <= i < |t| :: 'a' <= t[i] <= 'z'
    ensures ToLower(s) == t <==> EqualFold(s, t)
  {
    forall i | 0 <= i < |s| ensures ToLower(s)[i] == LowerChar(s[i]) {
      ToLowerAt(s, i);
    }
    if ToLower(s) == t {
      forall i | 0 <= i < |s| ensures s[i] == t[i] || UpperOf(s[i], t[i]) {
        assert LowerChar(s[i]) == t[i];
      }
    }
    if EqualFold(s, t) {
      forall i | 0 <= i < |s| ensures ToLower(s)[i] == t[i] {
        assert LowerChar(s[i]) == t[i];
      }
      assert ToLower(s) == t;
    }
  }

  /** The kind of a target is read without regard to case, and only three kinds are supported. */
  lemma KindByName(ref: ResourceRef)
    ensures KindOf(ref) == WorkloadTarget(StatefulSet) <==> EqualFold(ref.kind, "statefulset")
    ensures KindOf(ref) == WorkloadTarget(Deployment) <==> EqualFold(ref.kind, "deployment")
    ensures KindOf(ref) == PodTarget <==> EqualFold(ref.kind, "pod")
    ensures KindOf(ref) == Unsupported <==>
      !EqualFold(ref.kind, "statefulset") && !EqualFold(ref.kind, "deployment") && !EqualFold(ref.kind, "pod")
  {
    FoldsTo(ref.kind, "statefulset");
    FoldsTo(ref.kind, "deployment");
    FoldsTo(ref.kind, "pod");
  }

  /** A selector asks for every one of its labels and every one of its requirements. */
  lemma SelectorMeans(labels: Labels, expressions: seq<Requirement>, pod: Pod)
    ensures Matches(Parsed(labels, expressions), pod) <==>
      && (forall k | k in labels :: k in pod.labels && pod.labels[k] == labels[k])
      && (forall r | r in expressions :: Matches(Parsed(map[], [r]), pod))
  {
    if forall k | k in labels :: k in pod.labels && pod.labels[k] == labels[k] {
      forall item | item in labels.Items ensures item in pod.labels.Items {
        assert item.0 in labels && labels[item.0] == item.1;
      }
    }
    if labels.Items <= pod.labels.Items {
      forall k | k in labels ensures k in pod.labels && pod.labels[k] == labels[k] {
        assert (k, labels[k]) in labels.Items;
      }
    }
    assert map[].Items <= pod.labels.Items;
    forall r ensures Matches(Parsed(map[], [r]), pod) <==> Satisfies(pod.labels, r) {
      assert r in [r];
    }
  }

  lemma OneLabelMeans(key: string, value: string, pod: Pod)
    ensures Matches(Parsed(map[key := value], []), pod) <==> key in pod.labels && pod.labels[key] == value
  {
    SelectorMeans(map[key := value], [], pod);
  }

  /** `In` asks for the label with one of the values, `Exists` for the label with any value, and the
      other two operators for the contrary. */
  lemma RequirementMeans(key: string, values: set<string>, pod: Pod)
    ensures Matches(Parsed(map[], [In(key, values)]), pod) <==>
      exists value :: value in values && Matches(Parsed(map[key := value], []), pod)
    ensures Matches(Parsed(map[], [Exists(key)]), pod) <==>
      exists value: string :: Matches(Parsed(map[key := value], []), pod)
    ensures Matches(Parsed(map[], [NotIn(key, values)]), pod) <==> !Matches(Parsed(map[], [In(key, values)]), pod)
    ensures Matches(Parsed(map[], [DoesNotExist(key)]), pod) <==> !Matches(Parsed(map[], [Exists(key)]), pod)
  {
    forall r: Requirement ensures Matches(Parsed(map[], [r]), pod) <==> Satisfies(pod.labels, r) {
      SelectorMeans(map[], [r], pod);
      assert r in [r];
      assert map[].Items <= pod.labels.Items;
    }
    forall value: string
      ensures Matches(Parsed(map[key := value], []), pod) <==> key in pod.labels && pod.labels[key] == value
    {
      OneLabelMeans(key, value, pod);
    }
    if key in pod.labels {
      assert Matches(Parsed(map[key := pod.labels[key]], []), pod);
    }
  }

  // ----- A normal pass: migration, target, shared objects -----

  lemma MigrationAfterNormalPass(p: Plan, st: Store, replies: seq<Reply>)
    requires Fits(p, st)
    ensures var r := Exec(p.key, p.clients, st, [Fetch], replies);
      var m := st.migrations[p.key];
      r.status.Done? ==>
        r.store.migrations == st.migrations[p.key := Migration(
          m.spec, m.finalizers + {"migrationbackup.migration.dcnlab.com/finalizer"}, m.deleting)]
  {
    PassKeepsGoal(p, st, replies);
  }

  /** The object that the migration refers to by kind, namespace and name gets the migration label, its
      other labels and its selector stay, and no other workload or pod of a member cluster changes. */
  lemma TargetAfterNormalPass(p: Plan, st: Store, replies: seq<Reply>)
    requires Fits(p, st) && Exec(p.key, p.clients, st, [Fetch], replies).status.Done?
    ensures var now := Exec(p.key, p.clients, st, [Fetch], replies).store;
      var ref := p.migration.spec.resourceRef;
      var target, clusters := NsName(ref.ns, ref.name), p.migration.spec.sourceClusters;
      && (EqualFold(ref.kind, "statefulset") ==> LabelledWorkload(st, now, WorkloadId(StatefulSet, target)))
      && (EqualFold(ref.kind, "deployment") ==> LabelledWorkload(st, now, WorkloadId(Deployment, target)))
      && (EqualFold(ref.kind, "pod") ==> clusters != [] && LabelledPod(st, now, MemberPodId(clusters[0], target)))
      && (EqualFold(ref.kind, "statefulset") || EqualFold(ref.kind, "deployment") || EqualFold(ref.kind, "pod"))
  {
    PassKeepsGoal(p, st, replies);
    NeedsTarget(p.key, p.clients, st, replies);
    KindByName(p.migration.spec.resourceRef);
  }

  ghost predicate LabelledWorkload(st: Store, now: Store, id: WorkloadId) {
    && id in st.workloads && now.memberPods == st.memberPods
    && now.workloads == st.workloads[id := Workload(
         st.workloads[id].labels["checkpoint-migration.dcn.io" := "true"], st.workloads[id].selector)]
  }

  ghost predicate LabelledPod(st: Store, now: Store, place: MemberPodId) {
    && place in st.memberPods && now.workloads == st.workloads
    && now.memberPods == st.memberPods[place := Pod(
         st.memberPods[place].labels["checkpoint-migration.dcn.io" := "true"], st.memberPods[place].info)]
  }

  /** The pods of a workload are those of its namespace that its own selector selects. */
  lemma PodsOfWorkload(p: Plan, st: Store, kind: WorkloadKind)
    requires Fits(p, st)
    requires EqualFold(p.migration.spec.resourceRef.kind, if kind.StatefulSet? then "statefulset" else "deployment")
    ensures var ref := p.migration.spec.resourceRef;
      var id := WorkloadId(kind, NsName(ref.ns, ref.name));
      && id in st.workloads && st.workloads[id].selector.Parsed?
      && forall pod :: pod in p.pods <==>
           pod.id in st.pods && st.pods[pod.id].info == pod && pod.id.ns == ref.ns &&
           Matches(st.workloads[id].selector, st.pods[pod.id])
  {
    var ref := p.migration.spec.resourceRef;
    KindByName(ref);
    var selector := st.workloads[WorkloadId(kind, RefId(ref))].selector;
    var listing :| ListedPods(st, ref.ns, selector, listing, p.pods);
    ListedIsOneNamespace(st, ref.ns, selector, listing, p.pods);
  }

  /** The namespace is there afterwards, and so is the CRD on every source cluster if there is a client. */
  lemma InfraAfterNormalPass(p: Plan, st: Store, replies: seq<Reply>)
    requires Fits(p, st)
    ensures var r := Exec(p.key, p.clients, st, [Fetch], replies);
      r.status.Done? ==>
        && r.store.namespaces == st.namespaces + {"stateful-migration"}
        && (forall c :: c in r.store.crds <==>
              c in st.crds || (p.clients.member && c in p.migration.spec.sourceClusters))
        && r.store.pods == st.pods
  {
    PassKeepsGoal(p, st, replies);
  }

  /** A missing policy of the shared namespace is created for all source clusters, and an existing one is
      left alone; without a client no policy changes. */
  lemma NamespacePolicyAfterNormalPass(p: Plan, st: Store, replies: seq<Reply>)
    requires Fits(p, st) && Exec(p.key, p.clients, st, [Fetch], replies).status.Done?
    ensures var now := Exec(p.key, p.clients, st, [Fetch], replies).store;
      var id := NsName("stateful-migration", "stateful-migration-propagation");
      var labels := map["created-by" := "stateful-migration-operator",
                        "app.kubernetes.io/name" := "stateful-migration",
                        "app.kubernetes.io/part-of" := "stateful-migration-operator",
                        "resource-type" := "namespace"];
      var selector := ResourceSelector("v1", "Namespace", "stateful-migration");
      && (!p.clients.karmada ==> now.policies == st.policies)
      && (p.clients.karmada ==> id in now.policies)
      && (p.clients.karmada && id in st.policies ==> now.policies[id] == st.policies[id])
      && (p.clients.karmada && id !in st.policies ==>
            now.policies[id] == Policy(labels, map[], selector, p.migration.spec.sourceClusters))
  {
    PassKeepsGoal(p, st, replies);
    NamespacePolicyNotDesired(p.Wanted());
    NamespacePolicyName();
  }

  lemma NamespacePolicyName()
    ensures NAMESPACE_POLICY == NsName("stateful-migration", "stateful-migration-propagation")
  {
    assert "stateful-migration" + "-propagation" == "stateful-migration-propagation";
  }

  /** A CRD check that is lost is taken for a missing CRD, so the CRD is installed all the same. */
  lemma LostCheckInstalls(key: NsName, cl: Clients, st: Store, c: string, listing: seq<NsName>)
    requires cl.member && c !in st.crds
    ensures Exec(key, cl, st, [GetCRD(c)], [Lost, Answer(listing)]) == Run(st.(crds := st.crds + {c}), [], Done)
  {
    ExecOne(key, cl, st, GetCRD(c), [Lost, Answer(listing)]);
    ExecOne(key, cl, st, CreateCRD(c), [Answer(listing)]);
  }

  /** If the CRD is there after all, the lost check makes the pass fail. */
  lemma LostCheckOfInstalledFails(key: NsName, cl: Clients, st: Store, c: string, listing: seq<NsName>)
    requires cl.member && c in st.crds
    ensures Exec(key, cl, st, [GetCRD(c)], [Lost, Answer(listing)]) == Run(st, [], Failed(AlreadyExists))
  {
    ExecOne(key, cl, st, GetCRD(c), [Lost, Answer(listing)]);
    ExecOne(key, cl, st, CreateCRD(c), [Answer(listing)]);
  }

  /** The pods of a pod target are those with its namespace and name on the source clusters. */
  lemma PodsOfPodTarget(p: Plan, st: Store)
    requires Fits(p, st) && EqualFold(p.migration.spec.resourceRef.kind, "pod")
    ensures var ref := p.migration.spec.resourceRef;
      forall pod :: pod in p.pods <==>
        exists c :: FoundOn(st, p.migration.spec.sourceClusters, NsName(ref.ns, ref.name), c, pod)
  {
    KindByName(p.migration.spec.resourceRef);
    ProbeMeans(st, p.Clusters(), RefId(p.migration.spec.resourceRef));
  }

  ghost predicate FoundOn(st: Store, clusters: seq<string>, id: NsName, c: string, pod: PodInfo) {
    c in clusters && MemberPodId(c, id) in st.memberPods && st.memberPods[MemberPodId(c, id)].info == pod
  }

  lemma {:induction false} ProbeMeans(st: Store, clusters: seq<string>, id: NsName)
    ensures forall pod ::
      pod in Probe(st.memberPods, clusters, id) <==> exists c :: FoundOn(st, clusters, id, c, pod)
    decreases |clusters|
  {
    if clusters != [] {
      var rest := clusters[1..];
      ProbeMeans(st, rest, id);
      forall pod
        ensures pod in Probe(st.memberPods, clusters, id) <==> exists c :: FoundOn(st, clusters, id, c, pod)
      {
        assert pod in Probe(st.memberPods, clusters, id) <==>
          FoundOn(st, clusters, id, clusters[0], pod) || pod in Probe(st.memberPods, rest, id);
        if c :| FoundOn(st, clusters, id, c, pod) {
          assert c == clusters[0] || FoundOn(st, rest, id, c, pod);
        }
        if c :| FoundOn(st, rest, id, c, pod) {
          assert FoundOn(st, clusters, id, c, pod);
        }
      }
    }
  }

  // ----- A delete pass -----

  /** The finalizer goes, and with the last finalizer the migration itself. */
  lemma MigrationAfterDeletePass(key: NsName, cl: Clients, st: Store, replies: seq<Reply>)
    requires key in st.migrations && st.migrations[key].deleting
    requires "migrationbackup.migration.dcnlab.com/finalizer" in st.migrations[key].finalizers
    requires Exec(key, cl, st, [Fetch], replies).status.Done?
    ensures var now, m := Exec(key, cl, st, [Fetch], replies).store, st.migrations[key];
      var others := m.finalizers - {"migrationbackup.migration.dcnlab.com/finalizer"};
      now.migrations ==
        if others == {} then st.migrations - {key} else st.migrations[key := Migration(m.spec, others, true)]
  {
    var gone := DeletePass(key, cl, st, replies);
  }

  /** All backups with the label of the migration go, wherever they are from, and nothing else does. */
  lemma BackupsAfterDeletePass(key: NsName, cl: Clients, st: Store, replies: seq<Reply>, id: NsName)
    requires key in st.migrations && st.migrations[key].deleting
    requires "migrationbackup.migration.dcnlab.com/finalizer" in st.migrations[key].finalizers
    requires Exec(key, cl, st, [Fetch], replies).status.Done?
    ensures var now := Exec(key, cl, st, [Fetch], replies).store;
      && (id in now.backups <==>
            && id in st.backups
            && !(id.ns == key.ns && Find(st.backups[id].labels, "stateful-migration") == Some(key.name)))
      && (id in now.backups ==> now.backups[id] == st.backups[id])
      && now.pods == st.pods && now.namespaces == st.namespaces && now.crds == st.crds && now.policies == st.policies
  {
    var gone := DeletePass(key, cl, st, replies);
  }

  lemma TargetsWhenDeleted(key: NsName, cl: Clients, st: Store)
    requires key in st.migrations
    ensures var end, spec := Deleted(key, cl, st), st.migrations[key].spec;
      && end.workloads == UnlabelWorkloads(st.workloads, spec)
      && end.memberPods == UnlabelMemberPods(cl, st.memberPods, spec)
  {
  }

  /** The object that the migration refers to loses the migration label, if it is still there. Nothing
      else happens to it or to any other workload. */
  lemma WorkloadsAfterDeletePass(key: NsName, cl: Clients, st: Store, replies: seq<Reply>, id: WorkloadId)
    requires key in st.migrations && st.migrations[key].deleting
    requires "migrationbackup.migration.dcnlab.com/finalizer" in st.migrations[key].finalizers
    requires Exec(key, cl, st, [Fetch], replies).status.Done? && id in st.workloads
    ensures var now, ref := Exec(key, cl, st, [Fetch], replies).store, st.migrations[key].spec.resourceRef;
      var target := EqualFold(ref.kind, if id.kind.StatefulSet? then "statefulset" else "deployment") &&
                    id.id.ns == ref.ns && id.id.name == ref.name;
      && now.workloads.Keys == st.workloads.Keys
      && now.workloads[id].selector == st.workloads[id].selector
      && now.workloads[id].labels == if target then st.workloads[id].labels - {"checkpoint-migration.dcn.io"}
                                     else st.workloads[id].labels
  {
    var gone := DeletePass(key, cl, st, replies);
    TargetsWhenDeleted(key, cl, st);
    KindByName(st.migrations[key].spec.resourceRef);
  }

  /** Of a pod target, the pods on all source clusters do, if there is a client. */
  lemma PodsAfterDeletePass(key: NsName, cl: Clients, st: Store, replies: seq<Reply>, place: MemberPodId)
    requires key in st.migrations && st.migrations[key].deleting
    requires "migrationbackup.migration.dcnlab.com/finalizer" in st.migrations[key].finalizers
    requires Exec(key, cl, st, [Fetch], replies).status.Done? && place in st.memberPods
    ensures var now, spec := Exec(key, cl, st, [Fetch], replies).store, st.migrations[key].spec;
      var target := cl.member && EqualFold(spec.resourceRef.kind, "pod") && place.cluster in spec.sourceClusters &&
                    place.id.ns == spec.resourceRef.ns && place.id.name == spec.resourceRef.name;
      && now.memberPods.Keys == st.memberPods.Keys
      && now.memberPods[place].info == st.memberPods[place].info
      && now.memberPods[place].labels == if target then st.memberPods[place].labels - {"checkpoint-migration.dcn.io"}
                                         else st.memberPods[place].labels
  {
    var gone := DeletePass(key, cl, st, replies);
    TargetsWhenDeleted(key, cl, st);
    KindByName(st.migrations[key].spec.resourceRef);
  }

  // ----- Passes that have nothing to do -----

  /** A migration that is gone needs nothing; one that is going without the finalizer gets nothing. */
  lemma NothingToDo(key: NsName, cl: Clients, st: Store, replies: seq<Reply>)
    requires key !in st.migrations || (st.migrations[key].deleting &&
      "migrationbackup.migration.dcnlab.com/finalizer" !in st.migrations[key].finalizers)
    ensures var r := Exec(key, cl, st, [Fetch], replies);
      && r.store == st
      && (r.status.Done? <==> key !in st.migrations && replies != [] && replies[0].Answer?)
  {
    ExecOne(key, cl, st, Fetch, replies);
    if key in st.migrations && replies != [] {
      ExecOne(key, cl, st, AddFinalizer(st.migrations[key]), replies[1..]);
    }
  }

  // ----- Writes -----

  /** The write was prepared for something that is not there now: an update for an object that is gone or
      that is not the one that was read, a new finalizer for an object that is going, or a create for an
      object that is there. */
  ghost predicate Outdated(key: NsName, st: Store, t: Task) {
    match t
    case AddFinalizer(seen) => Find(st.migrations, key) != Some(seen) ||
      (seen.deleting && "migrationbackup.migration.dcnlab.com/finalizer" !in seen.finalizers)
    case RemoveFinalizer(seen) => Find(st.migrations, key) != Some(seen)
    case PutWorkload(target, before, _) => Find(st.workloads, target) != Some(before)
    case PutPod(place, before, _) => Find(st.memberPods, place) != Some(before)
    case PutPolicy(id, existing, _) => Find(st.policies, id) != Some(existing)
    case PutBackup(w, current) => Find(st.backups, w.id) != Some(current)
    case CreateNamespace => "stateful-migration" in st.namespaces
    case CreatePolicy(id, _) => id in st.policies
    case CreateCRD(cluster) => cluster in st.crds
    case CreateBackup(w) => w.id in st.backups
    case _ => false
  }

  ghost predicate Writes(t: Task) {
    || t.AddFinalizer? || t.RemoveFinalizer? || t.PutWorkload? || t.PutPod? || t.PutPolicy? || t.PutBackup?
    || t.CreateNamespace? || t.CreatePolicy? || t.CreateCRD? || t.CreateBackup? || t.DeleteBackup?
  }

  /** An outdated write is refused and ends the pass, and so does a lost one; any other takes effect, even
      if the answer is an error, in which case the pass ends nevertheless. */
  lemma FateOfAWrite(key: NsName, st: Store, t: Task, reply: Reply)
    requires Writes(t)
    ensures var turn := Step(key, st, t, reply);
      && (turn.Go? <==> reply.Answer? && !Outdated(key, st, t))
      && (Outdated(key, st, t) || reply.Lost? ==> turn.store == st)
      && (!Outdated(key, st, t) && reply.Unacked? ==> turn.store == Step(key, st, t, Answer([])).store)
  {
    if t.AddFinalizer? || t.RemoveFinalizer? {
      FateOfAFinalizerWrite(key, st, t, reply);
    }
  }

  lemma FateOfAFinalizerWrite(key: NsName, st: Store, t: Task, reply: Reply)
    requires t.AddFinalizer? || t.RemoveFinalizer?
    ensures var turn := Step(key, st, t, reply);
      && (turn.Go? <==> reply.Answer? && !Outdated(key, st, t))
      && (Outdated(key, st, t) || reply.Lost? ==> turn.store == st)
      && (!Outdated(key, st, t) && reply.Unacked? ==> turn.store == Step(key, st, t, Answer([])).store)
  {
    assert t.seen.finalizers + {FINALIZER} <= t.seen.finalizers <==> FINALIZER in t.seen.finalizers;
  }
}
