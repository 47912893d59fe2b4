/** Passes that meet no fault: every request is answered, and every list is complete. */
module FaultFree {
  import opened Objects
  import opened Cluster
  import opened Machine

  ghost predicate Serves(key: NsName, st: Store, t: Task, reply: Reply) {
    && reply.Answer?
    && (t.ListPods? ==>
          Enumerates(reply.listing, SelectedPods(st, t.migration.spec.resourceRef.ns, t.selector)))
    && (t.ListOrphans? || t.ListAll? ==> Enumerates(reply.listing, Selected(key, st.backups)))
  }

  /** The replies serve every request that the tasks make, and they do not run out. */
  ghost predicate NoFault(key: NsName, cl: Clients, st: Store, todo: seq<Task>, replies: seq<Reply>)
    decreases |replies|, |todo|
  {
    if todo == [] || Blocked(todo[0], cl).Some? then true
    else if Skipped(todo[0], cl) then NoFault(key, cl, st, todo[1..], replies)
    else
      && replies != [] && Serves(key, st, todo[0], replies[0])
      && var turn := Step(key, st, todo[0], replies[0]);
         turn.Go? ==> NoFault(key, cl, turn.store, turn.next + todo[1..], replies[1..])
  }

  lemma {:induction false} NoFaultBoth(
    key: NsName, cl: Clients, st: Store, a: seq<Task>, first: seq<Reply>, b: seq<Task>, second: seq<Reply>)
    requires NoFault(key, cl, st, a, first)
    requires Exec(key, cl, st, a, first).status.Done? && Exec(key, cl, st, a, first).replies == []
    requires NoFault(key, cl, Exec(key, cl, st, a, first).store, b, second)
    ensures NoFault(key, cl, st, a + b, first + second)
    decreases |first|, |a|
  {
    if a == [] {
      assert a + b == b && first + second == second;
    } else {
      assert (a + b)[0] == a[0] && (a + b)[1..] == a[1..] + b;
      if Skipped(a[0], cl) {
        NoFaultBoth(key, cl, st, a[1..], first, b, second);
      } else {
        var turn := Step(key, st, a[0], first[0]);
        assert (first + second)[0] == first[0] && (first + second)[1..] == first[1..] + second;
        assert turn.next + (a[1..] + b) == (turn.next + a[1..]) + b;
        NoFaultBoth(key, cl, turn.store, turn.next + a[1..], first[1..], b, second);
      }
    }
  }

  // ----- A request that is served does not fail for want of an answer -----

  lemma ServedError(key: NsName, st: Store, t: Task, reply: Reply)
    requires (t.LabelPod? ==> t.clusters != []) && Serves(key, st, t, reply)
    ensures var turn := Step(key, st, t, reply); turn.Halt? ==> turn.error != Unavailable
  {
  }

  lemma {:induction false} NoFaultNoOutage(key: NsName, cl: Clients, st: Store, todo: seq<Task>, replies: seq<Reply>)
    requires NoFault(key, cl, st, todo, replies)
    ensures Exec(key, cl, st, todo, replies).status != Failed(Unavailable)
    decreases |replies|, |todo|
  {
    if todo != [] && Blocked(todo[0], cl).None? {
      if Skipped(todo[0], cl) {
        NoFaultNoOutage(key, cl, st, todo[1..], replies);
      } else {
        var turn := Step(key, st, todo[0], replies[0]);
        if turn.Go? {
          NoFaultNoOutage(key, cl, turn.store, turn.next + todo[1..], replies[1..]);
        } else {
          ServedError(key, st, todo[0], replies[0]);
        }
      }
    }
  }

  // ----- A normal pass that is served does not fail at all -----

  /** A task that starts a step of a normal pass and finds what it needs. */
  ghost predicate Startable(cl: Clients, st: Store, t: Task) {
    match t
    case LabelWorkload(id) => id in st.workloads
    case LabelPod(clusters, pod) =>
      cl.member && clusters != [] && MemberPodId(clusters[0], pod) in st.memberPods
    case FindWorkload(_, id) => id in st.workloads && st.workloads[id].selector.Parsed?
    case FindPod(_, _, _, _) => cl.member
    case _ =>
      t.ListPods? || t.GetNamespace? || t.GetNamespacePolicy? || t.UpsertPolicy? || t.GetCRD? || t.GetBackup? ||
      t.ListOrphans? || t.DeleteBackup?
  }

  /** A write that follows a read of what is still stored. */
  ghost predicate Timely(st: Store, t: Task) {
    match t
    case PutWorkload(id, before, after) => Find(st.workloads, id) == Some(before) && after.selector == before.selector
    case PutPod(place, before, _) => Find(st.memberPods, place) == Some(before)
    case CreateNamespace => MIGRATION_NAMESPACE !in st.namespaces
    case CreatePolicy(id, _) => id !in st.policies
    case PutPolicy(id, existing, _) => Find(st.policies, id) == Some(existing)
    case CreateCRD(cluster) => cluster !in st.crds
    case CreateBackup(w) => w.id !in st.backups
    case PutBackup(w, current) => Find(st.backups, w.id) == Some(current)
    case _ => false
  }

  ghost predicate AllStartable(cl: Clients, st: Store, todo: seq<Task>) {
    forall t | t in todo :: Startable(cl, st, t)
  }

  ghost predicate OnTrack(cl: Clients, st: Store, todo: seq<Task>) {
    todo != [] ==> (Startable(cl, st, todo[0]) || Timely(st, todo[0])) && AllStartable(cl, st, todo[1..])
  }

  /** The targets are still there, with selectors that parse if they did. */
  ghost predicate SameTargets(st: Store, now: Store) {
    && st.memberPods.Keys <= now.memberPods.Keys
    && forall id | id in st.workloads :: id in now.workloads && now.workloads[id].selector == st.workloads[id].selector
  }

  lemma StillStartable(cl: Clients, st: Store, now: Store, todo: seq<Task>)
    requires AllStartable(cl, st, todo) && SameTargets(st, now)
    ensures AllStartable(cl, now, todo)
  {
  }

  lemma BodyStartable(key: NsName, cl: Clients, st: Store, spec: MigrationSpec, pods: seq<PodInfo>)
    ensures AllStartable(cl, st, Body(key, spec, pods))
  {
    CrdTasksShape(spec.sourceClusters);
    WantTasksShape(Wants(key, spec, pods, spec.sourceClusters));
  }

  ghost predicate Proceeds(cl: Clients, st: Store, turn: Turn) {
    && turn.Go? && SameTargets(st, turn.store)
    && (AllStartable(cl, turn.store, turn.next) || (|turn.next| == 1 && Timely(turn.store, turn.next[0])))
  }

  lemma TimelyProceeds(key: NsName, cl: Clients, st: Store, t: Task, reply: Reply)
    requires Timely(st, t) && reply.Answer?
    ensures Step(key, st, t, reply).Go? && Step(key, st, t, reply).next == []
    ensures SameTargets(st, Step(key, st, t, reply).store)
  {
  }

  lemma DiscoveryProceeds(key: NsName, cl: Clients, st: Store, t: Task, reply: Reply)
    requires t.FindWorkload? || t.ListPods? || t.FindPod?
    requires Startable(cl, st, t) && Serves(key, st, t, reply)
    ensures Proceeds(cl, st, DiscoverTurn(key, st, t, reply))
  {
    match t
    case FindWorkload(_, _) =>
    case ListPods(m, selector) => BodyStartable(key, cl, st, m.spec, PodInfos(st.pods, reply.listing));
    case FindPod(m, cluster, rest, found) =>
      var place := MemberPodId(cluster, RefId(m.spec.resourceRef));
      BodyStartable(key, cl, st, m.spec, if place in st.memberPods then found + [st.memberPods[place].info] else found);
  }

  lemma CleanupProceeds(key: NsName, cl: Clients, st: Store, t: Task, reply: Reply)
    requires t.ListOrphans? || t.DeleteBackup?
    requires Serves(key, st, t, reply)
    ensures Proceeds(cl, st, CleanupTurn(key, st, t, reply))
  {
  }

  lemma OtherProceeds(key: NsName, cl: Clients, st: Store, t: Task, reply: Reply)
    requires t.GetNamespace? || t.GetNamespacePolicy? || t.UpsertPolicy? || t.GetCRD? || t.GetBackup? ||
             t.LabelWorkload? || t.LabelPod?
    requires Startable(cl, st, t) && Serves(key, st, t, reply)
    ensures Proceeds(cl, st, Step(key, st, t, reply))
  {
  }

  lemma StepProceeds(key: NsName, cl: Clients, st: Store, t: Task, reply: Reply)
    requires (Startable(cl, st, t) || Timely(st, t)) && Serves(key, st, t, reply)
    ensures Proceeds(cl, st, Step(key, st, t, reply))
  {
    if Timely(st, t) {
      TimelyProceeds(key, cl, st, t, reply);
    } else if t.FindWorkload? || t.ListPods? || t.FindPod? {
      DiscoveryProceeds(key, cl, st, t, reply);
    } else if t.ListOrphans? || t.DeleteBackup? {
      CleanupProceeds(key, cl, st, t, reply);
    } else {
      OtherProceeds(key, cl, st, t, reply);
    }
  }

  lemma NextOnTrack(cl: Clients, st: Store, turn: Turn, rest: seq<Task>)
    requires Proceeds(cl, st, turn) && AllStartable(cl, st, rest)
    ensures OnTrack(cl, turn.store, turn.next + rest)
  {
    StillStartable(cl, st, turn.store, rest);
    var todo := turn.next + rest;
    if todo != [] {
      if turn.next == [] {
        assert todo == rest;
      } else {
        assert todo[0] == turn.next[0] && todo[1..] == turn.next[1..] + rest;
      }
    }
  }

  /** Tasks that find what they need get through when they are served. */
  lemma {:induction false} NoFaultSucceeds(key: NsName, cl: Clients, st: Store, todo: seq<Task>, replies: seq<Reply>)
    requires OnTrack(cl, st, todo) && NoFault(key, cl, st, todo, replies)
    ensures Exec(key, cl, st, todo, replies).status.Done?
    decreases |replies|, |todo|
  {
    if todo != [] {
      if Skipped(todo[0], cl) {
        NoFaultSucceeds(key, cl, st, todo[1..], replies);
      } else {
        var turn := Step(key, st, todo[0], replies[0]);
        StepProceeds(key, cl, st, todo[0], replies[0]);
        NextOnTrack(cl, st, turn, todo[1..]);
        NoFaultSucceeds(key, cl, turn.store, turn.next + todo[1..], replies[1..]);
      }
    }
  }
}
