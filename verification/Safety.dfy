/** No backup outlives its migration: the finalizer protocol over all runs. */
module Safety {
  import opened Objects
  import opened Naming
  import opened Cluster
  import opened Machine
  import opened System

  /** The migration exists and is kept by the controller's finalizer. */
  ghost predicate Held(st: Store, key: NsName) {
    key in st.migrations && FINALIZER in st.migrations[key].finalizers
  }

  ghost predicate HasBackupLabels(labels: Labels) {
    {BACKUP_MIGRATION, BACKUP_CLUSTER, BACKUP_POD} <= labels.Keys
  }

  ghost function NameFromLabels(labels: Labels): string
    requires HasBackupLabels(labels)
  {
    BackupName(labels[BACKUP_MIGRATION], labels[BACKUP_POD], labels[BACKUP_CLUSTER])
  }

  /** A backup is keyed by the dash-join of its own labels and owned by the migration they name. */
  ghost predicate WellFormed(id: NsName, b: Backup) {
    && HasBackupLabels(b.labels)
    && id.name == NameFromLabels(b.labels)
    && b.owner == NsName(id.ns, b.labels[BACKUP_MIGRATION])
  }

  /** Every stored backup with the label is well formed, and its owner is held. */
  ghost predicate NoLeak(st: Store) {
    forall id | id in st.backups && Managed(st.backups[id]) ::
      WellFormed(id, st.backups[id]) && Held(st, st.backups[id].owner)
  }

  ghost predicate WantOf(key: NsName, w: Want) {
    && WellFormed(w.id, w.backup)
    && w.backup.owner == key
    && w.backup.labels[BACKUP_CLUSTER] == w.cluster
    && w.backup.spec.podRef.name == w.backup.labels[BACKUP_POD]
  }

  ghost predicate NormalTask(key: NsName, t: Task) {
    match t
    case GetBackup(w) => WantOf(key, w)
    case CreateBackup(w) => WantOf(key, w)
    case PutBackup(w, _) => WantOf(key, w)
    case Fetch => false
    case AddFinalizer(_) => false
    case RemoveFinalizer(_) => false
    case _ => true
  }

  ghost predicate NormalTodo(key: NsName, todo: seq<Task>) {
    forall t | t in todo :: NormalTask(key, t)
  }

  ghost predicate DeleteTask(t: Task) {
    t.UnlabelWorkload? || t.PutWorkload? || t.UnlabelPod? || t.PutPod? || t.ListAll? || t.DeleteBackup? || t.RejectKind?
  }

  /** A delete pass ends by removing the finalizer, and before that it will list all backups of the
      migration or still has every one of them to delete. */
  ghost predicate DeleteTodo(st: Store, key: NsName, todo: seq<Task>) {
    && todo != [] && todo[|todo| - 1].RemoveFinalizer?
    && (forall t | t in todo[..|todo| - 1] :: DeleteTask(t))
    && (ListAll in todo || forall id | id in Selected(key, st.backups) :: DeleteBackup(id) in todo)
  }

  ghost predicate PassOk(st: Store, key: NsName, todo: seq<Task>) {
    || todo == [Fetch]
    || (|todo| == 1 && todo[0].AddFinalizer?)
    || (Held(st, key) && NormalTodo(key, todo))
    || (Held(st, key) && DeleteTodo(st, key, todo))
  }

  ghost predicate Safe(s: Sys) {
    && NoLeak(s.store)
    && (forall key | key in s.passes :: PassOk(s.store, key, s.passes[key]))
  }

  // ----- The programs have the shape that the invariant asks for -----

  lemma WantIsOf(key: NsName, spec: MigrationSpec, pod: PodInfo, cluster: string)
    ensures WantOf(key, WantFor(key, spec, pod, cluster))
  {
  }

  lemma {:induction false} WantsAreOf(key: NsName, spec: MigrationSpec, pods: seq<PodInfo>, clusters: seq<string>)
    ensures forall w | w in Wants(key, spec, pods, clusters) :: WantOf(key, w)
  {
    if clusters != [] {
      WantsAreOf(key, spec, pods, clusters[1..]);
      var ws := WantsOn(key, spec, pods, clusters[0]);
      forall w | w in ws ensures WantOf(key, w) {
        var i :| 0 <= i < |ws| && ws[i] == w;
        WantIsOf(key, spec, pods[i], clusters[0]);
      }
    }
  }

  lemma {:induction false} WantTasksNormal(key: NsName, ws: seq<Want>)
    requires forall w | w in ws :: WantOf(key, w)
    ensures NormalTodo(key, WantTasks(ws))
  {
    if ws != [] {
      assert forall w | w in ws[1..] :: w in ws;
      WantTasksNormal(key, ws[1..]);
    }
  }

  lemma BodyNormal(key: NsName, spec: MigrationSpec, pods: seq<PodInfo>)
    ensures NormalTodo(key, Body(key, spec, pods))
  {
    CrdTasksShape(spec.sourceClusters);
    WantsAreOf(key, spec, pods, spec.sourceClusters);
    WantTasksNormal(key, Wants(key, spec, pods, spec.sourceClusters));
  }

  lemma CollectNormal(key: NsName, m: Migration, clusters: seq<string>, found: seq<PodInfo>)
    ensures NormalTodo(key, Collect(key, m, clusters, found))
  {
    BodyNormal(key, m.spec, found);
  }

  lemma NormalProgramNormal(key: NsName, m: Migration)
    ensures NormalTodo(key, NormalProgram(key, m))
  {
    CollectNormal(key, m, m.spec.sourceClusters, []);
  }

  lemma {:induction false} UnlabelPodsShape(clusters: seq<string>, pod: NsName)
    ensures forall t | t in UnlabelPods(clusters, pod) :: t.UnlabelPod?
  {
    if clusters != [] {
      UnlabelPodsShape(clusters[1..], pod);
    }
  }

  lemma DeleteProgramShape(st: Store, key: NsName, m: Migration)
    ensures DeleteTodo(st, key, DeleteProgram(m))
  {
    UnlabelPodsShape(m.spec.sourceClusters, RefId(m.spec.resourceRef));
    var todo := DeleteProgram(m);
    assert todo[..|todo| - 1] == UnlabelTasks(m.spec) + [ListAll];
    assert todo[|todo| - 2] == ListAll;
  }

  lemma ProgramOk(st: Store, key: NsName, m: Migration)
    requires Held(st, key)
    ensures PassOk(st, key, Program(key, m))
  {
    NormalProgramNormal(key, m);
    DeleteProgramShape(st, key, m);
  }

  // ----- What one request of a pass can do to the store -----

  /** A request made for `key` leaves other migrations alone, and every backup it adds or rewrites
      is well formed and keeps its labels or carries those of `key`. */
  ghost predicate OwnStep(key: NsName, st: Store, now: Store) {
    && (forall other | other != key ::
          (other in now.migrations <==> other in st.migrations) &&
          (other in st.migrations ==> now.migrations[other] == st.migrations[other]))
    && (forall id | id in now.backups ::
          || (id in st.backups && now.backups[id].labels == st.backups[id].labels
              && now.backups[id].owner == st.backups[id].owner)
          || (WellFormed(id, now.backups[id]) && now.backups[id].owner == key))
  }

  lemma OwnStepKeepsOthers(key: NsName, st: Store, now: Store, other: NsName, todo: seq<Task>)
    requires OwnStep(key, st, now) && other != key && PassOk(st, other, todo)
    ensures PassOk(now, other, todo)
  {
    forall id | id in Selected(other, now.backups) ensures id in Selected(other, st.backups) {
      assert !(WellFormed(id, now.backups[id]) && now.backups[id].owner == key);
    }
  }

  lemma NormalNext(key: NsName, st: Store, t: Task, reply: Reply)
    requires NormalTask(key, t) && (t.LabelPod? ==> t.clusters != [])
    requires Step(key, st, t, reply).Go?
    ensures NormalTodo(key, Step(key, st, t, reply).next)
  {
    match t
    case ListPods(m, selector) => BodyNormal(key, m.spec, PodInfos(st.pods, reply.listing));
    case FindPod(m, cluster, rest, found) =>
      var place := MemberPodId(cluster, RefId(m.spec.resourceRef));
      CollectNormal(key, m, rest, if place in st.memberPods then found + [st.memberPods[place].info] else found);
    case _ =>
  }

  lemma BackupWrite(key: NsName, st: Store, t: Task, reply: Reply)
    requires WritesBackups(t) && NormalTask(key, t)
    ensures OwnStep(key, st, Step(key, st, t, reply).store)
  {
  }

  lemma NormalStep(key: NsName, st: Store, t: Task, reply: Reply)
    requires NormalTask(key, t) && (t.LabelPod? ==> t.clusters != [])
    ensures var turn := Step(key, st, t, reply);
      && OwnStep(key, st, turn.store)
      && turn.store.migrations == st.migrations
      && (turn.Go? ==> NormalTodo(key, turn.next))
  {
    StepFrame(key, st, t, reply);
    if WritesBackups(t) {
      BackupWrite(key, st, t, reply);
    }
    if Step(key, st, t, reply).Go? {
      NormalNext(key, st, t, reply);
    }
  }

  lemma NormalAdvance(key: NsName, cl: Clients, st: Store, todo: seq<Task>, reply: Reply)
    requires NoLeak(st) && Held(st, key) && NormalTodo(key, todo)
    ensures var moved := Advance(key, cl, st, todo, reply);
      NoLeak(moved.store) && OwnStep(key, st, moved.store) && PassOk(moved.store, key, moved.todo)
  {
    var moved := Advance(key, cl, st, todo, reply);
    if todo != [] && Blocked(todo[0], cl).None? && !Skipped(todo[0], cl) {
      assert todo[0] in todo;
      NormalStep(key, st, todo[0], reply);
    }
    assert Held(moved.store, key) && NormalTodo(key, moved.todo);
  }

  /** A delete task either finishes or puts more delete tasks in front, and backups only vanish. */
  lemma DeleteTurn(key: NsName, st: Store, t: Task, reply: Reply)
    requires DeleteTask(t)
    ensures var turn := Step(key, st, t, reply);
      && turn.store.migrations == st.migrations
      && turn.store.backups == (if t.DeleteBackup? && !reply.Lost? then st.backups - {t.backupId} else st.backups)
      && (turn.Go? ==> forall u | u in turn.next :: DeleteTask(u))
      && (turn.Go? && t.DeleteBackup? ==> turn.store.backups == st.backups - {t.backupId})
  {
  }

  lemma ListAllCovers(key: NsName, st: Store, reply: Reply)
    requires Step(key, st, ListAll, reply).Go?
    ensures forall id | id in Selected(key, st.backups) :: DeleteBackup(id) in Step(key, st, ListAll, reply).next
  {
    var next := Step(key, st, ListAll, reply).next;
    forall id | id in Selected(key, st.backups) ensures DeleteBackup(id) in next {
      assert id in ToSet(reply.listing);
      var i :| 0 <= i < |reply.listing| && reply.listing[i] == id;
      assert next[i] == DeleteBackup(id);
    }
  }

  /** What is still to be deleted stays covered by the tasks that are left. */
  lemma DeleteStepCovers(key: NsName, st: Store, t: Task, rest: seq<Task>, reply: Reply)
    requires DeleteTask(t) && Step(key, st, t, reply).Go?
    requires ListAll in [t] + rest || forall id | id in Selected(key, st.backups) :: DeleteBackup(id) in [t] + rest
    ensures var turn := Step(key, st, t, reply);
      ListAll in turn.next + rest ||
      forall id | id in Selected(key, turn.store.backups) :: DeleteBackup(id) in turn.next + rest
  {
    var turn := Step(key, st, t, reply);
    DeleteTurn(key, st, t, reply);
    if t.ListAll? {
      ListAllCovers(key, st, reply);
    } else if ListAll !in rest {
      forall id | id in Selected(key, turn.store.backups) ensures DeleteBackup(id) in rest {
        assert id in Selected(key, st.backups);
      }
    }
  }

  lemma DeleteAdvance(key: NsName, cl: Clients, st: Store, todo: seq<Task>, reply: Reply)
    requires NoLeak(st) && Held(st, key) && DeleteTodo(st, key, todo) && |todo| > 1
    ensures var moved := Advance(key, cl, st, todo, reply);
      && NoLeak(moved.store) && OwnStep(key, st, moved.store)
      && (moved.todo != [] ==> PassOk(moved.store, key, moved.todo))
  {
    var t, rest := todo[0], todo[1..];
    assert todo == [t] + rest;
    assert t in todo[..|todo| - 1];
    assert rest[..|rest| - 1] == todo[..|todo| - 1][1..];
    if Blocked(t, cl).None? && Skipped(t, cl) {
      assert DeleteTodo(st, key, rest);
    } else if Blocked(t, cl).None? {
      var turn := Step(key, st, t, reply);
      DeleteTurn(key, st, t, reply);
      if turn.Go? {
        DeleteStepCovers(key, st, t, rest, reply);
        var left := turn.next + rest;
        assert left[..|left| - 1] == turn.next + rest[..|rest| - 1];
        assert DeleteTodo(turn.store, key, left);
      }
    }
  }

  /** The finalizer goes only when no backup of the migration is left. */
  lemma FinalizerAdvance(key: NsName, cl: Clients, st: Store, todo: seq<Task>, reply: Reply)
    requires NoLeak(st) && DeleteTodo(st, key, todo) && |todo| == 1
    ensures var moved := Advance(key, cl, st, todo, reply);
      NoLeak(moved.store) && OwnStep(key, st, moved.store) && moved.todo == []
  {
    assert todo[0].RemoveFinalizer? && todo[1..] == [];
    NothingSelected(st, key, todo);
    var now := Step(key, st, todo[0], reply).store;
    FinalizerTurn(key, st, todo[0].seen, reply);
    assert OwnStep(key, st, now);
    assert NoLeak(now);
  }

  lemma FinalizerTurn(key: NsName, st: Store, seen: Migration, reply: Reply)
    ensures var turn := Step(key, st, RemoveFinalizer(seen), reply);
      && turn.store.(migrations := st.migrations) == st
      && (turn.Go? ==> turn.next == [])
      && (forall other | other != key ::
            (other in turn.store.migrations <==> other in st.migrations) &&
            (other in st.migrations ==> turn.store.migrations[other] == st.migrations[other]))
  {
  }

  lemma NothingSelected(st: Store, key: NsName, todo: seq<Task>)
    requires NoLeak(st) && DeleteTodo(st, key, todo) && |todo| == 1
    ensures forall id | id in st.backups && Managed(st.backups[id]) :: st.backups[id].owner != key
  {
    assert Selected(key, st.backups) == {};
    forall id | id in st.backups && Managed(st.backups[id]) ensures st.backups[id].owner != key {
      assert id !in Selected(key, st.backups);
    }
  }

  lemma OpeningAdvance(key: NsName, cl: Clients, st: Store, todo: seq<Task>, reply: Reply)
    requires NoLeak(st)
    requires todo == [Fetch] || (|todo| == 1 && todo[0].AddFinalizer?)
    ensures var moved := Advance(key, cl, st, todo, reply);
      && NoLeak(moved.store) && OwnStep(key, st, moved.store)
      && (moved.todo != [] ==> PassOk(moved.store, key, moved.todo))
  {
    var turn := Step(key, st, todo[0], reply);
    if turn.Go? {
      assert turn.next + todo[1..] == turn.next;
    }
    if todo[0].Fetch? {
      if key in st.migrations && FINALIZER in st.migrations[key].finalizers {
        ProgramOk(st, key, st.migrations[key]);
      }
    } else if turn.Go? {
      ProgramOk(turn.store, key, WithFinalizer(todo[0].seen));
    }
  }

  lemma AdvanceSafe(key: NsName, cl: Clients, st: Store, todo: seq<Task>, reply: Reply)
    requires NoLeak(st) && PassOk(st, key, todo)
    ensures var moved := Advance(key, cl, st, todo, reply);
      && NoLeak(moved.store) && OwnStep(key, st, moved.store)
      && (moved.todo != [] ==> PassOk(moved.store, key, moved.todo))
  {
    if todo == [Fetch] || (|todo| == 1 && todo[0].AddFinalizer?) {
      OpeningAdvance(key, cl, st, todo, reply);
    } else if NormalTodo(key, todo) {
      NormalAdvance(key, cl, st, todo, reply);
    } else if |todo| > 1 {
      DeleteAdvance(key, cl, st, todo, reply);
    } else {
      FinalizerAdvance(key, cl, st, todo, reply);
    }
  }

  lemma PermittedKeepsPass(st: Store, now: Store, key: NsName, todo: seq<Task>)
    requires Permitted(st, now) && PassOk(st, key, todo)
    ensures PassOk(now, key, todo)
  {
    assert Selected(key, now.backups) <= Selected(key, st.backups);
  }

  lemma ActionSafe(s: Sys, a: Action, workers: nat)
    requires Safe(s) && Enabled(s, a, workers)
    ensures Safe(After(s, a))
  {
    match a
    case Request(key, reply) =>
      AdvanceSafe(key, s.clients, s.store, s.passes[key], reply);
      var moved := Advance(key, s.clients, s.store, s.passes[key], reply);
      forall other | other in s.passes && other != key ensures PassOk(moved.store, other, s.passes[other]) {
        OwnStepKeepsOthers(key, s.store, moved.store, other, s.passes[other]);
      }
    case Environment(now) =>
      forall key | key in s.passes ensures PassOk(now, key, s.passes[key]) {
        PermittedKeepsPass(s.store, now, key, s.passes[key]);
      }
    case _ =>
  }

  /** No leaked backups: after any run, with any number of workers, faults, crashes, spec edits and
      deletion requests, every backup with the controller's label is keyed by its labels, and the migration it is
      labelled with exists and carries the finalizer. */
  lemma {:induction false} NoLeakedBackups(s: Sys, actions: seq<Action>, workers: nat)
    requires Initial(s) && IsRun(s, actions, workers)
    ensures Safe(AfterAll(s, actions))
  {
    if actions != [] {
      var before := actions[..|actions| - 1];
      NoLeakedBackups(s, before, workers);
      ActionSafe(AfterAll(s, before), actions[|actions| - 1], workers);
    }
  }
}
