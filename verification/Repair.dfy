/** Monotone repair: no API request of a pass ever makes the backups worse. */
module Repair {
  import opened Objects
  import opened Naming
  import opened Cluster
  import opened Machine
  import opened Effect
  import opened Iterations
  import opened Convergence
  import opened Exactness
  import opened Safety
  import opened System

  /** What is wrong with the backups: desired ones that are missing or have another spec, and m-backups
      of pods that are gone. */
  function Wrong(p: Plan, bs: map<NsName, Backup>): set<NsName> {
    var d := Desired(p.Wanted());
    (set id | id in d && (id !in bs || bs[id].spec != d[id].spec)) + Orphans(p.key, p.Live(), bs)
  }

  ghost predicate RepairTask(p: Plan, t: Task) {
    && !(t.Fetch? || t.AddFinalizer? || t.FindWorkload? || t.ListPods? || t.FindPod? || t.ListAll?)
    && (t.GetBackup? || t.CreateBackup? || t.PutBackup? ==> t.want in p.Wanted())
    && (t.DeleteBackup? ==> t.backupId !in Desired(p.Wanted()))
    && (t.ListOrphans? ==> t.live == p.Live())
  }

  ghost predicate RepairTodo(p: Plan, todo: seq<Task>) {
    forall t | t in todo :: RepairTask(p, t)
  }

  lemma {:induction false} WantTasksRepair(p: Plan, ws: seq<Want>)
    requires forall w | w in ws :: w in p.Wanted()
    ensures RepairTodo(p, WantTasks(ws))
  {
    if ws != [] {
      assert ws[0] in ws && forall w | w in ws[1..] :: w in ws;
      WantTasksRepair(p, ws[1..]);
    }
  }

  lemma BodyRepairs(p: Plan)
    ensures RepairTodo(p, Body(p.key, p.migration.spec, p.pods))
  {
    CrdTasksShape(p.Clusters());
    WantTasksRepair(p, p.Wanted());
  }

  lemma UpsertRepairs(p: Plan, bs: map<NsName, Backup>, w: Want)
    requires Consistent(p.Wanted()) && Stable(p, bs) && w in p.Wanted()
    ensures Wrong(p, UpsertBackup(bs, w)) <= Wrong(p, bs) && Stable(p, UpsertBackup(bs, w))
  {
    ConsistentDesired(p.Wanted(), w);
    WantsAlive(p, p.Clusters());
    var now := UpsertBackup(bs, w);
    assert w.id in bs ==> w.id !in Orphans(p.key, p.Live(), bs);
    forall id ensures id in Orphans(p.key, p.Live(), now) <==> id in Orphans(p.key, p.Live(), bs) {
      if id == w.id {
        assert Alive(p, w.id, w.backup);
      }
    }
  }

  lemma RemovalRepairs(p: Plan, bs: map<NsName, Backup>, id: NsName)
    requires Stable(p, bs) && id !in Desired(p.Wanted())
    ensures Wrong(p, bs - {id}) <= Wrong(p, bs) && Stable(p, bs - {id})
  {
  }

  /** A write of backups does nothing, or removes one backup, or is one iteration of the loop. */
  lemma WriteOutcome(key: NsName, st: Store, t: Task, reply: Reply)
    requires WritesBackups(t)
    ensures var now := Step(key, st, t, reply).store.backups;
      || now == st.backups
      || now == if t.DeleteBackup? then st.backups - {t.backupId} else UpsertBackup(st.backups, t.want)
  {
  }

  lemma WriteRepairs(p: Plan, st: Store, t: Task, reply: Reply)
    requires WritesBackups(t) && RepairTask(p, t)
    requires Consistent(p.Wanted()) && Stable(p, st.backups)
    ensures var now := Step(p.key, st, t, reply).store;
      Wrong(p, now.backups) <= Wrong(p, st.backups) && Stable(p, now.backups)
  {
    WriteOutcome(p.key, st, t, reply);
    if t.DeleteBackup? {
      RemovalRepairs(p, st.backups, t.backupId);
    } else {
      UpsertRepairs(p, st.backups, t.want);
    }
  }

  lemma ListOrphansRepairs(p: Plan, st: Store, reply: Reply)
    requires Stable(p, st.backups)
    ensures var turn := Step(p.key, st, ListOrphans(p.Live()), reply); turn.Go? ==> RepairTodo(p, turn.next)
  {
    var turn := Step(p.key, st, ListOrphans(p.Live()), reply);
    if turn.Go? {
      var ids := OrphansIn(st.backups, p.Live(), reply.listing);
      Passes.OrphansInSet(st.backups, p.Live(), reply.listing);
      forall t | t in turn.next ensures RepairTask(p, t) {
        var i :| 0 <= i < |ids| && turn.next[i] == t;
        assert ids[i] in ids && ids[i] in Orphans(p.key, p.Live(), st.backups);
      }
    }
  }

  lemma TargetFollowUp(p: Plan, st: Store, t: Task, reply: Reply)
    requires t.LabelWorkload? || t.UnlabelWorkload? || t.PutWorkload? || t.LabelPod? || t.UnlabelPod? || t.PutPod?
    requires t.LabelPod? ==> t.clusters != []
    ensures var turn := Step(p.key, st, t, reply); turn.Go? ==> RepairTodo(p, turn.next)
  {
  }

  lemma InfraFollowUp(p: Plan, st: Store, t: Task, reply: Reply)
    requires OnInfra(t)
    ensures var turn := Step(p.key, st, t, reply); turn.Go? ==> RepairTodo(p, turn.next)
  {
    if t.GetNamespace? || t.CreateNamespace? || t.GetCRD? || t.CreateCRD? {
      assert Step(p.key, st, t, reply) == InfraTurn(st, t, reply);
    } else {
      assert Step(p.key, st, t, reply) == PolicyTurn(st, t, reply);
    }
  }

  /** A follow-up of any other task concerns the same desired backup, or no backup at all. */
  lemma OtherFollowUp(p: Plan, st: Store, t: Task, reply: Reply)
    requires RepairTask(p, t) && !t.ListOrphans? && (t.LabelPod? ==> t.clusters != [])
    ensures var turn := Step(p.key, st, t, reply); turn.Go? ==> RepairTodo(p, turn.next)
  {
    if OnInfra(t) {
      InfraFollowUp(p, st, t, reply);
    } else if t.LabelWorkload? || t.UnlabelWorkload? || t.PutWorkload? || t.LabelPod? || t.UnlabelPod? || t.PutPod? {
      TargetFollowUp(p, st, t, reply);
    }
  }

  /** One request of the body of a pass: what is wrong can only become less. */
  lemma RequestRepairs(p: Plan, st: Store, todo: seq<Task>, reply: Reply)
    requires RepairTodo(p, todo) && Consistent(p.Wanted()) && Stable(p, st.backups)
    ensures var moved := Advance(p.key, p.clients, st, todo, reply);
      && Wrong(p, moved.store.backups) <= Wrong(p, st.backups)
      && Stable(p, moved.store.backups) && RepairTodo(p, moved.todo)
  {
    if todo != [] && Blocked(todo[0], p.clients).None? && !Skipped(todo[0], p.clients) {
      var t := todo[0];
      assert t in todo;
      if WritesBackups(t) {
        WriteRepairs(p, st, t, reply);
      } else {
        StepFrame(p.key, st, t, reply);
      }
      if t.ListOrphans? {
        ListOrphansRepairs(p, st, reply);
      } else {
        OtherFollowUp(p, st, t, reply);
      }
    }
  }

  /** The program counter and the store after some requests of the body of a pass. */
  function AfterRequests(p: Plan, st: Store, replies: seq<Reply>): Moved
    decreases |replies|
  {
    if replies == [] then Moved(st, Body(p.key, p.migration.spec, p.pods))
    else
      var before := AfterRequests(p, st, replies[..|replies| - 1]);
      Advance(p.key, p.clients, before.store, before.todo, replies[|replies| - 1])
  }

  lemma {:induction false} StableThroughout(p: Plan, st: Store, replies: seq<Reply>)
    requires Consistent(p.Wanted()) && Stable(p, st.backups)
    ensures var now := AfterRequests(p, st, replies); RepairTodo(p, now.todo) && Stable(p, now.store.backups)
    decreases |replies|
  {
    BodyRepairs(p);
    if replies != [] {
      StableThroughout(p, st, replies[..|replies| - 1]);
      var before := AfterRequests(p, st, replies[..|replies| - 1]);
      RequestRepairs(p, before.store, before.todo, replies[|replies| - 1]);
    }
  }

  /** Monotone repair: at every request of a pass, whatever its fate, the number of wrong backups does
      not rise; and at the goal of the pass it is zero. */
  lemma MonotoneRepair(p: Plan, st: Store, replies: seq<Reply>, next: Reply)
    requires Consistent(p.Wanted()) && Stable(p, st.backups)
    ensures var before, after := AfterRequests(p, st, replies), AfterRequests(p, st, replies + [next]);
      |Wrong(p, after.store.backups)| <= |Wrong(p, before.store.backups)|
    ensures Wrong(p, GoalBackups(p, st.backups)) == {}
  {
    StableThroughout(p, st, replies);
    var before := AfterRequests(p, st, replies);
    assert (replies + [next])[..|replies|] == replies;
    RequestRepairs(p, before.store, before.todo, next);
    SubsetSize(Wrong(p, AfterRequests(p, st, replies + [next]).store.backups), Wrong(p, before.store.backups));
    NothingWrongAtGoal(p, st.backups);
  }

  /** A successful pass leaves nothing wrong exactly when its start was stable. Otherwise a desired
      backup is missing: the clean-up has deleted it. */
  lemma NothingWrongAtGoal(p: Plan, bs: map<NsName, Backup>)
    ensures Wrong(p, GoalBackups(p, bs)) == {} <==> Stable(p, bs)
  {
    forall id ensures id in Wrong(p, GoalBackups(p, bs)) <==>
      id in Desired(p.Wanted()) && id in bs && id in Orphans(p.key, p.Live(), bs)
    {
      WrongAtGoal(p, bs, id);
    }
    if !Stable(p, bs) {
      var id :| id in Desired(p.Wanted()) && id in bs && id in Orphans(p.key, p.Live(), bs);
      assert id in Wrong(p, GoalBackups(p, bs));
    }
  }

  lemma WrongAtGoal(p: Plan, bs: map<NsName, Backup>, id: NsName)
    ensures id in Wrong(p, GoalBackups(p, bs)) <==>
      id in Desired(p.Wanted()) && id in bs && id in Orphans(p.key, p.Live(), bs)
  {
    GoalPointwise(p, bs, id);
    assert Find(GoalBackups(p, bs), id).Some? <==> id in GoalBackups(p, bs);
    if id in Desired(p.Wanted()) {
      DesiredIsAlive(p, id);
    }
    if id in bs {
      assert id in Orphans(p.key, p.Live(), bs) <==> BelongsTo(p.key, id, bs[id]) && Dead(p.Live(), bs[id]);
    }
  }
}
