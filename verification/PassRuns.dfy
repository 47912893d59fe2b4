/** The passes of a quiet cluster are runs of the transition system, and what a deletion request
    means for the runs that follow it. */
module PassRuns {
  import opened Objects
  import opened Naming
  import opened Cluster
  import opened Machine
  import opened System
  import opened Safety

  lemma {:induction false} AfterAllCons(s: Sys, a: Action, rest: seq<Action>, workers: nat)
    ensures AfterAll(s, [a] + rest) == AfterAll(After(s, a), rest)
    ensures Enabled(s, a, workers) && IsRun(After(s, a), rest, workers) ==> IsRun(s, [a] + rest, workers)
    decreases |rest|
  {
    var all := [a] + rest;
    if rest == [] {
      assert all[..0] == [] && all == [a];
    } else {
      var n := |rest| - 1;
      assert all[..|all| - 1] == [a] + rest[..n] && all[|all| - 1] == rest[n];
      AfterAllCons(s, a, rest[..n], workers);
    }
  }

  ghost predicate RequestsOf(key: NsName, actions: seq<Action>) {
    forall a | a in actions :: a.Request? && a.key == key
  }

  /** Carrying out tasks in a quiet cluster is a run of requests that ends in the same store. The pass
      is over at the end of the run unless it ran out of replies, and then it is still in flight. */
  lemma {:induction false} ExecIsRun(s: Sys, key: NsName, replies: seq<Reply>, workers: nat)
    returns (actions: seq<Action>)
    requires key in s.passes && s.passes[key] != []
    ensures IsRun(s, actions, workers) && RequestsOf(key, actions)
    ensures var r, end := Exec(key, s.clients, s.store, s.passes[key], replies), AfterAll(s, actions);
      && end.store == r.store && end.clients == s.clients
      && end.passes - {key} == s.passes - {key}
      && (r.status.Done? ==> key !in end.passes)
      && (key in end.passes ==> r.status == Failed(Unavailable) && end.passes[key] != [])
    decreases |replies|, |s.passes[key]|
  {
    var todo := s.passes[key];
    var t := todo[0];
    if Blocked(t, s.clients).None? && !Skipped(t, s.clients) && replies == [] {
      actions := [];
    } else {
      var reply := if replies == [] then Lost else replies[0];
      var a := Request(key, reply);
      var next := After(s, a);
      assert next.passes - {key} == s.passes - {key};
      var more: seq<Action> := [];
      if key in next.passes {
        assert next.passes[key] == Advance(key, s.clients, s.store, todo, reply).todo;
        more := ExecIsRun(next, key, if Skipped(t, s.clients) then replies else replies[1..], workers);
      }
      actions := [a] + more;
      AfterAllCons(s, a, more, workers);
    }
  }

  /** A whole pass over a migration that nobody works on: one worker takes it and carries it out. */
  lemma PassIsRun(s: Sys, key: NsName, kubeconfig: bool, replies: seq<Reply>, workers: nat)
    returns (actions: seq<Action>)
    requires key !in s.passes && |s.passes| < workers
    ensures IsRun(s, actions, workers)
    ensures var cl := ClientsAtStart(s.clients, kubeconfig);
      var r, end := Exec(key, cl, s.store, [Fetch], replies), AfterAll(s, actions);
      && end.store == r.store && end.clients == cl
      && end.passes - {key} == s.passes
      && (r.status.Done? ==> end.passes == s.passes)
  {
    var started := After(s, Begin(key, kubeconfig));
    var more := ExecIsRun(started, key, replies, workers);
    actions := [Begin(key, kubeconfig)] + more;
    AfterAllCons(s, Begin(key, kubeconfig), more, workers);
    TakenAndOver(s.passes, started.passes, AfterAll(started, more).passes, key);
  }

  lemma TakenAndOver(before: map<NsName, seq<Task>>, started: map<NsName, seq<Task>>,
                     end: map<NsName, seq<Task>>, key: NsName)
    requires key !in before && started == before[key := [Fetch]] && end - {key} == started - {key}
    ensures end - {key} == before && (key !in end ==> end == before)
  {
    assert started - {key} == before;
    assert key !in end ==> end - {key} == end;
  }

  /** A run without its last action is a run, and so is a run with an action that is enabled after it. */
  lemma RunFront(s: Sys, actions: seq<Action>, workers: nat)
    requires actions != []
    ensures var before, a := actions[..|actions| - 1], actions[|actions| - 1];
      && (IsRun(s, actions, workers) <==> IsRun(s, before, workers) && Enabled(AfterAll(s, before), a, workers))
      && AfterAll(s, actions) == After(AfterAll(s, before), a)
  {
  }

  lemma {:induction false} RunThen(s: Sys, first: seq<Action>, second: seq<Action>, workers: nat)
    requires IsRun(s, first, workers) && IsRun(AfterAll(s, first), second, workers)
    ensures IsRun(s, first + second, workers)
    ensures AfterAll(s, first + second) == AfterAll(AfterAll(s, first), second)
    decreases |second|
  {
    var all := first + second;
    if second == [] {
      assert all == first;
    } else {
      var front := second[..|second| - 1];
      assert all[..|all| - 1] == first + front && all[|all| - 1] == second[|second| - 1];
      RunFront(AfterAll(s, first), second, workers);
      RunFront(s, all, workers);
      RunThen(s, first, front, workers);
    }
  }

  /** One more action at the end of a run. */
  lemma RunOne(s: Sys, actions: seq<Action>, a: Action, workers: nat)
    requires IsRun(s, actions, workers) && Enabled(AfterAll(s, actions), a, workers)
    ensures IsRun(s, actions + [a], workers) && AfterAll(s, actions + [a]) == After(AfterAll(s, actions), a)
  {
    assert (actions + [a])[..|actions|] == actions;
  }

  /** From one start of the process to the next there are both clients or none, and there are both from the
      first pass on that finds a kubeconfig, whatever later passes find. */
  lemma {:induction false} ClientsOnceCreated(s: Sys, actions: seq<Action>, workers: nat)
    requires !s.clients.karmada && !s.clients.member && IsRun(s, actions, workers) && Restart !in actions
    ensures var now := AfterAll(s, actions).clients;
      && (now.karmada <==> exists key :: Begin(key, true) in actions)
      && (now.member <==> now.karmada)
    decreases |actions|
  {
    if actions != [] {
      var n := |actions| - 1;
      var front, a := actions[..n], actions[n];
      assert actions == front + [a];
      ClientsOnceCreated(s, front, workers);
      assert forall key :: Begin(key, true) in actions <==> Begin(key, true) in front || a == Begin(key, true);
      assert a in actions;
      RunFront(s, actions, workers);
    }
  }

  /** The first tasks of a pass, carried out to the end, with the rest still to come. */
  lemma {:induction false} RunTo(
    s: Sys, key: NsName, first: seq<Task>, rest: seq<Task>, replies: seq<Reply>, workers: nat)
    returns (actions: seq<Action>)
    requires key in s.passes && s.passes[key] == first + rest && rest != []
    requires Exec(key, s.clients, s.store, first, replies).status.Done?
    ensures IsRun(s, actions, workers) && RequestsOf(key, actions)
    ensures AfterAll(s, actions)
         == Sys(Exec(key, s.clients, s.store, first, replies).store, s.clients, s.passes[key := rest])
    decreases |replies|, |first|
  {
    if first == [] {
      actions := [];
      assert first + rest == rest && s.passes[key := rest] == s.passes;
    } else {
      var skipped := Skipped(first[0], s.clients);
      var reply := if skipped then Lost else replies[0];
      var todo := if skipped then first[1..] else Step(key, s.store, first[0], reply).next + first[1..];
      RunToStep(s, key, first, rest, reply);
      assert s.passes[key := todo + rest][key := rest] == s.passes[key := rest];
      var next := After(s, Request(key, reply));
      var more := RunTo(next, key, todo, rest, if skipped then replies else replies[1..], workers);
      actions := [Request(key, reply)] + more;
      AfterAllCons(s, Request(key, reply), more, workers);
    }
  }

  lemma RunToStep(s: Sys, key: NsName, first: seq<Task>, rest: seq<Task>, reply: Reply)
    requires key in s.passes && s.passes[key] == first + rest && first != [] && rest != []
    requires Blocked(first[0], s.clients).None?
    requires !Skipped(first[0], s.clients) ==> Step(key, s.store, first[0], reply).Go?
    ensures After(s, Request(key, reply)) ==
      if Skipped(first[0], s.clients) then Sys(s.store, s.clients, s.passes[key := first[1..] + rest])
      else
        var turn := Step(key, s.store, first[0], reply);
        Sys(turn.store, s.clients, s.passes[key := (turn.next + first[1..]) + rest])
  {
    assert (first + rest)[0] == first[0] && (first + rest)[1..] == first[1..] + rest;
    if !Skipped(first[0], s.clients) {
      var turn := Step(key, s.store, first[0], reply);
      assert turn.next + (first[1..] + rest) == (turn.next + first[1..]) + rest;
    }
  }

  // ----- After a deletion request -----

  /** The migration is being deleted, and no normal pass over it is in flight. */
  ghost predicate Winding(s: Sys, key: NsName) {
    && Held(s.store, key) && s.store.migrations[key].deleting
    && (key in s.passes ==> s.passes[key] == [Fetch] || DeleteTodo(s.store, key, s.passes[key]))
  }

  lemma WindingFetch(key: NsName, cl: Clients, st: Store, reply: Reply)
    requires Held(st, key) && st.migrations[key].deleting
    ensures var moved := Advance(key, cl, st, [Fetch], reply);
      moved.store == st && (moved.todo != [] ==> DeleteTodo(st, key, moved.todo))
  {
    DeleteProgramShape(st, key, st.migrations[key]);
    var turn := Step(key, st, Fetch, reply);
    if turn.Go? {
      assert turn.next + [Fetch][1..] == turn.next;
    }
  }

  lemma WindingDelete(key: NsName, cl: Clients, st: Store, todo: seq<Task>, reply: Reply)
    requires Held(st, key) && DeleteTodo(st, key, todo)
    ensures var moved := Advance(key, cl, st, todo, reply);
      && Selected(key, moved.store.backups) <= Selected(key, st.backups)
      && (Held(moved.store, key) ==> moved.store.migrations == st.migrations)
      && (moved.todo != [] ==> DeleteTodo(moved.store, key, moved.todo))
  {
    var t, rest := todo[0], todo[1..];
    assert todo == [t] + rest;
    if |todo| == 1 {
      FinalizerTurn(key, st, t.seen, reply);
      WindingRelease(key, st, t.seen, reply);
    } else {
      assert t in todo[..|todo| - 1];
      assert rest[..|rest| - 1] == todo[..|todo| - 1][1..];
      if Blocked(t, cl).None? && Skipped(t, cl) {
        assert DeleteTodo(st, key, rest);
      } else if Blocked(t, cl).None? {
        DeleteTurn(key, st, t, reply);
        if Step(key, st, t, reply).Go? {
          WindingNext(key, st, t, rest, reply);
        }
      }
    }
  }

  lemma WindingNext(key: NsName, st: Store, t: Task, rest: seq<Task>, reply: Reply)
    requires DeleteTask(t) && DeleteTodo(st, key, [t] + rest) && rest != []
    requires Step(key, st, t, reply).Go?
    ensures var turn := Step(key, st, t, reply); DeleteTodo(turn.store, key, turn.next + rest)
  {
    var turn, todo := Step(key, st, t, reply), [t] + rest;
    DeleteTurn(key, st, t, reply);
    DeleteStepCovers(key, st, t, rest, reply);
    assert todo[..|todo| - 1] == [t] + rest[..|rest| - 1];
    var left := turn.next + rest;
    assert left[..|left| - 1] == turn.next + rest[..|rest| - 1];
  }

  /** Removing the finalizer either does nothing or ends the hold on the migration. */
  lemma WindingRelease(key: NsName, st: Store, seen: Migration, reply: Reply)
    requires Held(st, key)
    ensures var now := Step(key, st, RemoveFinalizer(seen), reply).store;
      Held(now, key) ==> now.migrations == st.migrations
  {
  }

  lemma WindingAction(s: Sys, a: Action, workers: nat, key: NsName)
    requires Safe(s) && Winding(s, key) && Enabled(s, a, workers)
    ensures Selected(key, After(s, a).store.backups) <= Selected(key, s.store.backups)
    ensures Held(After(s, a).store, key) ==> Winding(After(s, a), key)
  {
    match a
    case Request(other, reply) =>
      if other == key {
        WindingOwn(s, key, reply);
      } else {
        WindingOther(s, other, reply, key);
      }
    case Environment(now) =>
      assert Selected(key, now.backups) <= Selected(key, s.store.backups);
    case _ =>
  }

  lemma WindingOwn(s: Sys, key: NsName, reply: Reply)
    requires Winding(s, key) && key in s.passes
    ensures var next := After(s, Request(key, reply));
      && Selected(key, next.store.backups) <= Selected(key, s.store.backups)
      && (Held(next.store, key) ==> Winding(next, key))
  {
    if s.passes[key] == [Fetch] {
      WindingFetch(key, s.clients, s.store, reply);
    } else {
      WindingDelete(key, s.clients, s.store, s.passes[key], reply);
    }
  }

  lemma WindingOther(s: Sys, other: NsName, reply: Reply, key: NsName)
    requires Safe(s) && Winding(s, key) && other in s.passes && other != key
    ensures var next := After(s, Request(other, reply));
      && Selected(key, next.store.backups) <= Selected(key, s.store.backups)
      && Winding(next, key)
  {
    AdvanceSafe(other, s.clients, s.store, s.passes[other], reply);
    SelectedByOthers(other, key, s.store, After(s, Request(other, reply)).store);
  }

  lemma SelectedByOthers(other: NsName, key: NsName, st: Store, now: Store)
    requires OwnStep(other, st, now) && other != key
    ensures Selected(key, now.backups) <= Selected(key, st.backups)
  {
    forall id | id in Selected(key, now.backups) ensures id in Selected(key, st.backups) {
      assert !(WellFormed(id, now.backups[id]) && now.backups[id].owner == other);
    }
  }

  /** The migration keeps its finalizer throughout the run. */
  ghost predicate HeldThroughout(s: Sys, actions: seq<Action>, key: NsName) {
    Held(AfterAll(s, actions).store, key) &&
    (actions != [] ==> HeldThroughout(s, actions[..|actions| - 1], key))
  }

  /** Once a migration is being deleted and no normal pass over it is in flight, no run adds a backup
      of it, whatever happens: the m-backups only become fewer until the migration is released. */
  lemma {:induction false} DeletionNeverAddsBackups(s: Sys, actions: seq<Action>, workers: nat, key: NsName)
    requires Safe(s) && Winding(s, key)
    requires IsRun(s, actions, workers)
    requires actions != [] ==> HeldThroughout(s, actions[..|actions| - 1], key)
    ensures Selected(key, AfterAll(s, actions).store.backups) <= Selected(key, s.store.backups)
    ensures Safe(AfterAll(s, actions))
    ensures Held(AfterAll(s, actions).store, key) ==> Winding(AfterAll(s, actions), key)
  {
    if actions != [] {
      var before := actions[..|actions| - 1];
      DeletionNeverAddsBackups(s, before, workers, key);
      ActionSafe(AfterAll(s, before), actions[|actions| - 1], workers);
      WindingAction(AfterAll(s, before), actions[|actions| - 1], workers, key);
    }
  }
}
