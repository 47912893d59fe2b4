/** The exact condition of monotone repair: without it a pass that finds nothing wrong makes some
    backup worse before it mends it. */
module Rising {
  import opened Objects
  import opened Naming
  import opened Cluster
  import opened Machine
  import opened Effect
  import opened Passes
  import opened Iterations
  import opened Convergence
  import opened Exactness
  import opened Progress
  import opened System
  import opened PassRuns
  import opened Repair

  /** The number of wrong backups rises at no request of the body of the pass. */
  ghost predicate NeverRises(p: Plan, st: Store) {
    forall replies: seq<Reply>, next: Reply :: NoRise(p, st, replies, next)
  }

  ghost predicate NoRise(p: Plan, st: Store, replies: seq<Reply>, next: Reply) {
    |WrongAfter(p, st, replies + [next])| <= |WrongAfter(p, st, replies)|
  }

  function WrongAfter(p: Plan, st: Store, replies: seq<Reply>): set<NsName> {
    Wrong(p, AfterRequests(p, st, replies).store.backups)
  }

  // ----- The requests of a run and those of `AfterRequests` -----

  function RepliesOf(actions: seq<Action>): (replies: seq<Reply>)
    requires forall a | a in actions :: a.Request?
    ensures |replies| == |actions|
  {
    seq(|actions|, i requires 0 <= i < |actions| => actions[i].reply)
  }

  function Started(p: Plan, st: Store): Sys {
    Sys(st, p.clients, map[p.key := Body(p.key, p.migration.spec, p.pods)])
  }

  /** The state with this pass in flight, or over when nothing is left to do. */
  function InFlight(p: Plan, moved: Moved): Sys {
    Sys(moved.store, p.clients, if moved.todo == [] then map[] else map[p.key := moved.todo])
  }

  lemma RequestInFlight(p: Plan, moved: Moved, reply: Reply)
    ensures After(InFlight(p, moved), Request(p.key, reply))
         == InFlight(p, Advance(p.key, p.clients, moved.store, moved.todo, reply))
  {
    if moved.todo != [] {
      var next := Advance(p.key, p.clients, moved.store, moved.todo, reply).todo;
      assert map[p.key := moved.todo] - {p.key} == map[];
      assert map[p.key := moved.todo][p.key := next] == map[p.key := next];
    }
  }

  lemma {:induction false} RunIsRequests(p: Plan, st: Store, actions: seq<Action>)
    requires RequestsOf(p.key, actions)
    ensures AfterAll(Started(p, st), actions) == InFlight(p, AfterRequests(p, st, RepliesOf(actions)))
    decreases |actions|
  {
    if actions != [] {
      var n := |actions| - 1;
      RunIsRequests(p, st, actions[..n]);
      assert RepliesOf(actions)[..n] == RepliesOf(actions[..n]);
      RequestInFlight(p, AfterRequests(p, st, RepliesOf(actions[..n])), actions[n].reply);
    }
  }

  // ----- The body of a pass up to one of its iterations -----

  function UpTo(p: Plan, n: nat): seq<Task>
    requires n <= |p.Wanted()|
  {
    NamespaceTasks(p.Clusters()) + (CrdTasks(p.Clusters()) + WantTasks(p.Wanted()[..n]))
  }

  function From(p: Plan, n: nat): seq<Task>
    requires n <= |p.Wanted()|
  {
    WantTasks(p.Wanted()[n..]) + [ListOrphans(p.Live())]
  }

  lemma BodySplits(p: Plan, n: nat)
    requires n <= |p.Wanted()|
    ensures Body(p.key, p.migration.spec, p.pods) == UpTo(p, n) + From(p, n)
  {
    assert p.Wanted() == p.Wanted()[..n] + p.Wanted()[n..];
    WantTasksConcat(p.Wanted()[..n], p.Wanted()[n..]);
  }

  lemma CanReady(p: Plan, st: Store) returns (now: Store)
    ensures Can(p.key, p.clients, st, NamespaceTasks(p.Clusters()), now) && now.backups == st.backups
  {
    CanNamespace(p.key, p.clients, st, p.Clusters());
    now :| Can(p.key, p.clients, st, NamespaceTasks(p.Clusters()), now);
    var replies :| Carries(p.key, p.clients, st, NamespaceTasks(p.Clusters()), replies, now);
    NamespaceRun(p.key, p.clients, st, p.Clusters(), replies);
  }

  lemma CanInstall(p: Plan, st: Store) returns (now: Store)
    ensures Can(p.key, p.clients, st, CrdTasks(p.Clusters()), now) && now.backups == st.backups
  {
    CanCrds(p.key, p.clients, st, p.Clusters());
    now :| Can(p.key, p.clients, st, CrdTasks(p.Clusters()), now);
    var replies :| Carries(p.key, p.clients, st, CrdTasks(p.Clusters()), replies, now);
    var n := CrdsRun(p.key, p.clients, st, p.Clusters(), replies);
  }

  lemma CanIterate(p: Plan, st: Store, ws: seq<Want>) returns (now: Store)
    ensures Can(p.key, p.clients, st, WantTasks(ws), now) && now.backups == UpsertBackups(st.backups, ws)
  {
    CanWants(p.key, p.clients, st, ws);
    now :| Can(p.key, p.clients, st, WantTasks(ws), now);
    var replies :| Carries(p.key, p.clients, st, WantTasks(ws), replies, now);
    var n := WantsRun(p.key, p.clients, st, ws, replies);
  }

  lemma CanGoUpTo(p: Plan, st: Store, n: nat) returns (end: Store)
    requires n <= |p.Wanted()|
    ensures Can(p.key, p.clients, st, UpTo(p, n), end)
    ensures end.backups == UpsertBackups(st.backups, p.Wanted()[..n])
  {
    var ws := p.Wanted()[..n];
    var a := CanReady(p, st);
    var b := CanInstall(p, a);
    end := CanIterate(p, b, ws);
    CanBoth(p.key, p.clients, a, CrdTasks(p.Clusters()), b, WantTasks(ws), end);
    CanBoth(p.key, p.clients, st, NamespaceTasks(p.Clusters()), a, CrdTasks(p.Clusters()) + WantTasks(ws), end);
  }

  /** Some requests carry out exactly the first iterations. */
  lemma Reaches(p: Plan, st: Store, n: nat) returns (replies: seq<Reply>)
    requires n <= |p.Wanted()|
    ensures AfterRequests(p, st, replies).store.backups == UpsertBackups(st.backups, p.Wanted()[..n])
  {
    var end := CanGoUpTo(p, st, n);
    var script :| Carries(p.key, p.clients, st, UpTo(p, n), script, end);
    BodySplits(p, n);
    var s := Sys(st, p.clients, map[p.key := UpTo(p, n) + From(p, n)]);
    var actions := RunTo(s, p.key, UpTo(p, n), From(p, n), script, 1);
    RunIsRequests(p, st, actions);
    replies := RepliesOf(actions);
  }

  // ----- Two iterations with one name -----

  /** The spec and the name of an iteration determine it. */
  lemma SameSpecSameWant(p: Plan, v: Want, w: Want)
    requires v in p.Wanted() && w in p.Wanted() && v.id == w.id && v.backup.spec == w.backup.spec
    ensures v == w
  {
    var spec := p.migration.spec;
    WantsAsSet(p.key, spec, p.pods, p.Clusters(), v);
    WantsAsSet(p.key, spec, p.pods, p.Clusters(), w);
    var a, c :| a in p.pods && c in p.Clusters() && v == WantFor(p.key, spec, a, c);
    var b, d :| b in p.pods && d in p.Clusters() && w == WantFor(p.key, spec, b, d);
    assert a.id.name == b.id.name;
    SamePodSameCluster(p.key.name, a.id.name, c, d);
  }

  /** Right after an iteration the backup has the spec of this iteration. */
  lemma SpecRightAfter(p: Plan, bs: map<NsName, Backup>, j: nat)
    requires j < |p.Wanted()|
    ensures var w, now := p.Wanted()[j], UpsertBackups(bs, p.Wanted()[..j + 1]);
      w.id in now && now[w.id].spec == w.backup.spec
  {
    HalfIteration(bs, p.Wanted(), j);
  }

  /** Where two iterations share a name, one of them writes another spec than the last one. */
  lemma SomeOtherSpec(p: Plan) returns (j: nat)
    requires !Consistent(p.Wanted())
    ensures j < |p.Wanted()|
    ensures var w := p.Wanted()[j];
      w.id in Desired(p.Wanted()) && w.backup.spec != Desired(p.Wanted())[w.id].spec
  {
    var ws := p.Wanted();
    var v, w :| v in ws && w in ws && v.id == w.id && v != w;
    if v.backup.spec == w.backup.spec {
      SameSpecSameWant(p, v, w);
    }
    var a :| 0 <= a < |ws| && ws[a] == v;
    var b :| 0 <= b < |ws| && ws[b] == w;
    DesiredNames(ws, v.id);
    j := if v.backup.spec != Desired(ws)[v.id].spec then a else b;
  }

  // ----- The condition -----

  lemma {:induction false} SomeStepRises(p: Plan, st: Store, replies: seq<Reply>)
    requires WrongAfter(p, st, []) == {} && WrongAfter(p, st, replies) != {}
    ensures !NeverRises(p, st)
    decreases |replies|
  {
    var n := |replies| - 1;
    assert replies == replies[..n] + [replies[n]];
    if NoRise(p, st, replies[..n], replies[n]) {
      assert |WrongAfter(p, st, replies)| > 0;
      assert WrongAfter(p, st, replies[..n]) != {};
      SomeStepRises(p, st, replies[..n]);
    }
  }

  /** If two different iterations share a name, the pass that finds nothing wrong raises the number of
      wrong backups at some request. */
  lemma InconsistentRises(p: Plan, st: Store)
    requires !Consistent(p.Wanted()) && Wrong(p, st.backups) == {}
    ensures !NeverRises(p, st)
  {
    var j := SomeOtherSpec(p);
    var replies := Reaches(p, st, j + 1);
    SpecRightAfter(p, st.backups, j);
    assert p.Wanted()[j].id in WrongAfter(p, st, replies);
    SomeStepRises(p, st, replies);
  }

  /** From all stable starts no request makes the backups worse if and only if iterations that share a
      name are the same iteration. */
  lemma MonotoneIffConsistent(p: Plan)
    ensures (forall st: Store :: Stable(p, st.backups) ==> NeverRises(p, st)) <==> Consistent(p.Wanted())
  {
    if Consistent(p.Wanted()) {
      forall st: Store | Stable(p, st.backups) ensures NeverRises(p, st) {
        forall replies, next ensures NoRise(p, st, replies, next) {
          MonotoneRepair(p, st, replies, next);
        }
      }
    } else {
      var st := Store(map[], map[], map[], map[], {}, {}, GoalBackups(p, map[]), map[]);
      NothingWrongAtGoal(p, map[]);
      assert Stable(p, st.backups);
      InconsistentRises(p, st);
    }
  }
}
