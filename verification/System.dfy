/** The controller process and its surroundings as a transition system: passes over different
    migrations interleave request by request with each other, with crashes and with other users. */
module System {
  import opened Objects
  import opened Naming
  import opened Cluster
  import opened Machine

  datatype Sys = Sys(store: Store, clients: Clients, passes: map<NsName, seq<Task>>)

  const NO_CLIENTS := Clients(false, false)

  datatype Action =
    | Begin(key: NsName, kubeconfig: bool)   // a worker takes the key from the queue
    | Request(key: NsName, reply: Reply)     // one API request of the pass over the key
    | Restart                                // the process dies and comes back
    | Environment(store: Store)              // anybody else changes the cluster

  predicate SameOwnLabels(a: Labels, b: Labels) {
    && Find(a, BACKUP_MIGRATION) == Find(b, BACKUP_MIGRATION)
    && Find(a, BACKUP_CLUSTER) == Find(b, BACKUP_CLUSTER)
    && Find(a, BACKUP_POD) == Find(b, BACKUP_POD)
  }

  /** What the controller relies on: nobody else takes its finalizer away, revokes a deletion, makes
      or relabels backups with its label, makes or redirects policies of backups or the policy of the
      shared namespace, or uninstalls a CRD. */
  ghost predicate Permitted(st: Store, now: Store) {
    && (forall key | key in st.migrations && FINALIZER in st.migrations[key].finalizers ::
          key in now.migrations && FINALIZER in now.migrations[key].finalizers &&
          (st.migrations[key].deleting ==> now.migrations[key].deleting))
    && (forall id | id in now.backups && Managed(now.backups[id]) ::
          id in st.backups && SameOwnLabels(now.backups[id].labels, st.backups[id].labels) &&
          now.backups[id].owner == st.backups[id].owner &&
          now.backups[id].spec.podRef == st.backups[id].spec.podRef)
    && (forall id | id in now.policies && (OfBackup(now.policies[id]) || id == NAMESPACE_POLICY) ::
          id in st.policies && now.policies[id].selector == st.policies[id].selector &&
          now.policies[id].clusters == st.policies[id].clusters)
    && st.crds <= now.crds
  }

  ghost predicate Initial(s: Sys) {
    && s.clients == NO_CLIENTS && s.passes == map[]
    && (forall id | id in s.store.backups :: !Managed(s.store.backups[id]))
    && (forall id | id in s.store.policies :: !OfBackup(s.store.policies[id]))
  }

  /** At most one pass per migration, and at most `workers` passes at a time. */
  ghost predicate Enabled(s: Sys, a: Action, workers: nat) {
    match a
    case Begin(key, _) => key !in s.passes && |s.passes| < workers
    case Request(key, _) => key in s.passes
    case Restart => true
    case Environment(now) => Permitted(s.store, now)
  }

  datatype Moved = Moved(store: Store, todo: seq<Task>)

  /** One request of a pass; the empty list says that the pass is over. */
  function Advance(key: NsName, cl: Clients, st: Store, todo: seq<Task>, reply: Reply): Moved {
    if todo == [] || Blocked(todo[0], cl).Some? then Moved(st, [])
    else if Skipped(todo[0], cl) then Moved(st, todo[1..])
    else
      var turn := Step(key, st, todo[0], reply);
      if turn.Halt? then Moved(turn.store, []) else Moved(turn.store, turn.next + todo[1..])
  }

  /** A pass starts by creating the clients that are still missing; both come from one kubeconfig. */
  function ClientsAtStart(cl: Clients, kubeconfig: bool): Clients {
    if !cl.karmada && kubeconfig then Clients(true, true) else cl
  }

  function After(s: Sys, a: Action): Sys {
    match a
    case Begin(key, kubeconfig) =>
      Sys(s.store, ClientsAtStart(s.clients, kubeconfig), s.passes[key := [Fetch]])
    case Request(key, reply) =>
      if key !in s.passes then s
      else
        var moved := Advance(key, s.clients, s.store, s.passes[key], reply);
        Sys(moved.store, s.clients,
            if moved.todo == [] then s.passes - {key} else s.passes[key := moved.todo])
    case Restart => Sys(s.store, NO_CLIENTS, map[])
    case Environment(now) => s.(store := now)
  }

  function AfterAll(s: Sys, actions: seq<Action>): Sys {
    if actions == [] then s else After(AfterAll(s, actions[..|actions| - 1]), actions[|actions| - 1])
  }

  /** `actions` is a run from `s`. */
  ghost predicate IsRun(s: Sys, actions: seq<Action>, workers: nat) {
    actions != [] ==>
      IsRun(s, actions[..|actions| - 1], workers) &&
      Enabled(AfterAll(s, actions[..|actions| - 1]), actions[|actions| - 1], workers)
  }
}
