/** The client of the Karmada control plane: the upsert of PropagationPolicies. */
module KarmadaClients {
  import opened Objects
  import opened Cluster
  import opened Machine
  import opened ApiServers

  ghost function Except(labels: Labels, left: set<string>): Labels {
    labels - left
  }

  lemma CopyOne(own: Labels, labels: Labels, left: set<string>, k: string)
    requires k in left && k in labels
    ensures var before := own + SystemLabels(Except(labels, left));
      own + SystemLabels(Except(labels, left - {k})) == if SystemLabel(k) then before[k := labels[k]] else before
  {
  }

  class KarmadaClient {
    const api: ApiServer

    constructor (api: ApiServer)
      ensures this.api == api
    {
      this.api := api;
    }

    /** Copies the system labels of `existing`, which come in no particular order, over the caller's. */
    method PreserveSystemLabels(policy: Policy, existing: Policy) returns (merged: Policy)
      ensures merged == MergePolicy(policy, existing)
      ensures merged == policy.(labels := merged.labels)
      ensures forall k ::
        var kept := k in existing.labels && ("propagationpolicy.karmada.io/" <= k || "karmada.io/" <= k);
        Find(merged.labels, k) == Find((if kept then existing else policy).labels, k)
    {
      var labels := policy.labels;
      var left := existing.labels.Keys;
      while left != {}
        invariant left <= existing.labels.Keys
        invariant labels == policy.labels + SystemLabels(Except(existing.labels, left))
        decreases left
      {
        var k :| k in left;
        CopyOne(policy.labels, existing.labels, left, k);
        if SystemLabel(k) {
          labels := labels[k := existing.labels[k]];
        }
        left := left - {k};
      }
      assert Except(existing.labels, {}) == existing.labels;
      merged := policy.(labels := labels);
    }

    method CreateOrUpdatePropagationPolicy(ghost key: NsName, ghost cl: Clients, id: NsName, policy: Policy)
      returns (status: Status)
      requires cl.karmada
      modifies api
      ensures Run(api.store, api.replies, status)
        == Exec(key, cl, old(api.store), [UpsertPolicy(id, policy)], old(api.replies))
    {
      ghost var next := if id in api.store.policies
                        then PutPolicy(id, api.store.policies[id], MergePolicy(policy, api.store.policies[id]))
                        else CreatePolicy(id, policy);
      ReadRun(key, cl, api.store, UpsertPolicy(id, policy), [next], api.replies);
      var got := api.Get(Find(api.store.policies, id));
      match got
      case Err(NotFound) =>
        WriteRun(key, cl, api.store, next, CreateVerdict(id in api.store.policies),
                 api.store.(policies := api.store.policies[id := policy]), [], api.replies);
        status := api.Put(CreateVerdict(id in api.store.policies),
                          api.store.(policies := api.store.policies[id := policy]));
      case Err(e) =>
        status := Failed(e);
      case Ok(existing) =>
        var merged := PreserveSystemLabels(policy, existing);
        WriteRun(key, cl, api.store, next, UpdateVerdict(Find(api.store.policies, id), existing),
                 api.store.(policies := api.store.policies[id := merged]), [], api.replies);
        status := api.Put(UpdateVerdict(Find(api.store.policies, id), existing),
                          api.store.(policies := api.store.policies[id := merged]));
    }
  }
}
