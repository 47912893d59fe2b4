/** The client of the member clusters, which goes through the Karmada proxy. */
module MemberClusterClients {
  import opened Objects
  import opened Cluster
  import opened Machine
  import opened ApiServers
  import opened KarmadaClients

  class MemberClusterClient {
    const karmadaClient: KarmadaClient

    constructor (karmadaClient: KarmadaClient)
      ensures this.karmadaClient == karmadaClient
    {
      this.karmadaClient := karmadaClient;
    }

    method GetPodFromCluster(cluster: string, pod: NsName) returns (r: Result<Pod>)
      modifies karmadaClient.api`replies
      ensures karmadaClient.api.replies == Tail(old(karmadaClient.api.replies))
      ensures var place := MemberPodId(cluster, pod);
        r == if !Head(old(karmadaClient.api.replies)).Answer? then Err(Unavailable)
             else if place in karmadaClient.api.store.memberPods then Ok(karmadaClient.api.store.memberPods[place])
             else Err(NotFound)
    {
      var api := karmadaClient.api;
      r := api.Get(Find(api.store.memberPods, MemberPodId(cluster, pod)));
    }

    /** Puts back a pod that was read as `before`. */
    method UpdatePodInCluster(ghost key: NsName, ghost cl: Clients, place: MemberPodId, before: Pod, after: Pod)
      returns (status: Status)
      modifies karmadaClient.api
      ensures Run(karmadaClient.api.store, karmadaClient.api.replies, status)
        == Exec(key, cl, old(karmadaClient.api.store), [PutPod(place, before, after)], old(karmadaClient.api.replies))
    {
      var api := karmadaClient.api;
      ExecOne(key, cl, api.store, PutPod(place, before, after), api.replies);
      status := api.Put(UpdateVerdict(Find(api.store.memberPods, place), before),
                        api.store.(memberPods := api.store.memberPods[place := after]));
    }

    /** Checks for the CRD and, when the check gives any error at all, installs it. */
    method EnsureCRD(ghost key: NsName, ghost cl: Clients, cluster: string) returns (status: Status)
      requires cl.member
      modifies karmadaClient.api
      ensures Run(karmadaClient.api.store, karmadaClient.api.replies, status)
        == Exec(key, cl, old(karmadaClient.api.store), [GetCRD(cluster)], old(karmadaClient.api.replies))
    {
      var api := karmadaClient.api;
      ExecOne(key, cl, api.store, GetCRD(cluster), api.replies);
      var installed := api.Get(if cluster in api.store.crds then Some(()) else None);
      if installed.Ok? {
        return Done;
      }
      ExecOne(key, cl, api.store, CreateCRD(cluster), api.replies);
      status := api.Put(CreateVerdict(cluster in api.store.crds),
                        api.store.(crds := api.store.crds + {cluster}));
    }
  }
}
