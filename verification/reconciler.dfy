/**
 * The DockerMachine reconciler and the lookups it is built from: a Machine's Cluster
 * (through the cluster-name label), a Cluster's DockerCluster (through its
 * infrastructure reference), a DockerMachine's owning Machine (through its owner
 * references), and the pod and service IP families of a Cluster.
 *
 * Every lookup returns the API reads it performed along with its result, so that
 * "no further lookup happens" can be stated.
 */
module Reconciler {
  import opened Wrappers
  import opened Lib
  import opened Resources
  import IPFamily
  import Association

  /** One API read or daemon lookup, in the order the reconciler performs them. */
  datatype Call =
    | GetMachine(machineKey: ObjectKey)
    | GetCluster(clusterKey: ObjectKey)
    | GetDockerCluster(dockerClusterKey: ObjectKey)
    | LookupContainer

  /** A result together with the reads that produced it, in order. */
  datatype Traced<+T> = Traced(result: T, calls: seq<Call>)

  /** What the controller runtime should do after a reconciliation. */
  datatype Action = Requeue(afterSeconds: nat)

  /** Every successful reconciliation asks to be requeued after five minutes. */
  const RequeueAfter: nat := 5 * 60

  /** The cluster name a machine's labels give, if the label is there. */
  function ClusterNameOf(machine: Machine): Option<string> {
    if ClusterNameLabel in machine.metadata.labels then Some(machine.metadata.labels[ClusterNameLabel])
    else None
  }

  /** The Cluster a Machine belongs to: `ClusterNotFound` without the cluster-name label
      (and no read); otherwise the read of that name in the machine's namespace, any
      failure of which (a missing Cluster included) is a `KubeError`. */
  function MachineCluster(machine: Machine, api: KubeApi): (r: Traced<Result<Cluster>>)
    ensures ClusterNameLabel !in machine.metadata.labels ==> r == Traced(Err(ClusterNotFound), [])
    ensures ClusterNameLabel in machine.metadata.labels ==>
      var key := ObjectKey(NamespaceOf(machine.metadata), machine.metadata.labels[ClusterNameLabel]);
      && r.calls == [GetCluster(key)]
      && (api.clusters(key).Found? ==> r.result == Ok(api.clusters(key).obj))
      && (api.clusters(key).Failed? ==> r.result == Err(KubeError(api.clusters(key).cause)))
  {
    match ClusterNameOf(machine)
    case None => Traced(Err(ClusterNotFound), [])
    case Some(name) =>
      var key := ObjectKey(NamespaceOf(machine.metadata), name);
      match api.clusters(key)
      case Found(cluster) => Traced(Ok(cluster), [GetCluster(key)])
      case Failed(e) => Traced(Err(KubeError(e)), [GetCluster(key)])
  }

  /** The DockerCluster a Cluster's infrastructure reference names, read in the
      cluster's namespace. A missing reference or name, and every failed read, give
      `None`. */
  function ClusterDockerCluster(cluster: Cluster, api: KubeApi): (r: Traced<Option<DockerCluster>>)
    ensures cluster.infrastructureRef.None? || cluster.infrastructureRef.value.name.None?
      ==> r == Traced(None, [])
    ensures cluster.infrastructureRef.Some? && cluster.infrastructureRef.value.name.Some? ==>
      var key := ObjectKey(NamespaceOf(cluster.metadata), cluster.infrastructureRef.value.name.value);
      && r.calls == [GetDockerCluster(key)]
      && (r.result.Some? <==> api.dockerClusters(key).Found?)
      && (r.result.Some? ==> r.result.value == api.dockerClusters(key).obj)
  {
    if cluster.infrastructureRef.Some? && cluster.infrastructureRef.value.name.Some? then
      var key := ObjectKey(NamespaceOf(cluster.metadata), cluster.infrastructureRef.value.name.value);
      match api.dockerClusters(key)
      case Found(dc) => Traced(Some(dc), [GetDockerCluster(key)])
      case Failed(_) => Traced(None, [GetDockerCluster(key)])
    else
      Traced(None, [])
  }

  /** Which Cluster a Machine resolves to depends only on its namespace and the value of
      its cluster-name label: other labels, the rest of its metadata and its
      infrastructure reference play no part. */
  lemma MachineClusterDependsOnLabel(a: Machine, b: Machine, api: KubeApi)
    requires NamespaceOf(a.metadata) == NamespaceOf(b.metadata)
    requires ClusterNameOf(a) == ClusterNameOf(b)
    ensures MachineCluster(a, api) == MachineCluster(b, api)
  {
  }

  /** The DockerCluster is read by the reference's name alone, in the Cluster's own
      namespace: the reference's kind, API version and namespace never change the
      lookup. */
  lemma ClusterDockerClusterUsesNameOnly(cluster: Cluster, api: KubeApi, kind: Option<string>,
                                         apiVersion: Option<string>, namespace: Option<string>)
    requires cluster.infrastructureRef.Some?
    ensures ClusterDockerCluster(cluster.(infrastructureRef := Some(cluster.infrastructureRef.value.(
              kind := kind, apiVersion := apiVersion, namespace := namespace))), api)
         == ClusterDockerCluster(cluster, api)
  {
  }

  /** The ranges a cluster's network configures for pods. */
  function PodRanges(cluster: Cluster): seq<string> {
    match cluster.clusterNetwork
    case Some(ClusterNetwork(Some(pods), _)) => pods.cidrBlocks
    case _ => []
  }

  /** The ranges a cluster's network configures for services. */
  function ServiceRanges(cluster: Cluster): seq<string> {
    match cluster.clusterNetwork
    case Some(ClusterNetwork(_, Some(services))) => services.cidrBlocks
    case _ => []
  }

  /** The pod IP family: the classification of the pod ranges, and the default IPv4
      family when the network or its pod section is missing. */
  function PodIPFamily(cluster: Cluster, parse: IPFamily.AddrParser): (r: Result<IPFamily.ClusterIPFamily>)
    ensures cluster.clusterNetwork.None? || cluster.clusterNetwork.value.pods.None?
      ==> r == Ok(IPFamily.Default())
    ensures cluster.clusterNetwork.Some? && cluster.clusterNetwork.value.pods.Some?
      ==> r == IPFamily.New(parse, cluster.clusterNetwork.value.pods.value.cidrBlocks)
  {
    IPFamily.New(parse, PodRanges(cluster))
  }

  /** The service IP family: the classification of the service ranges, and the default
      IPv4 family when the network or its service section is missing. */
  function ServicesIPFamily(cluster: Cluster, parse: IPFamily.AddrParser): (r: Result<IPFamily.ClusterIPFamily>)
    ensures cluster.clusterNetwork.None? || cluster.clusterNetwork.value.services.None?
      ==> r == Ok(IPFamily.Default())
    ensures cluster.clusterNetwork.Some? && cluster.clusterNetwork.value.services.Some?
      ==> r == IPFamily.New(parse, cluster.clusterNetwork.value.services.value.cidrBlocks)
  {
    IPFamily.New(parse, ServiceRanges(cluster))
  }

  /** The pod family depends on the pod ranges only: changing the service ranges leaves
      it unchanged, and the other way round. */
  lemma IPFamiliesIndependent(cluster: Cluster, network: ClusterNetwork, parse: IPFamily.AddrParser)
    requires cluster.clusterNetwork.Some?
    ensures PodIPFamily(cluster.(clusterNetwork := Some(cluster.clusterNetwork.value.(services := network.services))), parse)
         == PodIPFamily(cluster, parse)
    ensures ServicesIPFamily(cluster.(clusterNetwork := Some(cluster.clusterNetwork.value.(pods := network.pods))), parse)
         == ServicesIPFamily(cluster, parse)
  {
  }

  /** The name of the first owner reference of kind Machine, if there is one. */
  function FirstMachineOwner(refs: seq<OwnerReference>): (r: Option<string>)
    ensures r.None? <==> forall i | 0 <= i < |refs| :: refs[i].kind != MachineKind
    ensures r.Some? ==> exists k | 0 <= k < |refs| ::
      && refs[k].kind == MachineKind
      && (forall j | 0 <= j < k :: refs[j].kind != MachineKind)
      && refs[k].name == r.value
  {
    if refs == [] then None
    else if refs[0].kind == MachineKind then Some(refs[0].name)
    else
      var r := FirstMachineOwner(refs[1..]);
      assert forall i | 1 <= i < |refs| :: refs[i] == refs[1..][i - 1];
      if r.Some? then
        var k :| 0 <= k < |refs[1..]| && refs[1..][k].kind == MachineKind
                 && (forall j | 0 <= j < k :: refs[1..][j].kind != MachineKind)
                 && refs[1..][k].name == r.value;
        assert refs[k + 1].kind == MachineKind;
        r
      else
        r
  }

  /** The Machine owning a DockerMachine: `MachineNotFound` without a Machine owner
      reference (and no read); otherwise the read of the first such owner in the
      DockerMachine's namespace, where a 404 means "not there yet" (`Ok(None)`) and any
      other failure is a `KubeError`. */
  function GetOwner(dm: DockerMachine, api: KubeApi): (r: Traced<Result<Option<Machine>>>)
    ensures (forall i | 0 <= i < |dm.metadata.ownerReferences| :: dm.metadata.ownerReferences[i].kind != MachineKind)
      ==> r == Traced(Err(MachineNotFound), [])
    ensures r.result.Err? ==> r.result.error == MachineNotFound || r.result.error.KubeError?
    ensures r.calls != [] ==> exists k | 0 <= k < |dm.metadata.ownerReferences| ::
      && dm.metadata.ownerReferences[k].kind == MachineKind
      && (forall j | 0 <= j < k :: dm.metadata.ownerReferences[j].kind != MachineKind)
      && var key := ObjectKey(NamespaceOf(dm.metadata), dm.metadata.ownerReferences[k].name);
      && r.calls == [GetMachine(key)]
      && (api.machines(key).Found? ==> r.result == Ok(Some(api.machines(key).obj)))
      && (api.machines(key) == Failed(ApiError(404)) ==> r.result == Ok(None))
      && (api.machines(key).Failed? && api.machines(key) != Failed(ApiError(404)) ==>
            r.result == Err(KubeError(api.machines(key).cause)))
    ensures r.calls == [] <==> r.result == Err(MachineNotFound)
    ensures r.calls == [] <==>
      forall i | 0 <= i < |dm.metadata.ownerReferences| :: dm.metadata.ownerReferences[i].kind != MachineKind
  {
    match FirstMachineOwner(dm.metadata.ownerReferences)
    case None => Traced(Err(MachineNotFound), [])
    case Some(name) =>
      var key := ObjectKey(NamespaceOf(dm.metadata), name);
      var calls := [GetMachine(key)];
      match api.machines(key)
      case Found(m) => Traced(Ok(Some(m)), calls)
      case Failed(ApiError(404)) => Traced(Ok(None), calls)
      case Failed(e) => Traced(Err(KubeError(e)), calls)
  }

  /** The Apply step for a DockerMachine: find its owning Machine (requeue while the owner
      Machine's read is a 404; no Machine owner reference is the error `MachineNotFound`),
      that Machine's Cluster, and the Cluster's DockerCluster (requeue while there
      is none), then look the container up. Every error of the owner, cluster and
      container lookups propagates unchanged; success always means "requeue in five
      minutes". `container` is the outcome of the container lookup. */
  function Reconcile(dm: DockerMachine, api: KubeApi, container: Result<Association.Node>)
    : (r: Traced<Result<Action>>)
    ensures r.result.Ok? ==> r.result.value == Requeue(RequeueAfter)
    ensures InOrder(r.calls)
    ensures LookupContainer in r.calls ==> r.result == if container.Ok? then Ok(Requeue(RequeueAfter)) else Err(container.error)
  {
    var owner := GetOwner(dm, api);
    if owner.result.Err? then Traced(Err(owner.result.error), owner.calls)
    else if owner.result.value.None? then Traced(Ok(Requeue(RequeueAfter)), owner.calls)
    else
      var cluster := MachineCluster(owner.result.value.value, api);
      var calls := owner.calls + cluster.calls;
      if cluster.result.Err? then Traced(Err(cluster.result.error), calls)
      else
        var dockerCluster := ClusterDockerCluster(cluster.result.value, api);
        var calls := calls + dockerCluster.calls;
        if dockerCluster.result.None? then Traced(Ok(Requeue(RequeueAfter)), calls)
        else
          var calls := calls + [LookupContainer];
          match container
          case Err(e) => Traced(Err(e), calls)
          case Ok(_) => Traced(Ok(Requeue(RequeueAfter)), calls)
  }

  /** The stage a read belongs to. */
  function Stage(c: Call): nat {
    match c
    case GetMachine(_) => 0
    case GetCluster(_) => 1
    case GetDockerCluster(_) => 2
    case LookupContainer => 3
  }

  /** Reads happen in stage order, each stage at most once. */
  predicate InOrder(calls: seq<Call>) {
    forall i, j | 0 <= i < j < |calls| :: Stage(calls[i]) < Stage(calls[j])
  }

  /** The Cleanup step: nothing is looked up or removed, and the answer is always
      "requeue in five minutes". */
  function Cleanup(dm: DockerMachine): (r: Traced<Result<Action>>)
    ensures r.result == Ok(Requeue(RequeueAfter)) && r.calls == []
  {
    Traced(Ok(Requeue(RequeueAfter)), [])
  }

  /** Every reconciliation starts with the owner lookup's reads, whatever follows. */
  lemma ReconcileReadsOwnerFirst(dm: DockerMachine, api: KubeApi, container: Result<Association.Node>)
    ensures GetOwner(dm, api).calls <= Reconcile(dm, api, container).calls
  {
  }

  /** While the owner Machine is not there, reconciliation only reads the owner and
      requeues: no Cluster, DockerCluster or container lookup happens. */
  lemma ReconcileWaitsForOwner(dm: DockerMachine, api: KubeApi, container: Result<Association.Node>)
    requires GetOwner(dm, api).result == Ok(None)
    ensures Reconcile(dm, api, container).result == Ok(Requeue(RequeueAfter))
    ensures |Reconcile(dm, api, container).calls| == 1
    ensures Reconcile(dm, api, container).calls[0].GetMachine?
    ensures Reconcile(dm, api, container).calls == GetOwner(dm, api).calls
  {
  }

  /** While the DockerCluster is not there, reconciliation requeues without looking the
      container up: here the first Machine owner `owner` is found, its cluster-name label
      names a Cluster that is found, and that Cluster's DockerCluster is not. */
  lemma ReconcileWaitsForDockerCluster(dm: DockerMachine, api: KubeApi, container: Result<Association.Node>,
                                       owner: string, machine: Machine, clusterName: string, cluster: Cluster)
    requires FirstMachineOwner(dm.metadata.ownerReferences) == Some(owner)
    requires api.machines(ObjectKey(NamespaceOf(dm.metadata), owner)) == Found(machine)
    requires ClusterNameOf(machine) == Some(clusterName)
    requires api.clusters(ObjectKey(NamespaceOf(machine.metadata), clusterName)) == Found(cluster)
    requires ClusterDockerCluster(cluster, api).result.None?
    ensures Reconcile(dm, api, container).result == Ok(Requeue(RequeueAfter))
    ensures LookupContainer !in Reconcile(dm, api, container).calls
    ensures Reconcile(dm, api, container).calls
         == GetOwner(dm, api).calls + MachineCluster(machine, api).calls + ClusterDockerCluster(cluster, api).calls
  {
  }

  /** The container is looked up exactly when the owner, its Cluster and the Cluster's
      DockerCluster were all found. */
  lemma ReconcileLooksUpContainerOnlyWhenResolved(dm: DockerMachine, api: KubeApi,
                                                  container: Result<Association.Node>)
    ensures LookupContainer in Reconcile(dm, api, container).calls <==>
      && GetOwner(dm, api).result.Ok?
      && GetOwner(dm, api).result.value.Some?
      && MachineCluster(GetOwner(dm, api).result.value.value, api).result.Ok?
      && ClusterDockerCluster(MachineCluster(GetOwner(dm, api).result.value.value, api).result.value, api).result.Some?
  {
  }

  /** Errors of the owner and cluster lookups come out of reconciliation unchanged. */
  lemma ReconcilePropagatesErrors(dm: DockerMachine, api: KubeApi, container: Result<Association.Node>)
    ensures GetOwner(dm, api).result.Err? ==>
      && Reconcile(dm, api, container).result == Err(GetOwner(dm, api).result.error)
      && Reconcile(dm, api, container).calls == GetOwner(dm, api).calls
    ensures GetOwner(dm, api).result.Ok? && GetOwner(dm, api).result.value.Some? &&
            MachineCluster(GetOwner(dm, api).result.value.value, api).result.Err? ==>
      && Reconcile(dm, api, container).result == Err(MachineCluster(GetOwner(dm, api).result.value.value, api).result.error)
      && Reconcile(dm, api, container).calls
         == GetOwner(dm, api).calls + MachineCluster(GetOwner(dm, api).result.value.value, api).calls
  {
  }

  /** When the owner, its Cluster and the Cluster's DockerCluster are all found, all four
      lookups happen in order and the container lookup decides the outcome. */
  lemma ReconcileHappyPath(dm: DockerMachine, api: KubeApi, container: Result<Association.Node>,
                           machine: Machine, cluster: Cluster, dockerCluster: DockerCluster)
    requires GetOwner(dm, api).result == Ok(Some(machine))
    requires MachineCluster(machine, api).result == Ok(cluster)
    requires ClusterDockerCluster(cluster, api).result == Some(dockerCluster)
    ensures Reconcile(dm, api, container).result ==
      if container.Ok? then Ok(Requeue(RequeueAfter)) else Err(container.error)
    ensures |Reconcile(dm, api, container).calls| == 4
    ensures forall i | 0 <= i < 4 :: Stage(Reconcile(dm, api, container).calls[i]) == i
    ensures Reconcile(dm, api, container).calls
         == GetOwner(dm, api).calls + MachineCluster(machine, api).calls
          + ClusterDockerCluster(cluster, api).calls + [LookupContainer]
  {
  }
}
