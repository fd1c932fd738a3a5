/**
 * The parts of the Kubernetes resources the controller reads: object metadata, owner
 * and object references, and the Machine, Cluster, DockerMachine and DockerCluster
 * kinds reduced to the fields the controller looks at. API reads are modelled as
 * total functions from an object key to a response.
 */
module Resources {
  import opened Wrappers
  import opened Lib

  datatype OwnerReference = OwnerReference(apiVersion: string, kind: string, name: string)

  /** A possibly incomplete reference to another object (every field optional). */
  datatype ObjectReference = ObjectReference(
    apiVersion: Option<string>,
    kind: Option<string>,
    name: Option<string>,
    namespace: Option<string>)

  datatype ObjectMeta = ObjectMeta(
    name: Option<string>,
    generateName: Option<string>,
    namespace: Option<string>,
    labels: map<string, string>,
    ownerReferences: seq<OwnerReference>)

  /** The CIDR ranges configured for pods or for services. */
  datatype NetworkRanges = NetworkRanges(cidrBlocks: seq<string>)

  datatype ClusterNetwork = ClusterNetwork(pods: Option<NetworkRanges>, services: Option<NetworkRanges>)

  datatype Cluster = Cluster(
    metadata: ObjectMeta,
    infrastructureRef: Option<ObjectReference>,
    clusterNetwork: Option<ClusterNetwork>)

  datatype Machine = Machine(metadata: ObjectMeta, infrastructureRef: ObjectReference)

  datatype DockerMachine = DockerMachine(metadata: ObjectMeta)

  datatype DockerCluster = DockerCluster(metadata: ObjectMeta)

  /** The kind and API version a resource type declares. */
  datatype ResourceType = ResourceType(kind: string, apiVersion: string)

  /** The kind a Machine owner reference carries. */
  const MachineKind: string := "Machine"

  /** A namespaced object key, as an API read takes it. */
  datatype ObjectKey = ObjectKey(namespace: string, name: string)

  /** The outcome of one API read: the object, or the client's failure (a missing object
      is `Failed(ApiError(404))`). */
  datatype ApiResponse<+T> = Found(obj: T) | Failed(cause: KubeFailure)

  /** The namespaced reads the controller performs. */
  datatype KubeApi = KubeApi(
    machines: ObjectKey -> ApiResponse<Machine>,
    clusters: ObjectKey -> ApiResponse<Cluster>,
    dockerClusters: ObjectKey -> ApiResponse<DockerCluster>)

  /** The object's namespace, or "" when it has none. */
  function NamespaceOf(meta: ObjectMeta): string {
    meta.namespace.UnwrapOr("")
  }

  /** The most useful name an object has: its name, else its generate-name prefix, else "". */
  function NameAny(meta: ObjectMeta): string {
    match meta.name
    case Some(n) => n
    case None => meta.generateName.UnwrapOr("")
  }
}
