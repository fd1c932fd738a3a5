/**
 * The crate root: the controller's error taxonomy, its `Result` alias and the
 * label, filter and image constants shared by the rest of the model.
 */
module Lib {

  /** A failure reported by the Kubernetes client. The API server's own refusals carry
      their HTTP status code; every other client failure (transport, decoding, ...) is
      opaque to the controller and kept as a description. */
  datatype KubeFailure =
    | ApiError(code: int)
    | ClientFailure(detail: string)

  /** A failure reported by the Docker client library; the controller never inspects it. */
  datatype DockerFailure = DockerFailure(detail: string)

  /** A text-to-address parse failure, tagged with the string that failed to parse. */
  datatype AddrParseError = AddrParseError(input: string)

  /** The error the kube finalizer helper wraps around the reconciler's own error. */
  datatype FinalizerError =
    | ApplyFailed(applyError: Error)
    | CleanupFailed(cleanupError: Error)
    | AddFinalizer(addCause: KubeFailure)
    | RemoveFinalizer(removeCause: KubeFailure)
    | UnnamedObject
    | InvalidFinalizer

  /** Every error the controller reports, one constructor per variant of the crate's enum. */
  datatype Error =
    | SerializationError(serdeDetail: string)
    | KubeError(kubeCause: KubeFailure)
    | MachineError(finalizerCause: FinalizerError)
    | MachineNotFound
    | ClusterNotFound
    | IPFamilyUnknown(parseCause: AddrParseError)
    | ContainerError(dockerCause: DockerFailure)
    | ContainerLookupError
    | ContainerCreateError(createCause: DockerFailure)
    | IllegalDocument

  /** The crate's `Result<T, Error>`, usable with Dafny's `:-` early return. */
  datatype Result<+T> = Ok(value: T) | Err(error: Error) {

    predicate IsFailure() {
      Err?
    }

    function PropagateFailure<U>(): Result<U>
      requires Err?
    {
      Err(error)
    }

    function Extract(): T
      requires Ok?
    {
      value
    }
  }

  /** Label a Machine carries to name the Cluster it belongs to. */
  const ClusterNameLabel: string := "cluster.x-k8s.io/cluster-name"
  /** Label kind puts on every node container, valued with the cluster name. */
  const ClusterLabelKey: string := "io.x-k8s.kind.cluster"
  const HashLabelKey: string := "io.x-k8s.container-hash"
  const NodeRoleLabelKey: string := "io.x-k8s.kind.role"
  const FilterLabel: string := "label"
  const FilterName: string := "name"

  const DefaultImage: string := "kindest/node"
  const DefaultVersion: string := "v1.27.3"
  const DefaultDockerSocket: string := "/var/run/docker.sock"
  const MachineControlPlaneLabel: string := "cluster.x-k8s.io/control-plane"
}
