# A Dafny model of the capd-sample Docker machine controller

capd-sample is a Cluster API infrastructure provider written in Rust: it watches
`DockerMachine` objects and is meant to back each one with a Docker container that
plays the part of a Kubernetes node. As written, `reconcile` only looks that container
up; no code path creates or removes one. This project models, as pure functions over immutable
datatypes, the three pieces of decision logic the controller contains, and proves
what they promise:

- **The cluster IP-family classifier** (`IPFamily`, from
  `src/docker/container/interface.rs`). A list of address strings is parsed and
  folded into IPv4-only, IPv6-only or dual-stack. The controllers module carries a
  second copy of this enum (`src/controllers/docker.rs:41-85`) with the same `new`
  and `group`, but without the derived `Clone` and `Hash` and without a `Default`
  implementation. The model defines the classification once, and it covers both
  copies.
- **The container-spec translation** (`ContainerSpec`, same file). A
  `RunContainerInput` becomes the settings handed to the Docker library's
  create-options builder. The builder is modelled as the record `CreateOpts`.
- **The lookups and decisions around reconciliation** (`Association` from
  `src/docker/docker.rs`, `Reconciler` from `src/controllers/docker.rs`,
  `WatchMappers` from `src/controllers/util.rs`). Every Kubernetes read is a total
  function from an object key to `Found(obj)` or `Failed(cause)`, with a missing
  object being `Failed(ApiError(404))`. The daemon's container list call is a
  function from filters to `Listed(containers)` or `Unavailable(cause)`. Each
  Kubernetes lookup in `Reconciler` returns, next to its result, the reads it performed, so that "no further lookup
  happens" can be stated and proved.

`Lib` holds the crate's error enum (`src/lib.rs:4-36`) and the label and image
constants (`src/lib.rs:45-55`). `Resources` reduces the generated Kubernetes types to
the fields the controller reads. `Wrappers` holds `Option`.

Points where the code does something other than one might expect, all modelled as the
code does them:

- Addresses are parsed as bare addresses, so a range such as `10.0.0.0/16` is an
  `IPFamilyUnknown` error. The parser is not modelled: it is the parameter `parse`.
- An empty container list is the error `ContainerLookupError`, not "no container".
- `reconcile` has no readiness or bootstrap gate. It has no role, hash-label or
  container-naming logic. `cleanup` removes nothing.
- No code path creates or removes a container: the create and delete functions in
  `src/docker/docker.rs` and `src/docker/container/docker.rs` have no caller.
- `Mount::to_string` renders `source:target` for both values of `read_only`.
- `PortMapping::publish_port` publishes every mapping as TCP, whatever `protocol` says.

## Model

| member | source | states |
|---|---|---|
| IPFamily.Default | src/docker/container/interface.rs:153-157 | The fallback family is IPv4 with no addresses, and it is well formed. |
| IPFamily.Group | src/docker/container/interface.rs:169-195 | IPv4 family exactly when every address is v4, so the empty list gives the default `IPv4IPFamily([])`. IPv6 when not all v4 but all v6. Otherwise dual-stack with the list unchanged. The family always holds exactly the input addresses in input order. |
| IPFamily.GroupAddresses | src/docker/container/interface.rs:169-195 | Regrouping the addresses of any family `Group` can produce gives that family back. So grouping loses nothing and the three outcomes are distinct. |
| IPFamily.ParseAll | src/docker/container/interface.rs:161-164 | Succeeds iff every string parses, and then yields one address per string in order. Otherwise the error is `IPFamilyUnknown` for the first string that does not parse, with no partial list. |
| IPFamily.New | src/docker/container/interface.rs:153-167 | `Ok` iff every string parses, else an `IPFamilyUnknown` error. The family's addresses are the parses of the strings, same length and order. The family is well formed. An empty list gives `Ok(Default())`. |
| IPFamily.NewFamilyKind | src/controllers/docker.rs:48-85 | For parseable input, the family is IPv4 iff every parsed address is v4. It is IPv6 iff the list is non-empty and every address is v6. This holds for the controllers copy of the enum too. |
| ContainerSpec.GetUser | src/docker/container/interface.rs:45-52 | No user gives `""`, whatever the group. A user alone gives the user. A user and a group give the user, one colon, then the group. |
| ContainerSpec.GetUserRoundTrip | src/docker/container/interface.rs:45-52 | Reading the `user[:group]` string back gives the user, and the group whenever there is a user. This needs a non-empty user with no colon. |
| ContainerSpec.GetUserDropsLoneGroup | src/docker/container/interface.rs:46-48 | Without a user the string is `""`, whatever the group. |
| ContainerSpec.MountString | src/docker/container/interface.rs:109-124 | The volume string is the source, one colon, then the target. |
| ContainerSpec.MountStringRoundTrip | src/docker/container/interface.rs:109-124 | When the source holds no colon, the volume string splits back into the mount's source and target. |
| ContainerSpec.MountStringIgnoresReadOnly | src/docker/container/interface.rs:109-124 | For every mount, the read-only flag never changes the volume string. |
| ContainerSpec.PublishPortOf | src/docker/container/interface.rs:137-143 | Every mapping publishes its container port as TCP. |
| ContainerSpec.PublishPortIgnoresProtocol | src/docker/container/interface.rs:137-143 | A mapping's protocol never changes what is published. `CreateOptsIgnoreProtocolAndReadOnly` lifts this to the whole translation. |
| ContainerSpec.Exposures | src/docker/container/interface.rs:85-87 | Exactly one exposure per port mapping, in input order. Each one publishes the container port as TCP, bound to the mapping's host port. |
| ContainerSpec.Volumes | src/docker/container/interface.rs:89-91 | One `source:target` string per mount, in input order. |
| ContainerSpec.ToCreateOpts | src/docker/container/interface.rs:61-95 | Name and hostname are always the input name, with privileged, tty and restart policy `unless-stopped`/0. User, labels, network, image and environment come from the input. Command and entrypoint are set exactly when given. Exposures follow the port mappings one-to-one as TCP. Volumes are set iff there is a mount, one per mount in order. |
| ContainerSpec.CreateOptsIgnoreProtocolAndReadOnly | src/docker/container/interface.rs:109-142 | Two inputs that differ only in port protocols and mount read-only flags translate to identical create options. |
| ContainerSpec.CreateOptsLoseOnlyIgnoredFields | src/docker/container/interface.rs:45-142 | The converse: for inputs whose user and mount sources are non-empty where required and colon-free, equal create options imply the inputs differ at most in port protocols, mount read-only flags and a group given without a user. So the translation loses nothing else. |
| Association.Filters | src/docker/docker.rs:44-53 | Exactly one filter: the kind cluster label equal to the cluster's name. |
| Association.ListContainers | src/docker/docker.rs:85-92 | Succeeds exactly when the daemon lists, with the listed containers unchanged. A daemon failure becomes `ContainerError` with the same cause. |
| Association.NodeOf | src/docker/docker.rs:71-82 | The node name is the first container name, or none when the names are absent or empty. Role and internal IP are none. Image and status are copied unchanged. |
| Association.GetContainer | src/docker/docker.rs:65-83 | A daemon failure is a `ContainerError`. An empty list is `ContainerLookupError`. Otherwise the node is built from the first listed container. |
| Association.GetContainerFirstOnly | src/docker/docker.rs:67-70 | Containers listed after the first never change the result. |
| Association.New | src/docker/docker.rs:39-63 | Fails exactly when the container lookup fails, with the same error. On success it holds the given cluster and machine unchanged and the looked-up node. |
| Association.NewIgnoresLabels | src/docker/docker.rs:42-53 | The extra labels argument never changes the outcome. |
| Association.NewAgainstMatchingDaemon | src/docker/docker.rs:44-70 | Against a daemon that filters by label, an association exists iff some listed container carries the cluster's label. Its node is that of the first such container. The listed containers are the running ones, since the list request leaves `all` unset. |
| Reconciler.MachineCluster | src/controllers/docker.rs:24-38 | Without the cluster-name label: `ClusterNotFound` and no read. With it: exactly one read, of the label's value in the machine's namespace (`""` if unset). A found object is returned. Every failure, a 404 included, is a `KubeError`. |
| Reconciler.MachineClusterDependsOnLabel | src/controllers/docker.rs:24-38 | Two Machines with the same namespace and the same cluster-name label (or both without it) resolve to the same result through the same reads. |
| Reconciler.ClusterDockerCluster | src/controllers/docker.rs:87-103 | No reference or no name: `None` with no read. Otherwise one read of that name in the cluster's namespace, `Some` exactly when it is found. Every failure collapses to `None`. |
| Reconciler.ClusterDockerClusterUsesNameOnly | src/controllers/docker.rs:87-103 | The reference's kind, API version and namespace never change the DockerCluster lookup. Only its name and the Cluster's own namespace matter. |
| Reconciler.PodIPFamily | src/controllers/docker.rs:105-116 | A missing network or pod section gives `Ok(IPv4IPFamily([]))`. Otherwise the result is the classification of the pod CIDR blocks. |
| Reconciler.ServicesIPFamily | src/controllers/docker.rs:118-129 | A missing network or service section gives `Ok(IPv4IPFamily([]))`. Otherwise the result is the classification of the service CIDR blocks. |
| Reconciler.IPFamiliesIndependent | src/controllers/docker.rs:105-129 | The pod family never depends on the service ranges, and the service family never depends on the pod ranges. |
| Reconciler.FirstMachineOwner | src/controllers/docker.rs:134-139 | `None` iff no owner reference has kind `Machine`. Otherwise it gives the name of the first reference of that kind. |
| Reconciler.GetOwner | src/controllers/docker.rs:133-151 | A read happens iff some owner reference has kind `Machine`. No Machine owner: `MachineNotFound` and no read. Otherwise one read of the first Machine owner in the DockerMachine's namespace. Found gives `Ok(Some)`, a 404 gives `Ok(None)`, any other failure gives `KubeError`. |
| Reconciler.Reconcile | src/controllers/docker.rs:153-175 | Every success is "requeue after 300 s". Reads happen in the order owner, cluster, DockerCluster, container, each at most once. Once the container is looked up, its error propagates unchanged or the result is the requeue. |
| Reconciler.ReconcileReadsOwnerFirst | src/controllers/docker.rs:153-160 | Every reconciliation's trace starts with exactly the owner lookup's reads, whatever the outcome. |
| Reconciler.ReconcileWaitsForOwner | src/controllers/docker.rs:154-160 | A missing owner Machine gives requeue(300 s) after the owner read alone: the trace is exactly the owner lookup's reads. No cluster or container lookup follows. |
| Reconciler.ReconcileWaitsForDockerCluster | src/controllers/docker.rs:153-169 | When the first Machine owner is found and its labelled Cluster is found but the DockerCluster is not, the result is requeue(300 s) and no container lookup happens. The trace is exactly the reads of the owner, cluster and DockerCluster lookups, in that order. |
| Reconciler.ReconcileLooksUpContainerOnlyWhenResolved | src/controllers/docker.rs:153-172 | The container is looked up iff the owner, its Cluster and the DockerCluster were all found. |
| Reconciler.ReconcilePropagatesErrors | src/controllers/docker.rs:154-162 | Errors from the owner lookup and from the Machine's cluster lookup come out of `reconcile` unchanged. Nothing is read after the failing lookup: the trace is the reads up to and including it. |
| Reconciler.ReconcileHappyPath | src/controllers/docker.rs:162-174 | When everything resolves, the trace is the reads of the owner, cluster and DockerCluster lookups, then the container lookup. The container lookup's error, or requeue(300 s), is the result. |
| Reconciler.Cleanup | src/controllers/docker.rs:177-179 | Always `Ok(requeue(300 s))`, with no lookups. |
| WatchMappers.ToMachine | src/controllers/util.rs:9-23 | `Some` iff kind, API version and name are all present and kind and API version equal the target type's. The result's name is the reference's name. Its namespace is the reference's, or `""` when absent. |
| WatchMappers.ToMachineRoundTrip | src/controllers/util.rs:9-23 | A reference with the target's kind and API version, a name and a namespace maps back to exactly that name and namespace. |
| WatchMappers.ClusterToMachine | src/controllers/util.rs:25-34 | `None` for every Cluster. |

## Left out

- `RunContainerInput::get_hash` is not modelled. Its value is the standard library's SipHash over the derived field encoding, and nothing in the modelled code reads it.
- `Error::metric_label` is not modelled, because it depends on Rust's debug formatting.
- Text-to-address parsing is the parameter `parse` and is not modelled (the standard library's parser, including the RFC 4291 section 2.2 text forms for IPv6).
- IPFamily.ParseAll: the model's `IPFamilyUnknown` carries the string that failed to parse. Rust's `AddrParseError` carries only the kind of failure. Otherwise the behaviour is the same.
- The daemon call `list_containers` in `src/docker/docker.rs` is not modelled: listing is the `daemon` parameter.
- `Association::create_container` in `src/docker/docker.rs` is not modelled: nothing calls it, so it plays no part in the controller's behaviour.
- Association.NewAgainstMatchingDaemon: its container list stands for the containers the daemon lists by default, which are the running ones only (`list_containers` leaves `all` unset). A stopped container carrying the cluster's label is not in that list, so it gives `ContainerLookupError`. Which containers are running is not modelled.
- `src/docker/container/docker.rs` (`Runtime`) is left out: it only wraps the daemon's exec, list, create and start, and remove calls, and nothing calls its create or delete functions.
- The container lookup `reconcile` performs (`docker::Machine::get_container`) calls code that is not part of this model. Its outcome is the parameter `container`.
- The Docker library builder is reduced to the record of settings the translation passes to it. How the library renders them (environment as `K=V` strings, what repeated `expose` calls do to its port maps) is not modelled.
- Kubernetes client failures are split only into API errors with a status code and all other failures. That is the one distinction `get_owner` makes.
- The finalizer wiring, the CRD probe that exits the process, and `error_policy` (a constant 5-minute requeue) in `src/controller.rs` are not modelled. Neither is the tracing setup in `src/main.rs`.
- The generated CRD schema types in `src/api/` are reduced to the fields the controller reads.
- The `DockerCluster` that `reconcile` fetches is only checked for presence, as in the code.
