/**
 * The association between a Cluster, a Machine and the Docker container standing in for
 * the machine's node. The container is found by listing the daemon's containers with a
 * label filter; the daemon's list call is the parameter `daemon`.
 */
module Association {
  import opened Wrappers
  import opened Lib
  import opened Resources

  /** A label filter of a container list request: the label `key` must equal `value`. */
  datatype ContainerFilter = Label(key: string, value: string)

  /** What the daemon reports about one container. */
  datatype ContainerSummary = ContainerSummary(
    names: Option<seq<string>>,
    image: Option<string>,
    status: Option<string>,
    labels: Option<map<string, string>>)

  /** A Kubernetes node as seen through its container. */
  datatype Node = Node(
    name: Option<string>,
    clusterRole: Option<string>,
    internalIp: Option<string>,
    image: Option<string>,
    status: Option<string>)

  datatype Association = Association(cluster: Cluster, machine: Machine, container: Node)

  /** The outcome of a container list call: the listed containers in the daemon's order,
      or the client's failure (connecting or listing). */
  datatype DaemonResponse = Listed(containers: seq<ContainerSummary>) | Unavailable(cause: DockerFailure)

  type Daemon = seq<ContainerFilter> -> DaemonResponse

  /** The filters an association lists containers with. Only the cluster's name matters;
      the caller's extra labels are not turned into filters. */
  function Filters(cluster: Cluster, labels: map<string, string>): (r: seq<ContainerFilter>)
    ensures |r| == 1
    ensures r[0].key == ClusterLabelKey && r[0].value == NameAny(cluster.metadata)
  {
    [Label(ClusterLabelKey, NameAny(cluster.metadata))]
  }

  /** The daemon's list call, with a failure wrapped as `ContainerError`. */
  function ListContainers(daemon: Daemon, filters: seq<ContainerFilter>): (r: Result<seq<ContainerSummary>>)
    ensures r.Ok? <==> daemon(filters).Listed?
    ensures r.Ok? ==> r.value == daemon(filters).containers
    ensures r.Err? ==> r.error == ContainerError(daemon(filters).cause)
  {
    match daemon(filters)
    case Listed(cs) => Ok(cs)
    case Unavailable(e) => Err(ContainerError(e))
  }

  /** The node described by one container summary: its first name (if any), image and
      status; role and internal address are not filled in. */
  function NodeOf(s: ContainerSummary): (n: Node)
    ensures n.name.Some? <==> s.names.Some? && |s.names.value| > 0
    ensures n.name.Some? ==> n.name.value == s.names.value[0]
    ensures n.clusterRole.None? && n.internalIp.None?
    ensures n.image == s.image && n.status == s.status
  {
    var names := s.names.UnwrapOr([]);
    Node(
      name := if |names| > 0 then Some(names[0]) else None,
      clusterRole := None,
      internalIp := None,
      image := s.image,
      status := s.status)
  }

  /** The node of the first listed container. An empty list is an error
      (`ContainerLookupError`), not "no container". */
  function GetContainer(daemon: Daemon, filters: seq<ContainerFilter>): (r: Result<Node>)
    ensures daemon(filters).Unavailable? ==> r == Err(ContainerError(daemon(filters).cause))
    ensures daemon(filters).Listed? && daemon(filters).containers == [] ==> r == Err(ContainerLookupError)
    ensures daemon(filters).Listed? && daemon(filters).containers != [] ==>
      r == Ok(NodeOf(daemon(filters).containers[0]))
  {
    var containers :- ListContainers(daemon, filters);
    if containers == [] then Err(ContainerLookupError)
    else Ok(NodeOf(containers[0]))
  }

  /** Builds the association, failing exactly when the container lookup fails; the
      cluster and machine are kept as given. */
  function New(cluster: Cluster, machine: Machine, labels: map<string, string>, daemon: Daemon)
    : (r: Result<Association>)
    ensures r.Ok? <==> GetContainer(daemon, Filters(cluster, labels)).Ok?
    ensures r.Err? ==> r.error == GetContainer(daemon, Filters(cluster, labels)).error
    ensures r.Ok? ==> r.value.cluster == cluster && r.value.machine == machine
    ensures r.Ok? ==> r.value.container == GetContainer(daemon, Filters(cluster, labels)).value
  {
    var container :- GetContainer(daemon, Filters(cluster, labels));
    Ok(Association(cluster, machine, container))
  }

  /** The extra labels given to `New` never change its outcome. */
  lemma NewIgnoresLabels(cluster: Cluster, machine: Machine, a: map<string, string>,
                         b: map<string, string>, daemon: Daemon)
    ensures New(cluster, machine, a, daemon) == New(cluster, machine, b, daemon)
  {
  }

  /** Only the first listed container matters: containers listed after it never change
      the lookup. */
  lemma GetContainerFirstOnly(d1: Daemon, d2: Daemon, filters: seq<ContainerFilter>,
                              first: ContainerSummary, rest1: seq<ContainerSummary>,
                              rest2: seq<ContainerSummary>)
    requires d1(filters) == Listed([first] + rest1)
    requires d2(filters) == Listed([first] + rest2)
    ensures GetContainer(d1, filters) == GetContainer(d2, filters) == Ok(NodeOf(first))
  {
  }

  // A reference daemon that lists exactly the containers whose labels match every filter.
  // Its `cs` stands for the containers the daemon would list at all: the list request
  // leaves `all` unset, so those are the running containers only.

  predicate Satisfies(c: ContainerSummary, filters: seq<ContainerFilter>) {
    forall i | 0 <= i < |filters| ::
      c.labels.Some? && filters[i].key in c.labels.value && c.labels.value[filters[i].key] == filters[i].value
  }

  /** The containers of `cs` that satisfy `filters`, in their original order. */
  function Matching(cs: seq<ContainerSummary>, filters: seq<ContainerFilter>): (r: seq<ContainerSummary>)
    ensures forall x | x in r :: x in cs && Satisfies(x, filters)
    ensures forall i | 0 <= i < |cs| && Satisfies(cs[i], filters) :: cs[i] in r
    ensures r != [] ==> exists k | 0 <= k < |cs| :: FirstSatisfying(cs, filters, k) && r[0] == cs[k]
  {
    if cs == [] then []
    else if Satisfies(cs[0], filters) then
      assert FirstSatisfying(cs, filters, 0);
      [cs[0]] + Matching(cs[1..], filters)
    else
      var rest := Matching(cs[1..], filters);
      assert forall i | 1 <= i < |cs| :: cs[i] == cs[1..][i - 1];
      if rest != [] then
        var k :| 0 <= k < |cs[1..]| && FirstSatisfying(cs[1..], filters, k) && rest[0] == cs[1..][k];
        assert FirstSatisfying(cs, filters, k + 1);
        rest
      else
        rest
  }

  /** `cs[k]` is the first container of `cs` that satisfies `filters`. */
  predicate FirstSatisfying(cs: seq<ContainerSummary>, filters: seq<ContainerFilter>, k: nat)
    requires k < |cs|
  {
    && Satisfies(cs[k], filters)
    && forall j | 0 <= j < k :: !Satisfies(cs[j], filters)
  }

  function MatchingDaemon(cs: seq<ContainerSummary>): Daemon {
    (filters: seq<ContainerFilter>) => Listed(Matching(cs, filters))
  }

  /** The container carries kind's cluster label with the value `clusterName`. */
  predicate InCluster(c: ContainerSummary, clusterName: string) {
    c.labels.Some? && ClusterLabelKey in c.labels.value && c.labels.value[ClusterLabelKey] == clusterName
  }

  /** Against a daemon that filters by label, an association exists exactly when some
      listed (running) container carries the cluster's label, and its node is that of the
      first such container. */
  lemma NewAgainstMatchingDaemon(cluster: Cluster, machine: Machine, labels: map<string, string>,
                                 cs: seq<ContainerSummary>)
    ensures New(cluster, machine, labels, MatchingDaemon(cs)).Ok?
        <==> exists i | 0 <= i < |cs| :: InCluster(cs[i], NameAny(cluster.metadata))
    ensures New(cluster, machine, labels, MatchingDaemon(cs)).Ok? ==>
      exists k | 0 <= k < |cs| ::
        && InCluster(cs[k], NameAny(cluster.metadata))
        && (forall j | 0 <= j < k :: !InCluster(cs[j], NameAny(cluster.metadata)))
        && New(cluster, machine, labels, MatchingDaemon(cs)).value.container == NodeOf(cs[k])
  {
  }
}
