/**
 * The container settings the controller asks the Docker daemon for, and their
 * translation into the daemon's create options. The Docker library's options builder
 * is modelled as the record `CreateOpts` of the settings the translation chooses.
 */
module ContainerSpec {
  import opened Wrappers

  newtype u32 = x: int | 0 <= x < 0x1_0000_0000

  /** A host path mounted into the container. */
  datatype Mount = Mount(source: string, target: string, readOnly: bool)

  /** A container port published on a host port; `protocol` is free text. */
  datatype PortMapping = PortMapping(containerPort: u32, hostPort: u32, protocol: string)

  /** Everything needed to run one node container. */
  datatype RunContainerInput = RunContainerInput(
    image: string,
    name: string,
    network: string,
    user: Option<string>,
    group: Option<string>,
    mounts: seq<Mount>,
    environmentVars: map<string, string>,
    commandArgs: Option<seq<string>>,
    entrypoint: Option<seq<string>>,
    labels: map<string, string>,
    portMappings: seq<PortMapping>)

  datatype Protocol = Tcp | Udp | Sctp

  /** A container port together with the protocol it is published for. */
  datatype PublishPort = PublishPort(port: u32, protocol: Protocol)

  /** One `expose` request of the builder: a container port bound to a host port. */
  datatype Exposure = Exposure(publish: PublishPort, hostPort: u32)

  datatype RestartPolicy = RestartPolicy(name: string, maximumRetryCount: nat)

  /** The settings given to the create-options builder. A setter the translation does
      not call is `None`. */
  datatype CreateOpts = CreateOpts(
    user: string,
    labels: map<string, string>,
    networkMode: string,
    hostname: string,
    name: string,
    image: string,
    env: map<string, string>,
    restartPolicy: RestartPolicy,
    privileged: bool,
    tty: bool,
    command: Option<seq<string>>,
    entrypoint: Option<seq<string>>,
    exposures: seq<Exposure>,
    volumes: Option<seq<string>>)

  /** The `user[:group]` string the container runs as; a group without a user is dropped. */
  function GetUser(input: RunContainerInput): (r: string)
    ensures input.user.None? ==> r == ""
    ensures input.user.Some? && input.group.None? ==> r == input.user.value
    ensures input.user.Some? && input.group.Some? ==>
      && |r| == |input.user.value| + 1 + |input.group.value|
      && r[..|input.user.value|] == input.user.value
      && r[|input.user.value|] == ':'
      && r[|input.user.value| + 1..] == input.group.value
  {
    match (input.user, input.group)
    case (None, _) => ""
    case (Some(user), None) => user
    case (Some(user), Some(group)) => user + ":" + group
  }

  /** The `source:target` volume string of a mount; the read-only flag plays no part in it. */
  function MountString(m: Mount): (r: string)
    ensures |r| == |m.source| + 1 + |m.target|
    ensures r[..|m.source|] == m.source && r[|m.source|] == ':' && r[|m.source| + 1..] == m.target
  {
    m.source + ":" + m.target
  }

  /** Every mapping is published as TCP, whatever its `protocol` says. */
  function PublishPortOf(pm: PortMapping): (r: PublishPort)
    ensures r.port == pm.containerPort && r.protocol == Tcp
  {
    PublishPort(pm.containerPort, Tcp)
  }

  /** The mapping's protocol never changes what is published. */
  lemma PublishPortIgnoresProtocol(pm: PortMapping, protocol: string)
    ensures PublishPortOf(pm.(protocol := protocol)) == PublishPortOf(pm)
  {
  }

  /** The `expose` calls made for `pms`, one per mapping, in order. */
  function Exposures(pms: seq<PortMapping>): (r: seq<Exposure>)
    ensures |r| == |pms|
    ensures forall i | 0 <= i < |pms| ::
      r[i] == Exposure(PublishPort(pms[i].containerPort, Tcp), pms[i].hostPort)
  {
    if pms == [] then []
    else [Exposure(PublishPortOf(pms[0]), pms[0].hostPort)] + Exposures(pms[1..])
  }

  /** The volume strings of `mounts`, one per mount, in order. */
  function Volumes(mounts: seq<Mount>): (r: seq<string>)
    ensures |r| == |mounts|
    ensures forall i | 0 <= i < |mounts| :: r[i] == mounts[i].source + ":" + mounts[i].target
  {
    if mounts == [] then []
    else [MountString(mounts[0])] + Volumes(mounts[1..])
  }

  /** The translation of a run request into create options. Name, hostname, privilege,
      TTY and restart policy are always set; command and entrypoint only when given;
      volumes only when there is a mount. */
  function ToCreateOpts(input: RunContainerInput): (r: CreateOpts)
    ensures r.name == input.name && r.hostname == input.name
    ensures r.user == GetUser(input)
    ensures r.image == input.image && r.networkMode == input.network
    ensures r.labels == input.labels && r.env == input.environmentVars
    ensures r.privileged && r.tty
    ensures r.restartPolicy == RestartPolicy("unless-stopped", 0)
    ensures r.command == input.commandArgs && r.entrypoint == input.entrypoint
    ensures |r.exposures| == |input.portMappings|
    ensures forall i | 0 <= i < |input.portMappings| ::
      && r.exposures[i].publish == PublishPort(input.portMappings[i].containerPort, Tcp)
      && r.exposures[i].hostPort == input.portMappings[i].hostPort
    ensures r.volumes.Some? <==> |input.mounts| > 0
    ensures r.volumes.Some? ==> |r.volumes.value| == |input.mounts|
    ensures r.volumes.Some? ==> forall i | 0 <= i < |input.mounts| ::
      r.volumes.value[i] == input.mounts[i].source + ":" + input.mounts[i].target
  {
    var base := CreateOpts(
      user := GetUser(input),
      labels := input.labels,
      networkMode := input.network,
      hostname := input.name,
      name := input.name,
      image := input.image,
      env := input.environmentVars,
      restartPolicy := RestartPolicy("unless-stopped", 0),
      privileged := true,
      tty := true,
      command := None,
      entrypoint := None,
      exposures := [],
      volumes := None);
    var withCommand := if input.commandArgs.Some? then base.(command := input.commandArgs) else base;
    var withEntrypoint :=
      if input.entrypoint.Some? then withCommand.(entrypoint := input.entrypoint) else withCommand;
    var exposed := withEntrypoint.(exposures := Exposures(input.portMappings));
    if |input.mounts| > 0 then exposed.(volumes := Some(Volumes(input.mounts))) else exposed
  }

  /** Splits `s` at its first `sep`: the text before it and, when there is one, the text
      after it. */
  function SplitFirst(s: string, sep: char): (r: (string, Option<string>))
    ensures sep !in s ==> r == (s, None)
    ensures sep in s ==> r.1.Some? && sep !in r.0 && r.0 + [sep] + r.1.value == s
  {
    if s == [] then (s, None)
    else if s[0] == sep then ("", Some(s[1..]))
    else
      var (before, after) := SplitFirst(s[1..], sep);
      assert s == [s[0]] + s[1..];
      ([s[0]] + before, after)
  }

  /** Splitting a joined pair at the separator recovers the pair when the first part
      holds no separator. */
  lemma {:induction false} SplitFirstJoin(a: string, b: string, sep: char)
    requires sep !in a
    ensures SplitFirst(a + [sep] + b, sep) == (a, Some(b))
  {
    var s := a + [sep] + b;
    if a == [] {
      assert s[0] == sep && s[1..] == b;
    } else {
      assert s[0] == a[0] != sep;
      assert s[1..] == a[1..] + [sep] + b;
      SplitFirstJoin(a[1..], b, sep);
      assert [a[0]] + a[1..] == a;
    }
  }

  /** Reads a `user[:group]` string back into its user and group. */
  function ParseUser(s: string): (Option<string>, Option<string>) {
    if s == "" then (None, None)
    else
      var (user, group) := SplitFirst(s, ':');
      (Some(user), group)
  }

  /** `GetUser` loses nothing but a group given without a user: reading its result back
      recovers the user and (when there is a user) the group, provided the user name is
      non-empty and holds no colon. */
  lemma GetUserRoundTrip(input: RunContainerInput)
    requires input.user.Some? ==> input.user.value != "" && ':' !in input.user.value
    ensures ParseUser(GetUser(input)) == (input.user, if input.user.Some? then input.group else None)
  {
    match (input.user, input.group)
    case (None, _) =>
    case (Some(user), None) =>
    case (Some(user), Some(group)) =>
      SplitFirstJoin(user, group, ':');
  }

  /** A group given without a user never reaches the container. */
  lemma GetUserDropsLoneGroup(input: RunContainerInput, group: Option<string>)
    requires input.user.None?
    ensures GetUser(input.(group := group)) == GetUser(input) == ""
  {
  }

  /** A volume string reads back as its mount's source and target when the source holds
      no colon. */
  lemma MountStringRoundTrip(m: Mount)
    requires ':' !in m.source
    ensures SplitFirst(MountString(m), ':') == (m.source, Some(m.target))
  {
    SplitFirstJoin(m.source, m.target, ':');
  }

  /** The read-only flag never changes a mount's volume string, for every mount. */
  lemma MountStringIgnoresReadOnly(m: Mount, readOnly: bool)
    ensures MountString(m.(readOnly := readOnly)) == MountString(m)
  {
  }

  /** Two requests that differ only in port protocols and mount read-only flags. */
  predicate SameUpToIgnoredFields(a: RunContainerInput, b: RunContainerInput) {
    && a.(mounts := [], portMappings := []) == b.(mounts := [], portMappings := [])
    && |a.mounts| == |b.mounts|
    && (forall i | 0 <= i < |a.mounts| :: a.mounts[i].(readOnly := false) == b.mounts[i].(readOnly := false))
    && |a.portMappings| == |b.portMappings|
    && (forall i | 0 <= i < |a.portMappings| ::
          a.portMappings[i].(protocol := "") == b.portMappings[i].(protocol := ""))
  }

  /** The create options never depend on a mapping's protocol or a mount's read-only
      flag: requests differing only there produce identical options. */
  lemma CreateOptsIgnoreProtocolAndReadOnly(a: RunContainerInput, b: RunContainerInput)
    requires SameUpToIgnoredFields(a, b)
    ensures ToCreateOpts(a) == ToCreateOpts(b)
  {
    var oa, ob := ToCreateOpts(a), ToCreateOpts(b);
    assert a.user == b.user && a.group == b.group;
    forall i | 0 <= i < |a.portMappings|
      ensures oa.exposures[i] == ob.exposures[i]
    {
      assert a.portMappings[i].containerPort == a.portMappings[i].(protocol := "").containerPort;
      assert b.portMappings[i].containerPort == b.portMappings[i].(protocol := "").containerPort;
      assert a.portMappings[i].hostPort == a.portMappings[i].(protocol := "").hostPort;
      assert b.portMappings[i].hostPort == b.portMappings[i].(protocol := "").hostPort;
    }
    assert oa.exposures == ob.exposures;
    if |a.mounts| > 0 {
      forall i | 0 <= i < |a.mounts|
        ensures oa.volumes.value[i] == ob.volumes.value[i]
      {
        assert a.mounts[i].source == a.mounts[i].(readOnly := false).source;
        assert b.mounts[i].source == b.mounts[i].(readOnly := false).source;
        assert a.mounts[i].target == a.mounts[i].(readOnly := false).target;
        assert b.mounts[i].target == b.mounts[i].(readOnly := false).target;
      }
      assert oa.volumes.value == ob.volumes.value;
    }
  }

  /** A request whose user and mount sources can be read back from their strings: a
      user, when given, is non-empty and colon-free, and so is every mount source. */
  predicate Readable(input: RunContainerInput) {
    && (input.user.Some? ==> input.user.value != "" && ':' !in input.user.value)
    && forall i | 0 <= i < |input.mounts| :: ':' !in input.mounts[i].source
  }

  /** The request with a group that has no user dropped, as `GetUser` drops it. */
  function DropLoneGroup(input: RunContainerInput): RunContainerInput {
    if input.user.None? then input.(group := None) else input
  }

  /** The converse of `CreateOptsIgnoreProtocolAndReadOnly`: for readable requests, equal
      create options mean the requests differ at most in port protocols, mount read-only
      flags and a group given without a user. */
  lemma CreateOptsLoseOnlyIgnoredFields(a: RunContainerInput, b: RunContainerInput)
    requires Readable(a) && Readable(b)
    requires ToCreateOpts(a) == ToCreateOpts(b)
    ensures SameUpToIgnoredFields(DropLoneGroup(a), DropLoneGroup(b))
  {
    var oa, ob := ToCreateOpts(a), ToCreateOpts(b);
    GetUserRoundTrip(a);
    GetUserRoundTrip(b);
    assert ParseUser(GetUser(a)) == ParseUser(GetUser(b));
    forall i | 0 <= i < |a.portMappings|
      ensures a.portMappings[i].(protocol := "") == b.portMappings[i].(protocol := "")
    {
      assert oa.exposures[i] == ob.exposures[i];
    }
    forall i | 0 <= i < |a.mounts|
      ensures a.mounts[i].(readOnly := false) == b.mounts[i].(readOnly := false)
    {
      assert oa.volumes.value[i] == ob.volumes.value[i];
      SplitFirstJoin(a.mounts[i].source, a.mounts[i].target, ':');
      SplitFirstJoin(b.mounts[i].source, b.mounts[i].target, ':');
    }
  }
}
