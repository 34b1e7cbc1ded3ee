/**
 * The Knative client of the container clients (knative_client.py): parsing
 * of port specifications, the mapping of a container request to a Knative
 * pod specification, the test for a local cluster, the readiness test of a
 * Knative Service and the result of `create_kservice`. The Kubernetes API is
 * represented by the values it returns.
 */
module KnativeClient {
  import opened Wrappers
  import opened Strings
  import opened Dicts
  import opened Json

  // ---------------------------------------------------------------------
  // Port specifications
  // ---------------------------------------------------------------------

  /** A port specification as the caller passes it: an `int`, a `str` such as "80/udp", or any other value. */
  datatype PortSpec = IntSpec(n: int) | StrSpec(s: string) | OtherSpec

  datatype ContainerPort = ContainerPort(port: int, protocol: string)

  /** The port part of a textual specification: the text before the first "/", or all of it. */
  function PortText(s: string): (r: string)
    ensures !HasChar(r, '/')
    ensures HasChar(s, '/') ==> StartsWith(s, r + "/")
    ensures !HasChar(s, '/') ==> r == s
  {
    match SplitOnce(s, '/')
    case None => s
    case Some((a, b)) =>
      assert s[..|a| + 1] == a + "/";
      a
  }

  /** The protocol part of a textual specification: the text after the first "/", or "TCP". */
  function ProtocolText(s: string): string
  {
    match SplitOnce(s, '/')
    case None => "TCP"
    case Some((_, b)) => b
  }

  /**
   * `_parse_port_spec`: an integer is a TCP port; a text is split at its
   * first "/" into port and protocol (TCP when there is no "/"), the port is
   * read with `int()` and the protocol upper-cased; an unreadable port or a
   * value of any other type gives `None`.
   */
  function ParsePortSpec(spec: PortSpec): (r: Option<ContainerPort>)
    ensures spec.IntSpec? ==> r == Some(ContainerPort(spec.n, "TCP"))
    ensures spec.OtherSpec? ==> r.None?
    ensures spec.StrSpec? ==> (r.Some? <==> ParseInt(PortText(spec.s)).Some?)
    ensures r.Some? ==> IsUpper(r.value.protocol)
  {
    match spec
    case IntSpec(p) =>
      assert IsUpper("TCP");
      Some(ContainerPort(p, "TCP"))
    case StrSpec(s) =>
      var proto := Upper(ProtocolText(s));
      assert IsUpper(proto);
      (match ParseInt(PortText(s))
       case None => None
       case Some(p) => Some(ContainerPort(p, proto)))
    case OtherSpec => None
  }

  /** A rendered port followed by "/" and a protocol parses back to that port and the upper-cased protocol. */
  lemma ParsePortWithProtocol(p: nat, proto: string)
    ensures ParsePortSpec(StrSpec(NatToString(p) + "/" + proto)) == Some(ContainerPort(p, Upper(proto)))
  {
    assert !HasChar(NatToString(p), '/');
    SplitAfter(NatToString(p), '/', proto);
    ParseIntOfNat(p);
  }

  /** A rendered port without a protocol is a TCP port. */
  lemma ParseBarePort(p: nat)
    ensures ParsePortSpec(StrSpec(NatToString(p))) == Some(ContainerPort(p, "TCP"))
  {
    var digits := NatToString(p);
    assert !HasChar(digits, '/');
    assert IsUpper("TCP");
    UpperOfUpper("TCP");
    ParseIntOfNat(p);
  }

  /** Each specification parsed, in order. */
  function ParsedPorts(specs: seq<PortSpec>): (r: seq<Option<ContainerPort>>)
    ensures |r| == |specs| && forall i :: 0 <= i < |specs| ==> r[i] == ParsePortSpec(specs[i])
  {
    if specs == [] then [] else ParsedPorts(specs[..|specs| - 1]) + [ParsePortSpec(specs[|specs| - 1])]
  }

  /** The container ports of a list of specifications: each parsable one, in order. */
  function PortsOf(specs: seq<PortSpec>): seq<ContainerPort>
  {
    Somes(ParsedPorts(specs))
  }

  /** A port is among the container ports exactly when some specification parses to it. */
  lemma PortsOfMembers(specs: seq<PortSpec>, cp: ContainerPort)
    ensures cp in PortsOf(specs) <==> exists i :: 0 <= i < |specs| && ParsePortSpec(specs[i]) == Some(cp)
  {
    SomesMembers(ParsedPorts(specs), cp);
  }

  /** When every specification parses, none is dropped and the order is kept. */
  lemma PortsOfAllParsed(specs: seq<PortSpec>)
    requires forall i :: 0 <= i < |specs| ==> ParsePortSpec(specs[i]).Some?
    ensures |PortsOf(specs)| == |specs|
    ensures forall i :: 0 <= i < |specs| ==> Some(PortsOf(specs)[i]) == ParsePortSpec(specs[i])
  {
    SomesAllPresent(ParsedPorts(specs));
  }

  /** The container ports, built as the source's loop does. */
  method BuildPorts(specs: seq<PortSpec>) returns (ports: seq<ContainerPort>)
    ensures ports == PortsOf(specs)
  {
    ports := [];
    var i := 0;
    while i < |specs|
      invariant 0 <= i <= |specs|
      invariant ports == PortsOf(specs[..i])
    {
      var info := ParsePortSpec(specs[i]);
      if info.Some? {
        ports := ports + [info.value];
      }
      assert specs[..i + 1][..i] == specs[..i];
      assert ParsedPorts(specs[..i + 1]) == ParsedPorts(specs[..i]) + [info];
      i := i + 1;
    }
    assert specs[..i] == specs;
  }

  // ---------------------------------------------------------------------
  // Environment and volumes
  // ---------------------------------------------------------------------

  /** An environment value of one of the types callers pass. */
  datatype EnvValue = EStr(s: string) | EInt(i: int) | EBool(b: bool) | ENone

  /** `str(value)`. */
  function Str(v: EnvValue): string
  {
    match v
    case EStr(s) => s
    case EInt(i) => IntToString(i)
    case EBool(b) => if b then "True" else "False"
    case ENone => "None"
  }

  datatype EnvVar = EnvVar(name: string, value: string)

  /** The environment entries, in the dict's order, with stringified values. */
  function EnvVarsOf(env: Dict<EnvValue>): (r: seq<EnvVar>)
    ensures |r| == |env|
  {
    if env == [] then []
    else EnvVarsOf(env[..|env| - 1]) + [EnvVar(env[|env| - 1].0, Str(env[|env| - 1].1))]
  }

  /** Every entry keeps its key and position, and carries its value as text. */
  lemma {:induction false} EnvVarsOfEntries(env: Dict<EnvValue>)
    ensures forall i :: 0 <= i < |env| ==> EnvVarsOf(env)[i] == EnvVar(env[i].0, Str(env[i].1))
    decreases |env|
  {
    if env != [] {
      var init := env[..|env| - 1];
      EnvVarsOfEntries(init);
      assert forall i :: 0 <= i < |init| ==> init[i] == env[i];
    }
  }

  method BuildEnv(env: Dict<EnvValue>) returns (vars: seq<EnvVar>)
    ensures vars == EnvVarsOf(env)
  {
    vars := [];
    var i := 0;
    while i < |env|
      invariant 0 <= i <= |env|
      invariant vars == EnvVarsOf(env[..i])
    {
      var (key, value) := env[i];
      vars := vars + [EnvVar(key, Str(value))];
      assert env[..i + 1][..i] == env[..i];
      i := i + 1;
    }
    assert env[..i] == env;
  }

  /** A volume's mount description: a dict with "bind" and an optional "mode", or a plain container path. */
  datatype MountInfo = MountDict(bind: string, mode: Option<string>) | MountPath(path: string)

  function ContainerPath(m: MountInfo): string
  {
    match m
    case MountDict(bind, _) => bind
    case MountPath(path) => path
  }

  /** The mode, "rw" when not given. */
  function Mode(m: MountInfo): string
  {
    match m
    case MountDict(_, mode) => mode.GetOr("rw")
    case MountPath(_) => "rw"
  }

  datatype VolumeMount = VolumeMount(name: string, mountPath: string, readOnly: bool)

  /** A host-path volume. */
  datatype Volume = Volume(name: string, hostPath: string)

  function VolumeName(i: nat): string
  {
    "vol-" + NatToString(i)
  }

  /** Different positions give different volume names. */
  lemma VolumeNamesDistinct(i: nat, j: nat)
    requires i != j
    ensures VolumeName(i) != VolumeName(j)
  {
    if VolumeName(i) == VolumeName(j) {
      assert VolumeName(i)[4..] == NatToString(i);
      assert VolumeName(j)[4..] == NatToString(j);
      DigitsValueOfNat(i);
      DigitsValueOfNat(j);
    }
  }

  function MountOf(i: nat, m: MountInfo): VolumeMount
  {
    VolumeMount(VolumeName(i), ContainerPath(m), Mode(m) == "ro")
  }

  /** The volume mounts of the volumes dict, in its order. */
  function MountsOf(volumes: Dict<MountInfo>): (r: seq<VolumeMount>)
    ensures |r| == |volumes|
  {
    if volumes == [] then []
    else MountsOf(volumes[..|volumes| - 1]) + [MountOf(|volumes| - 1, volumes[|volumes| - 1].1)]
  }

  /** The host-path volumes of the volumes dict, in its order. */
  function VolumesOf(volumes: Dict<MountInfo>): (r: seq<Volume>)
    ensures |r| == |volumes|
  {
    if volumes == [] then []
    else VolumesOf(volumes[..|volumes| - 1]) + [Volume(VolumeName(|volumes| - 1), volumes[|volumes| - 1].0)]
  }

  /**
   * The i-th volume is named "vol-i" in both lists, mounts its host path at
   * the bind path or the plain value, and is read-only exactly when its mode
   * is "ro".
   */
  lemma {:induction false} VolumesOfEntries(volumes: Dict<MountInfo>)
    ensures forall i :: 0 <= i < |volumes| ==>
      MountsOf(volumes)[i] == VolumeMount(VolumeName(i), ContainerPath(volumes[i].1), Mode(volumes[i].1) == "ro")
      && VolumesOf(volumes)[i] == Volume(VolumeName(i), volumes[i].0)
    decreases |volumes|
  {
    if volumes != [] {
      var init := volumes[..|volumes| - 1];
      VolumesOfEntries(init);
      assert forall i :: 0 <= i < |init| ==> init[i] == volumes[i];
    }
  }

  /** No two volumes share a name. */
  lemma VolumeNamesUnique(volumes: Dict<MountInfo>, i: nat, j: nat)
    requires i < j < |volumes|
    ensures MountsOf(volumes)[i].name != MountsOf(volumes)[j].name
    ensures VolumesOf(volumes)[i].name != VolumesOf(volumes)[j].name
  {
    VolumesOfEntries(volumes);
    VolumeNamesDistinct(i, j);
  }

  method BuildVolumes(volumes: Dict<MountInfo>) returns (mounts: seq<VolumeMount>, podVolumes: seq<Volume>)
    ensures mounts == MountsOf(volumes) && podVolumes == VolumesOf(volumes)
  {
    mounts := [];
    podVolumes := [];
    var i := 0;
    while i < |volumes|
      invariant 0 <= i <= |volumes|
      invariant mounts == MountsOf(volumes[..i]) && podVolumes == VolumesOf(volumes[..i])
    {
      var (hostPath, info) := volumes[i];
      var containerPath: string;
      var mode: string;
      if info.MountDict? {
        containerPath := info.bind;
        mode := info.mode.GetOr("rw");
      } else {
        containerPath := info.path;
        mode := "rw";
      }
      var name := "vol-" + NatToString(i);
      mounts := mounts + [VolumeMount(name, containerPath, mode == "ro")];
      podVolumes := podVolumes + [Volume(name, hostPath)];
      assert volumes[..i + 1][..i] == volumes[..i];
      i := i + 1;
    }
    assert volumes[..i] == volumes;
  }

  // ---------------------------------------------------------------------
  // The pod specification
  // ---------------------------------------------------------------------

  /**
   * The keys of `runtime_config` the pod specification reads. `None` is an
   * absent key; for the two policies `Some(None)` is a key whose value is
   * `None`. The structured values (`resources`, `security_context`,
   * `node_selector`, `tolerations`) are kept as decoded JSON.
   */
  datatype RuntimeConfig = RuntimeConfig(
    imagePullPolicy: Option<Option<string>>,
    restartPolicy: Option<Option<string>>,
    imagePullSecrets: Option<seq<string>>,
    resources: Option<JsonValue>,
    securityContext: Option<JsonValue>,
    nodeSelector: Option<JsonValue>,
    tolerations: Option<JsonValue>)

  /** A container; an attribute left unset is `None`. */
  datatype Container = Container(
    name: string,
    image: string,
    imagePullPolicy: Option<string>,
    ports: Option<seq<ContainerPort>>,
    env: Option<seq<EnvVar>>,
    volumeMounts: Option<seq<VolumeMount>>,
    resources: Option<JsonValue>,
    securityContext: Option<JsonValue>)

  /** A pod specification; an attribute left unset is `None`. */
  datatype PodSpec = PodSpec(
    containers: seq<Container>,
    restartPolicy: Option<string>,
    volumes: Option<seq<Volume>>,
    nodeSelector: Option<JsonValue>,
    tolerations: Option<JsonValue>,
    imagePullSecrets: Option<seq<string>>)

  /** `runtime_config.get(key, default)` for a policy key. */
  function PolicyOr(key: Option<Option<string>>, default: string): (r: Option<string>)
    ensures key.None? ==> r == Some(default)
    ensures key.Some? ==> r == key.value
  {
    if key.None? then Some(default) else key.value
  }

  /** The image, prefixed by the configured registry when there is one. */
  function FullImage(registry: Option<string>, image: string): (r: string)
    ensures !Truthy(registry) ==> r == image
    ensures Truthy(registry) ==> StartsWith(r, registry.value + "/") && EndsWith(r, "/" + image)
  {
    if !Truthy(registry) then image
    else
      var r := registry.value + "/" + image;
      assert r[|r| - |image| - 1..] == "/" + image;
      r
  }

  /** A list attribute is set only when the list is non-empty. */
  function NonEmpty<T>(s: seq<T>): Option<seq<T>>
  {
    if s == [] then None else Some(s)
  }

  function ContainerName(name: Option<string>): string
  {
    if Truthy(name) then name.value else "main-container"
  }

  /** The container of `_create_kservice_podspec`. */
  function ContainerOf(
    registry: Option<string>, image: string, name: Option<string>, ports: seq<PortSpec>,
    volumes: Dict<MountInfo>, environment: Dict<EnvValue>, rc: RuntimeConfig): Container
  {
    Container(
      ContainerName(name),
      FullImage(registry, image),
      PolicyOr(rc.imagePullPolicy, "IfNotPresent"),
      NonEmpty(PortsOf(ports)),
      NonEmpty(EnvVarsOf(environment)),
      NonEmpty(MountsOf(volumes)),
      rc.resources,
      rc.securityContext)
  }

  /** `_create_kservice_podspec`, with `None` arguments passed as empty lists and dicts. */
  function PodSpecOf(
    registry: Option<string>, image: string, name: Option<string>, ports: seq<PortSpec>,
    volumes: Dict<MountInfo>, environment: Dict<EnvValue>, rc: RuntimeConfig): PodSpec
  {
    PodSpec(
      [ContainerOf(registry, image, name, ports, volumes, environment, rc)],
      PolicyOr(rc.restartPolicy, "Always"),
      NonEmpty(VolumesOf(volumes)),
      rc.nodeSelector,
      rc.tolerations,
      NonEmpty(rc.imagePullSecrets.GetOr([])))
  }

  /**
   * The container part of `_create_kservice_podspec` up to the runtime
   * configuration, built attribute by attribute; also the pod's volumes.
   */
  method BuildContainer(
    registry: Option<string>, image: string, name: Option<string>, ports: seq<PortSpec>,
    volumes: Dict<MountInfo>, environment: Dict<EnvValue>, rc: RuntimeConfig)
    returns (container: Container, podVolumes: seq<Volume>)
    ensures container == ContainerOf(registry, image, name, ports, volumes, environment, rc).(resources := None, securityContext := None)
    ensures NonEmpty(podVolumes) == NonEmpty(VolumesOf(volumes))
  {
    var containerName := if Truthy(name) then name.value else "main-container";
    var fullImage := if !Truthy(registry) then image else registry.value + "/" + image;
    var pullPolicy := if rc.imagePullPolicy.Some? then rc.imagePullPolicy.value else Some("IfNotPresent");
    var portList: Option<seq<ContainerPort>> := None;
    if ports != [] {
      var containerPorts := BuildPorts(ports);
      if containerPorts != [] {
        portList := Some(containerPorts);
      }
    }
    assert portList == NonEmpty(PortsOf(ports));
    var envList: Option<seq<EnvVar>> := None;
    if environment != [] {
      var envVars := BuildEnv(environment);
      envList := Some(envVars);
    }
    assert envList == NonEmpty(EnvVarsOf(environment));
    var mounts;
    mounts, podVolumes := [], [];
    if volumes != [] {
      mounts, podVolumes := BuildVolumes(volumes);
    }
    assert NonEmpty(mounts) == NonEmpty(MountsOf(volumes));
    container := Container(containerName, fullImage, pullPolicy, portList, envList, NonEmpty(mounts), None, None);
  }

  /** `_create_kservice_podspec` as the source builds it, one list at a time. */
  method CreatePodSpec(
    registry: Option<string>, image: string, name: Option<string>, ports: seq<PortSpec>,
    volumes: Dict<MountInfo>, environment: Dict<EnvValue>, rc: RuntimeConfig) returns (pod: PodSpec)
    ensures pod == PodSpecOf(registry, image, name, ports, volumes, environment, rc)
  {
    ghost var expected := PodSpecOf(registry, image, name, ports, volumes, environment, rc);
    var container, podVolumes := BuildContainer(registry, image, name, ports, volumes, environment, rc);
    if rc.resources.Some? {
      container := container.(resources := rc.resources);
    }
    if rc.securityContext.Some? {
      container := container.(securityContext := rc.securityContext);
    }
    assert container == expected.containers[0];
    var restart := if rc.restartPolicy.Some? then rc.restartPolicy.value else Some("Always");
    pod := PodSpec([container], restart, None, None, None, None);
    if podVolumes != [] {
      pod := pod.(volumes := Some(podVolumes));
    }
    if rc.nodeSelector.Some? {
      pod := pod.(nodeSelector := rc.nodeSelector);
    }
    if rc.tolerations.Some? {
      pod := pod.(tolerations := rc.tolerations);
    }
    var secrets := rc.imagePullSecrets.GetOr([]);
    if secrets != [] {
      pod := pod.(imagePullSecrets := Some(secrets));
    }
  }

  /**
   * The pod has one container; the defaults apply to an empty name and to
   * absent runtime keys, and a policy key given as `None` leaves the policy
   * `None`; the container's port list is left unset exactly when no
   * specification parses, and holds exactly the parsed ports otherwise; the
   * volume lists are set together; each structured runtime key is set, on
   * the container or on the pod, exactly when it is present, and to its
   * value.
   */
  lemma PodSpecShape(
    registry: Option<string>, image: string, name: Option<string>, ports: seq<PortSpec>,
    volumes: Dict<MountInfo>, environment: Dict<EnvValue>, rc: RuntimeConfig)
    ensures var pod := PodSpecOf(registry, image, name, ports, volumes, environment, rc);
      && |pod.containers| == 1
      && (!Truthy(name) ==> pod.containers[0].name == "main-container")
      && (rc.imagePullPolicy.None? ==> pod.containers[0].imagePullPolicy == Some("IfNotPresent"))
      && (rc.imagePullPolicy.Some? ==> pod.containers[0].imagePullPolicy == rc.imagePullPolicy.value)
      && (rc.restartPolicy.None? ==> pod.restartPolicy == Some("Always"))
      && (rc.restartPolicy.Some? ==> pod.restartPolicy == rc.restartPolicy.value)
      && pod.containers[0].resources == rc.resources && pod.containers[0].securityContext == rc.securityContext
      && pod.nodeSelector == rc.nodeSelector && pod.tolerations == rc.tolerations
      && (pod.containers[0].ports.None? <==> forall i :: 0 <= i < |ports| ==> ParsePortSpec(ports[i]).None?)
      && (forall cp :: pod.containers[0].ports.Some? && cp in pod.containers[0].ports.value <==>
            exists i :: 0 <= i < |ports| && ParsePortSpec(ports[i]) == Some(cp))
      && (pod.containers[0].volumeMounts.None? <==> volumes == [])
      && (pod.volumes.None? <==> volumes == [])
      && (pod.containers[0].env.None? <==> environment == [])
  {
    var ps := PortsOf(ports);
    forall cp
      ensures cp in ps <==> exists i :: 0 <= i < |ports| && ParsePortSpec(ports[i]) == Some(cp)
    {
      PortsOfMembers(ports, cp);
    }
    if ps != [] {
      assert ps[0] in ps;
    }
  }

  // ---------------------------------------------------------------------
  // Local clusters
  // ---------------------------------------------------------------------

  /** The current kube context: absent or empty, or naming a cluster (`None` when it has no "cluster" key). */
  datatype CurrentContext = NoContext | Context(cluster: Option<string>)

  /** A cluster entry of the kubeconfig; `server` is `None` when missing. */
  datatype ClusterEntry = ClusterEntry(name: string, server: Option<string>)

  datatype KubeConfig = KubeConfig(current: CurrentContext, clusters: seq<ClusterEntry>)

  const LocalPatterns: seq<string> :=
    ["localhost", "127.0.0.1", "0.0.0.0", "docker-desktop", "kind-", "minikube", "k3d-", "colima"]

  /** The server of the first cluster entry with this name, if any; `for … break` of the source. */
  function ClusterServer(clusters: seq<ClusterEntry>, name: string): Option<string>
    decreases |clusters|
  {
    if clusters == [] then None
    else if clusters[0].name == name then clusters[0].server
    else ClusterServer(clusters[1..], name)
  }

  /** No entry with the name: no server. */
  lemma {:induction false} ClusterServerAbsent(clusters: seq<ClusterEntry>, name: string)
    requires forall j :: 0 <= j < |clusters| ==> clusters[j].name != name
    ensures ClusterServer(clusters, name).None?
    decreases |clusters|
  {
    if clusters != [] {
      assert forall j :: 0 <= j < |clusters| - 1 ==> clusters[1..][j] == clusters[j + 1];
      ClusterServerAbsent(clusters[1..], name);
    }
  }

  /** The first entry with the name decides: a later entry with a server does not count. */
  lemma {:induction false} ClusterServerFirst(clusters: seq<ClusterEntry>, name: string, i: nat)
    requires i < |clusters| && clusters[i].name == name
    requires forall j :: 0 <= j < i ==> clusters[j].name != name
    ensures ClusterServer(clusters, name) == clusters[i].server
    decreases i
  {
    if i > 0 {
      assert forall j :: 0 <= j < i - 1 ==> clusters[1..][j] == clusters[j + 1];
      ClusterServerFirst(clusters[1..], name, i - 1);
    }
  }

  /** Some listed pattern occurs in the lower-cased server URL or cluster name. */
  predicate LocalText(server: string, cluster: string)
  {
    exists k :: 0 <= k < |LocalPatterns| &&
      (Contains(Lower(server), LocalPatterns[k]) || Contains(Lower(cluster), LocalPatterns[k]))
  }

  /**
   * `_is_local_cluster` on the loaded kubeconfig, or `None` when loading it
   * raised: the current context must name a cluster whose server URL is
   * non-empty, and that URL or the cluster name must contain a local pattern.
   */
  predicate LocalCluster(kube: Option<KubeConfig>)
  {
    && kube.Some?
    && kube.value.current.Context?
    && var name := kube.value.current.cluster.GetOr("");
       var server := ClusterServer(kube.value.clusters, name);
       Truthy(server) && LocalText(server.value, name)
  }

  /** `_is_local_cluster` with its two loops. */
  method IsLocalCluster(kube: Option<KubeConfig>) returns (local: bool)
    ensures local == LocalCluster(kube)
  {
    if kube.None? || kube.value.current.NoContext? {
      return false;
    }
    var clusterName := kube.value.current.cluster.GetOr("");
    var clusters := kube.value.clusters;
    var server: Option<string> := None;
    var i := 0;
    while i < |clusters|
      invariant 0 <= i <= |clusters|
      invariant server.None?
      invariant forall j :: 0 <= j < i ==> clusters[j].name != clusterName
    {
      if clusters[i].name == clusterName {
        server := clusters[i].server;
        ClusterServerFirst(clusters, clusterName, i);
        break;
      }
      i := i + 1;
    }
    if i == |clusters| {
      ClusterServerAbsent(clusters, clusterName);
    }
    assert server == ClusterServer(clusters, clusterName);
    if !Truthy(server) {
      return false;
    }
    var serverLower := Lower(server.value);
    var clusterLower := Lower(clusterName);
    var k := 0;
    while k < |LocalPatterns|
      invariant 0 <= k <= |LocalPatterns|
      invariant forall m :: 0 <= m < k ==>
        !Contains(serverLower, LocalPatterns[m]) && !Contains(clusterLower, LocalPatterns[m])
    {
      if Contains(serverLower, LocalPatterns[k]) || Contains(clusterLower, LocalPatterns[k]) {
        return true;
      }
      k := k + 1;
    }
    return false;
  }

  /** When no entry has a server URL, the lookup finds none. */
  lemma {:induction false} ClusterServerFalsy(clusters: seq<ClusterEntry>, name: string)
    requires forall i :: 0 <= i < |clusters| ==> !Truthy(clusters[i].server)
    ensures !Truthy(ClusterServer(clusters, name))
    decreases |clusters|
  {
    if clusters != [] && clusters[0].name != name {
      assert forall j :: 0 <= j < |clusters| - 1 ==> clusters[1..][j] == clusters[j + 1];
      ClusterServerFalsy(clusters[1..], name);
    }
  }

  /** Without a server URL a cluster is remote, whatever its name. */
  lemma NoServerIsRemote(kube: KubeConfig)
    requires kube.current.Context?
    requires forall i :: 0 <= i < |kube.clusters| ==> !Truthy(kube.clusters[i].server)
    ensures !LocalCluster(Some(kube))
  {
    ClusterServerFalsy(kube.clusters, kube.current.cluster.GetOr(""));
  }

  // ---------------------------------------------------------------------
  // Readiness and creation
  // ---------------------------------------------------------------------

  /** A status condition; a missing key is `None`. */
  datatype Condition = Condition(ctype: Option<string>, status: Option<string>)

  /** The position of the first condition of type "Ready". */
  function FirstReady(conds: seq<Condition>): (r: Option<nat>)
    ensures r.Some? ==> (r.value < |conds| && conds[r.value].ctype == Some("Ready")
      && forall j :: 0 <= j < r.value ==> conds[j].ctype != Some("Ready"))
    ensures r.None? ==> forall j :: 0 <= j < |conds| ==> conds[j].ctype != Some("Ready")
    decreases |conds|
  {
    if conds == [] then None
    else if conds[0].ctype == Some("Ready") then Some(0)
    else
      var r := FirstReady(conds[1..]);
      assert forall j :: 0 < j < |conds| ==> conds[j] == conds[1..][j - 1];
      if r.None? then None else Some(r.value + 1)
  }

  /** Condition `i` is a "Ready" condition with status "True" and no earlier condition is of type "Ready". */
  predicate FirstReadyTrue(conds: seq<Condition>, i: int)
  {
    && 0 <= i < |conds|
    && conds[i] == Condition(Some("Ready"), Some("True"))
    && forall j :: 0 <= j < i ==> conds[j].ctype != Some("Ready")
  }

  /**
   * One readiness test of `wait_for_ready` on the conditions of the Knative
   * Service (`None` when the service is not found): the first condition of
   * type "Ready" must have status "True".
   */
  predicate ReadyNow(svc: Option<seq<Condition>>)
  {
    svc.Some? && FirstReady(svc.value).Some? && svc.value[FirstReady(svc.value).value].status == Some("True")
  }

  /** Ready exactly when some "Ready" condition says "True" and no earlier condition is of type "Ready". */
  lemma ReadyNowIff(conds: seq<Condition>)
    ensures ReadyNow(Some(conds)) <==> exists i :: FirstReadyTrue(conds, i)
  {
    if ReadyNow(Some(conds)) {
      assert FirstReadyTrue(conds, FirstReady(conds).value);
    }
    if exists i :: FirstReadyTrue(conds, i) {
      var i :| FirstReadyTrue(conds, i);
      assert FirstReady(conds).Some?;
    }
  }

  /** With at most one condition of type "Ready", the service is ready iff that condition says "True". */
  lemma ReadyNowSingle(conds: seq<Condition>)
    requires forall i, j :: (0 <= i < |conds| && 0 <= j < |conds| && conds[i].ctype == Some("Ready")
      && conds[j].ctype == Some("Ready")) ==> i == j
    ensures ReadyNow(Some(conds)) <==> exists i :: 0 <= i < |conds| && conds[i] == Condition(Some("Ready"), Some("True"))
  {
    ReadyNowIff(conds);
  }

  /** A service not found is never ready. */
  lemma NotFoundNotReady()
    ensures !ReadyNow(None)
  {
  }

  /**
   * `wait_for_ready`: `polls` are the services read before the timeout,
   * one per poll; the wait succeeds as soon as one of them is ready.
   */
  method WaitForReady(polls: seq<Option<seq<Condition>>>) returns (ready: bool)
    ensures ready <==> exists i :: 0 <= i < |polls| && ReadyNow(polls[i])
  {
    var i := 0;
    while i < |polls|
      invariant 0 <= i <= |polls|
      invariant forall j :: 0 <= j < i ==> !ReadyNow(polls[j])
    {
      var svc := polls[i];
      if svc.Some? {
        var readyCond := FirstReady(svc.value);
        if readyCond.Some? && svc.value[readyCond.value].status == Some("True") {
          return true;
        }
      }
      i := i + 1;
    }
    return false;
  }

  /** What reading the service back after its creation gave. */
  datatype Fetched = ApiFailure | NotFound | Found(url: Option<string>)

  /**
   * The result of `create_kservice`: the name and URL (an empty URL when the
   * status has none) on success, (None, None) when the creation or a read
   * raised an API error. A service that vanished before the read makes the
   * source fail on `None.get`.
   */
  function CreateKServiceResult(name: string, created: bool, fetched: Fetched): (r: Result<(Option<string>, Option<string>)>)
    ensures r.Ok? ==> (r.value.0.Some? <==> r.value.1.Some?)
    ensures r.Ok? && r.value.0.Some? ==> r.value.0 == Some(name)
  {
    if !created || fetched.ApiFailure? then Ok((None, None))
    else if fetched.NotFound? then Err("AttributeError", "'NoneType' object has no attribute 'get'")
    else Ok((Some(name), Some(if Truthy(fetched.url) then fetched.url.value else "")))
  }

  /** The service is reported created exactly when both the creation and the read back succeeded; its URL is empty exactly when the status had none. */
  lemma CreateKServiceOutcome(name: string, created: bool, fetched: Fetched)
    ensures var r := CreateKServiceResult(name, created, fetched);
      && (r.Ok? && r.value.0.Some? <==> created && fetched.Found?)
      && (r.Ok? && r.value.0.None? <==> !created || fetched.ApiFailure?)
      && (created && fetched.Found? ==> (r.value.1 == Some("") <==> !Truthy(fetched.url)))
  {
  }
}
