/**
 * The Knative deployer (knative_deployer.py): the resource name of a
 * deployment, the volume binding of a mount directory, the failure checks
 * and the records of `deploy`, the result of `stop` and `get_status`. The
 * image factory, the Knative client's API calls and `os.path.abspath` are
 * represented by the values they return.
 */
module KnativeDeployer {
  import opened Wrappers
  import opened Strings
  import opened Dicts
  import opened KnativeClient

  function Min(a: nat, b: nat): nat
  {
    if a < b then a else b
  }

  /** `get_resource_name`: "agent-" followed by the first eight characters of the deployment id. */
  function ResourceName(deployId: string): (r: string)
    ensures StartsWith(r, "agent-")
    ensures |r| == 6 + Min(8, |deployId|)
    ensures StartsWith(deployId, r[6..])
  {
    var r := "agent-" + deployId[..Min(8, |deployId|)];
    assert r[6..] == deployId[..Min(8, |deployId|)];
    r
  }

  /** "test-deploy-123" is deployed as "agent-test-dep". */
  lemma ResourceNameExample()
    ensures ResourceName("test-deploy-123") == "agent-test-dep"
  {
    assert "test-deploy-123"[..8] == "test-dep";
  }

  /** Deployment ids that agree on their first eight characters share the resource name. */
  lemma ResourceNameCollides(a: string, b: string)
    requires |a| >= 8 && |b| >= 8 && a[..8] == b[..8]
    ensures ResourceName(a) == ResourceName(b)
  {
  }

  /** `os.path.isabs` on POSIX. */
  predicate IsAbs(path: string)
  {
    StartsWith(path, "/")
  }

  /**
   * The volumes `deploy` hands to the client: a mount directory, made
   * absolute by `absPath` when it is not, is bound read-write onto itself;
   * no mount directory (None or empty) gives no volume.
   */
  function VolumeBindings(mountDir: Option<string>, absPath: string -> string): (r: Dict<MountInfo>)
    ensures !Truthy(mountDir) ==> r == []
    ensures Truthy(mountDir) ==> |r| == 1 && r[0].1 == MountDict(r[0].0, Some("rw"))
    ensures Truthy(mountDir) && IsAbs(mountDir.value) ==> r[0].0 == mountDir.value
  {
    if !Truthy(mountDir) then []
    else
      var dir := if IsAbs(mountDir.value) then mountDir.value else absPath(mountDir.value);
      [(dir, MountDict(dir, Some("rw")))]
  }

  /** In the pod, a mount directory becomes exactly one writable volume "vol-0" from the directory onto itself. */
  lemma VolumeBindingsInPod(mountDir: Option<string>, absPath: string -> string)
    requires Truthy(mountDir)
    ensures var b := VolumeBindings(mountDir, absPath);
      && MountsOf(b) == [VolumeMount("vol-0", b[0].0, false)]
      && VolumesOf(b) == [Volume("vol-0", b[0].0)]
  {
    var b := VolumeBindings(mountDir, absPath);
    assert b[..0] == [];
    assert DigitChar(0) == '0';
    assert VolumeName(0) == "vol-0";
    assert MountsOf(b) == MountsOf(b[..0]) + [MountOf(0, b[0].1)];
    assert VolumesOf(b) == VolumesOf(b[..0]) + [Volume(VolumeName(0), b[0].0)];
  }

  /** What the image factory's `build_image` did: it raised, or it returned a name (possibly empty). */
  datatype BuildOutcome = BuildRaised(error: string) | Built(image: Option<string>)

  /** The entries of a `_deployed_resources` record that the model follows. */
  datatype DeployRecord = DeployRecord(resourceName: string, baseImage: string, port: int, environment: Dict<EnvValue>, stream: bool)

  /** The result dict of a successful `deploy`. */
  datatype DeployOutput = DeployOutput(deployId: string, resourceName: string, url: string)

  function NoImageName(): string
  {
    "Image build failed - " + "no image name returned"
  }

  /** The RuntimeError the outer handler of `deploy` raises for any failure; the traceback text is not modelled. */
  function DeployFailure(error: string): (r: Result<DeployOutput>)
    ensures r.Err? && r.kind == "RuntimeError" && StartsWith(r.message, "Knative Service failed: ")
  {
    var prefix := "Knative Service failed: ";
    var m := prefix + error;
    assert m[..|prefix|] == prefix;
    Err("RuntimeError", m)
  }

  /** What the `if not url` check reports. */
  function NoUrl(resourceName: string): string
  {
    "Failed to create resource: " + resourceName
  }

  /** The image built, when the build step succeeded. */
  function BuiltImage(build: BuildOutcome): Option<string>
  {
    if build.Built? && Truthy(build.image) then build.image else None
  }

  /**
   * The outcome of `deploy` for a build outcome and the client's create,
   * whose result `CreateKServiceResult` gives.
   */
  function DeployResult(deployId: string, build: BuildOutcome, created: bool, fetched: Fetched): (r: Result<DeployOutput>)
    ensures r.Ok? <==> BuiltImage(build).Some? && created && fetched.Found? && Truthy(fetched.url)
    ensures r.Ok? ==> r.value == DeployOutput(deployId, ResourceName(deployId), fetched.url.value)
    ensures r.Err? ==> r.kind == "RuntimeError" && StartsWith(r.message, "Knative Service failed: ")
  {
    match build
    case BuildRaised(e) => DeployFailure("Failed to build image: " + e)
    case Built(image) =>
      if !Truthy(image) then DeployFailure("Failed to build image: " + NoImageName())
      else
        var resourceName := ResourceName(deployId);
        var result := CreateKServiceResult(resourceName, created, fetched);
        if result.Err? then DeployFailure(result.message)
        else if !Truthy(result.value.1) then DeployFailure(NoUrl(resourceName))
        else Ok(DeployOutput(deployId, resourceName, result.value.1.value))
  }

  /** A build that raises, or whose name is empty, fails the deployment before the service is created. */
  lemma BuildFailureFails(deployId: string, build: BuildOutcome, created: bool, fetched: Fetched)
    requires build.BuildRaised? || !Truthy(build.image)
    ensures DeployResult(deployId, build, created, fetched).Err?
    ensures BuiltImage(build).None?
  {
  }

  /** A service created without a URL fails the deployment, naming the resource. */
  lemma NoUrlFails(deployId: string, image: string, url: Option<string>)
    requires image != "" && !Truthy(url)
    ensures DeployResult(deployId, Built(Some(image)), true, Found(url))
      == DeployFailure(NoUrl(ResourceName(deployId)))
  {
  }

  /** What `delete_kservice` did: it returned a flag, or it raised. */
  datatype DeleteOutcome = DeleteReturned(deleted: bool) | DeleteRaised(error: string)

  datatype StopDetails = StopDetails(deployId: string, resourceName: string, error: Option<string>)

  datatype StopResult = StopResult(success: bool, message: string, details: StopDetails)

  /**
   * `stop`: success exactly when the delete returned True; a False result
   * (not found) and an exception both report failure, the exception's text
   * kept in the details.
   */
  function Stop(deployId: string, outcome: DeleteOutcome): (r: StopResult)
    ensures r.success <==> outcome == DeleteReturned(true)
    ensures r.details.deployId == deployId && r.details.resourceName == ResourceName(deployId)
    ensures r.details.error.Some? <==> outcome.DeleteRaised?
    ensures outcome.DeleteRaised? ==> r.details.error == Some(outcome.error)
  {
    var resourceName := ResourceName(deployId);
    match outcome
    case DeleteReturned(true) =>
      StopResult(true, "Knative deployment " + resourceName + " removed", StopDetails(deployId, resourceName, None))
    case DeleteReturned(false) =>
      StopResult(false, "Knative deployment " + resourceName + " not found (may already be deleted), "
        + "Please check the detail in cluster", StopDetails(deployId, resourceName, None))
    case DeleteRaised(e) =>
      StopResult(false, "Failed to remove Knative service: " + e, StopDetails(deployId, resourceName, Some(e)))
  }

  class Deployer {
    /** The deployer's `deploy_id`. */
    const deployId: string
    /** `_deployed_resources`. */
    var deployedResources: map<string, DeployRecord>
    /** `_built_images`. */
    var builtImages: map<string, string>

    constructor(deployId: string)
      ensures this.deployId == deployId
      ensures deployedResources == map[] && builtImages == map[]
    {
      this.deployId := deployId;
      deployedResources := map[];
      builtImages := map[];
    }

    /**
     * `deploy`: builds the image, binds the mount directory, creates the
     * service named by `ResourceName` with the one container port `port`, and
     * records the deployment when the service has a URL. The built image is
     * recorded as soon as the build succeeds, even when the service creation
     * fails afterwards. `pod` is the pod specification sent to the cluster,
     * None when the build failed.
     */
    method Deploy(build: BuildOutcome, mountDir: Option<string>, absPath: string -> string,
                  registry: Option<string>, baseImage: string, port: int, environment: Dict<EnvValue>,
                  rc: RuntimeConfig, stream: bool, created: bool, fetched: Fetched)
      returns (r: Result<DeployOutput>, pod: Option<PodSpec>)
      modifies this
      ensures r == DeployResult(deployId, build, created, fetched)
      ensures builtImages == if BuiltImage(build).Some? then old(builtImages)[deployId := BuiltImage(build).value] else old(builtImages)
      ensures deployedResources == if r.Ok?
        then old(deployedResources)[deployId := DeployRecord(ResourceName(deployId), baseImage, port, environment, stream)]
        else old(deployedResources)
      ensures pod == if BuiltImage(build).None? then None
        else Some(PodSpecOf(registry, BuiltImage(build).value, Some(ResourceName(deployId)), [IntSpec(port)],
                            VolumeBindings(mountDir, absPath), environment, rc))
    {
      pod := None;
      if build.BuildRaised? {
        return DeployFailure("Failed to build image: " + build.error), None;
      }
      if !Truthy(build.image) {
        return DeployFailure("Failed to build image: " + NoImageName()), None;
      }
      var image := build.image.value;
      builtImages := builtImages[deployId := image];
      var volumeBindings := BindMountDir(mountDir, absPath);
      var resourceName := ResourceName(deployId);
      var spec := CreatePodSpec(registry, image, Some(resourceName), [IntSpec(port)], volumeBindings, environment, rc);
      pod := Some(spec);
      var result := CreateKServiceResult(resourceName, created, fetched);
      if result.Err? {
        return DeployFailure(result.message), pod;
      }
      var (name, url) := result.value;
      if !Truthy(url) {
        return DeployFailure(NoUrl(resourceName)), pod;
      }
      deployedResources := deployedResources[deployId := DeployRecord(name.value, baseImage, port, environment, stream)];
      r := Ok(DeployOutput(deployId, resourceName, url.value));
    }

    /** The volume binding `deploy` builds for the mount directory, made absolute. */
    static method BindMountDir(mountDir: Option<string>, absPath: string -> string) returns (volumeBindings: Dict<MountInfo>)
      ensures volumeBindings == VolumeBindings(mountDir, absPath)
    {
      volumeBindings := [];
      if Truthy(mountDir) {
        var dir := mountDir.value;
        if !IsAbs(dir) {
          dir := absPath(dir);
        }
        volumeBindings := [(dir, MountDict(dir, Some("rw")))];
      }
    }

    /**
     * `get_status`: "not_found" when this deployment was never recorded,
     * otherwise what the client reports for the recorded service name.
     */
    function GetStatus(serviceStatus: string -> string): (r: string)
      reads this
      ensures deployId !in deployedResources ==> r == "not_found"
      ensures deployId in deployedResources ==> r == serviceStatus(deployedResources[deployId].resourceName)
    {
      if deployId !in deployedResources then "not_found"
      else serviceStatus(deployedResources[deployId].resourceName)
    }
  }

  /** The pod of a deployment exposes exactly the one container port, over TCP, and carries the mount directory's volume. */
  lemma DeployPodShape(registry: Option<string>, image: string, deployId: string, port: int,
                       mountDir: Option<string>, absPath: string -> string, environment: Dict<EnvValue>, rc: RuntimeConfig)
    ensures var b := VolumeBindings(mountDir, absPath);
      var pod := PodSpecOf(registry, image, Some(ResourceName(deployId)), [IntSpec(port)], b, environment, rc);
      && pod.containers[0].name == ResourceName(deployId)
      && pod.containers[0].ports == Some([ContainerPort(port, "TCP")])
      && (Truthy(mountDir) ==> pod.containers[0].volumeMounts == Some([VolumeMount("vol-0", b[0].0, false)]))
      && (!Truthy(mountDir) ==> pod.containers[0].volumeMounts.None? && pod.volumes.None?)
  {
    var specs := [IntSpec(port)];
    PortsOfAllParsed(specs);
    assert ParsePortSpec(specs[0]) == Some(ContainerPort(port, "TCP"));
    assert PortsOf(specs) == [ContainerPort(port, "TCP")];
    if Truthy(mountDir) {
      VolumeBindingsInPod(mountDir, absPath);
    }
  }
}
