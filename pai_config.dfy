/**
 * The PAI deployment configuration (`PAIDeployConfig` in pai_deployer.py):
 * overriding a loaded configuration with command-line values, inferring the
 * resource type and the OSS working directory, the keyword arguments handed
 * to the deployer, and the pre-deploy validation that reports every problem
 * at once.
 */
module PaiConfig {
  import opened Wrappers
  import opened Strings
  import opened Dicts

  datatype Code = Code(sourceDir: Option<string>, entrypoint: Option<string>)

  /** The three values of the `type` field's `Literal` annotation. */
  datatype ResourceType = Public | ResourceGroup | Quota

  /** The text of a resource type. */
  function TypeName(t: ResourceType): (n: string)
    ensures n != ""
  {
    match t
    case Public => "public"
    case ResourceGroup => "resource"
    case Quota => "quota"
  }

  /** Reading a resource type back from its text; any other text is not a resource type. */
  function ParseResourceType(n: string): (t: Option<ResourceType>)
    ensures t.Some? ==> TypeName(t.value) == n
  {
    if n == "public" then Some(Public)
    else if n == "resource" then Some(ResourceGroup)
    else if n == "quota" then Some(Quota)
    else None
  }

  /** Every resource type reads back from its text. */
  lemma ParseTypeName(t: ResourceType)
    ensures ParseResourceType(TypeName(t)) == Some(t)
  {
  }

  datatype Resources = Resources(
    instanceCount: int,
    rtype: Option<ResourceType>,
    instanceType: Option<string>,
    resourceId: Option<string>,
    quotaId: Option<string>,
    cpu: Option<int>,
    memory: Option<int>)

  datatype Vpc = Vpc(vpcId: Option<string>, vswitchId: Option<string>, securityGroupId: Option<string>)

  /** `PAISpecConfig`, with `identity`, `observability` and `storage` flattened into one field each. */
  datatype Spec = Spec(
    name: Option<string>,
    code: Code,
    serviceGroupName: Option<string>,
    resources: Resources,
    vpc: Vpc,
    ramRoleArn: Option<string>,
    enableTrace: bool,
    workDir: Option<string>,
    env: Dict<string>,
    tags: Dict<string>)

  /** `PAIContextConfig`, with `storage.work_dir` as `workDir`. */
  datatype Context = Context(workspaceId: Option<string>, region: Option<string>, workDir: Option<string>)

  datatype DeployConfig = DeployConfig(context: Context, spec: Spec, wait: bool, timeout: int, autoApprove: bool)

  /** `PAIDeployConfig()` with every field at its declared default. */
  const DefaultConfig: DeployConfig := DeployConfig(
    Context(None, None, None),
    Spec(None, Code(None, None), None, Resources(1, None, None, None, None, None, None),
      Vpc(None, None, None), None, true, None, [], []),
    true, 1800, true)

  /** What model validation guarantees of a configuration beyond its field types: dictionaries have unique keys. */
  predicate ConfigValid(c: DeployConfig)
  {
    UniqueKeys(c.spec.env) && UniqueKeys(c.spec.tags)
  }

  /** The optional arguments of `merge_cli`. */
  datatype CliArgs = CliArgs(
    source: Option<string>,
    name: Option<string>,
    entrypoint: Option<string>,
    workspaceId: Option<string>,
    region: Option<string>,
    ossPath: Option<string>,
    instanceType: Option<string>,
    instanceCount: Option<int>,
    resourceId: Option<string>,
    quotaId: Option<string>,
    cpu: Option<int>,
    memory: Option<int>,
    serviceGroup: Option<string>,
    resourceType: Option<string>,
    vpcId: Option<string>,
    vswitchId: Option<string>,
    securityGroupId: Option<string>,
    ramRoleArn: Option<string>,
    enableTrace: Option<bool>,
    wait: Option<bool>,
    timeout: Option<int>,
    autoApprove: Option<bool>,
    environment: Option<Dict<string>>,
    tags: Option<Dict<string>>)

  /** `merge_cli()` with no argument. */
  const NoCliArgs: CliArgs := CliArgs(None, None, None, None, None, None, None, None, None, None, None, None,
    None, None, None, None, None, None, None, None, None, None, None, None)

  /** A dictionary argument is merged only when it is given and non-empty. */
  predicate TruthyDict<V>(o: Option<Dict<V>>)
  {
    o.Some? && o.value != []
  }

  /** `x if arg is None else arg`, for an optional field. */
  function Override<T>(arg: Option<T>, current: Option<T>): (r: Option<T>)
    ensures arg.Some? ==> r == arg
    ensures arg.None? ==> r == current
  {
    if arg.Some? then arg else current
  }

  function MergeDict(d: Dict<string>, arg: Option<Dict<string>>): Dict<string>
  {
    if TruthyDict(arg) then Update(d, arg.value) else d
  }

  /** The resources after `merge_cli`'s overrides. */
  function MergedResources(res: Resources, a: CliArgs): Resources
  {
    Resources(a.instanceCount.GetOr(res.instanceCount),
      if a.resourceType.Some? then ParseResourceType(a.resourceType.value) else res.rtype,
      Override(a.instanceType, res.instanceType), Override(a.resourceId, res.resourceId),
      Override(a.quotaId, res.quotaId), Override(a.cpu, res.cpu), Override(a.memory, res.memory))
  }

  function MergedVpc(v: Vpc, a: CliArgs): Vpc
  {
    Vpc(Override(a.vpcId, v.vpcId), Override(a.vswitchId, v.vswitchId), Override(a.securityGroupId, v.securityGroupId))
  }

  /** The context `merge_cli` produces. */
  function MergedContext(x: Context, a: CliArgs): Context
  {
    Context(Override(a.workspaceId, x.workspaceId), Override(a.region, x.region), x.workDir)
  }

  /** The code location `merge_cli` produces. */
  function MergedCode(x: Code, a: CliArgs): Code
  {
    Code(Override(a.source, x.sourceDir), Override(a.entrypoint, x.entrypoint))
  }

  /** The service spec `merge_cli` produces. */
  function MergedSpec(s: Spec, a: CliArgs): Spec
  {
    Spec(
      Override(a.name, s.name),
      MergedCode(s.code, a),
      Override(a.serviceGroup, s.serviceGroupName),
      MergedResources(s.resources, a),
      MergedVpc(s.vpc, a),
      Override(a.ramRoleArn, s.ramRoleArn),
      a.enableTrace.GetOr(s.enableTrace),
      Override(a.ossPath, s.workDir),
      MergeDict(s.env, a.environment),
      MergeDict(s.tags, a.tags))
  }

  /** The configuration `merge_cli` validates: every given argument replaces its field. */
  function Merged(c: DeployConfig, a: CliArgs): DeployConfig
  {
    DeployConfig(
      MergedContext(c.context, a),
      MergedSpec(c.spec, a),
      a.wait.GetOr(c.wait),
      a.timeout.GetOr(c.timeout),
      a.autoApprove.GetOr(c.autoApprove))
  }

  /** The resource type given on the command line, if any, is one of the admitted values. */
  predicate CliTypeOk(a: CliArgs)
  {
    a.resourceType.None? || ParseResourceType(a.resourceType.value).Some?
  }

  /**
   * `merge_cli`: overrides a copy of the configuration field by field and
   * validates the result, which fails only for a resource type outside the
   * admitted values. The receiver is a value and is never changed.
   */
  method MergeCli(c: DeployConfig, a: CliArgs) returns (r: Result<DeployConfig>)
    ensures CliTypeOk(a) ==> r == Ok(Merged(c, a))
    ensures !CliTypeOk(a) ==> r.Err? && r.kind == "ValidationError"
  {
    var context := MergeContext(c.context, a);
    var spec := MergeSpec(c.spec, a);
    var wait, timeout, autoApprove := c.wait, c.timeout, c.autoApprove;
    if a.wait.Some? { wait := a.wait.value; }
    if a.timeout.Some? { timeout := a.timeout.value; }
    if a.autoApprove.Some? { autoApprove := a.autoApprove.value; }
    if a.resourceType.Some? && ParseResourceType(a.resourceType.value).None? {
      return Err("ValidationError", "spec.resources.type: Input should be 'public', 'resource' or 'quota'");
    }
    return Ok(DeployConfig(context, spec, wait, timeout, autoApprove));
  }

  /** The context overrides of `merge_cli`. */
  method MergeContext(x: Context, a: CliArgs) returns (r: Context)
    ensures r == MergedContext(x, a)
  {
    var workspaceId, region := x.workspaceId, x.region;
    if a.workspaceId.Some? { workspaceId := a.workspaceId; }
    if a.region.Some? { region := a.region; }
    r := Context(workspaceId, region, x.workDir);
  }

  /** The code overrides of `merge_cli`. */
  method MergeCode(x: Code, a: CliArgs) returns (r: Code)
    ensures r == MergedCode(x, a)
  {
    var sourceDir, entrypoint := x.sourceDir, x.entrypoint;
    if a.source.Some? { sourceDir := a.source; }
    if a.entrypoint.Some? { entrypoint := a.entrypoint; }
    r := Code(sourceDir, entrypoint);
  }

  /** The spec overrides of `merge_cli`; the environment and tags are updated, not replaced. */
  method MergeSpec(s: Spec, a: CliArgs) returns (r: Spec)
    ensures r == MergedSpec(s, a)
  {
    var code := MergeCode(s.code, a);
    var res := MergeResources(s.resources, a);
    var vpc := MergeVpc(s.vpc, a);
    var name, group := s.name, s.serviceGroupName;
    if a.name.Some? { name := a.name; }
    if a.serviceGroup.Some? { group := a.serviceGroup; }
    var arn, trace, workDir := s.ramRoleArn, s.enableTrace, s.workDir;
    if a.ramRoleArn.Some? { arn := a.ramRoleArn; }
    if a.enableTrace.Some? { trace := a.enableTrace.value; }
    if a.ossPath.Some? { workDir := a.ossPath; }
    var env, tags := s.env, s.tags;
    if TruthyDict(a.environment) { env := Update(env, a.environment.value); }
    if TruthyDict(a.tags) { tags := Update(tags, a.tags.value); }
    r := Spec(name, code, group, res, vpc, arn, trace, workDir, env, tags);
  }

  /** The resource overrides of `merge_cli`. */
  method MergeResources(res: Resources, a: CliArgs) returns (r: Resources)
    ensures r == MergedResources(res, a)
  {
    var count, rtype, instanceType := res.instanceCount, res.rtype, res.instanceType;
    if a.resourceType.Some? { rtype := ParseResourceType(a.resourceType.value); }
    if a.instanceType.Some? { instanceType := a.instanceType; }
    if a.instanceCount.Some? { count := a.instanceCount.value; }
    var resourceId, quotaId, cpu, memory := res.resourceId, res.quotaId, res.cpu, res.memory;
    if a.resourceId.Some? { resourceId := a.resourceId; }
    if a.quotaId.Some? { quotaId := a.quotaId; }
    if a.cpu.Some? { cpu := a.cpu; }
    if a.memory.Some? { memory := a.memory; }
    r := Resources(count, rtype, instanceType, resourceId, quotaId, cpu, memory);
  }

  /** The VPC overrides of `merge_cli`. */
  method MergeVpc(v: Vpc, a: CliArgs) returns (r: Vpc)
    ensures r == MergedVpc(v, a)
  {
    var vpcId, vswitchId, groupId := v.vpcId, v.vswitchId, v.securityGroupId;
    if a.vpcId.Some? { vpcId := a.vpcId; }
    if a.vswitchId.Some? { vswitchId := a.vswitchId; }
    if a.securityGroupId.Some? { groupId := a.securityGroupId; }
    r := Vpc(vpcId, vswitchId, groupId);
  }

  /** Merging no argument gives the configuration back. */
  lemma MergeNothing(c: DeployConfig)
    ensures Merged(c, NoCliArgs) == c
  {
  }

  /** Merged environment and tags: the keys given on the command line win, every other key keeps its value. */
  lemma MergedDictsLookup(c: DeployConfig, a: CliArgs, k: string)
    requires a.environment.Some? ==> UniqueKeys(a.environment.value)
    requires a.tags.Some? ==> UniqueKeys(a.tags.value)
    ensures Get(Merged(c, a).spec.env, k) ==
      if TruthyDict(a.environment) && HasKey(a.environment.value, k) then Get(a.environment.value, k) else Get(c.spec.env, k)
    ensures Get(Merged(c, a).spec.tags, k) ==
      if TruthyDict(a.tags) && HasKey(a.tags.value, k) then Get(a.tags.value, k) else Get(c.spec.tags, k)
  {
    if TruthyDict(a.environment) {
      GetUpdate(c.spec.env, a.environment.value, k);
    }
    if TruthyDict(a.tags) {
      GetUpdate(c.spec.tags, a.tags.value, k);
    }
  }

  /** A merged valid configuration is valid again. */
  lemma MergedValid(c: DeployConfig, a: CliArgs)
    requires ConfigValid(c)
    ensures ConfigValid(Merged(c, a))
  {
    if TruthyDict(a.environment) {
      UpdateUnique(c.spec.env, a.environment.value);
    }
    if TruthyDict(a.tags) {
      UpdateUnique(c.spec.tags, a.tags.value);
    }
  }

  /**
   * `resolve_resource_type`: an explicit type wins; otherwise a quota id
   * means quota mode, then a resource id means resource-group mode, else
   * public mode.
   */
  function ResolveResourceType(res: Resources): (r: ResourceType)
    ensures res.rtype.Some? ==> r == res.rtype.value
    ensures res.rtype.None? && r == Quota ==> Truthy(res.quotaId)
    ensures res.rtype.None? && r == ResourceGroup ==> Truthy(res.resourceId) && !Truthy(res.quotaId)
    ensures res.rtype.None? && r == Public ==> !Truthy(res.resourceId) && !Truthy(res.quotaId)
  {
    if res.rtype.Some? then res.rtype.value
    else if Truthy(res.quotaId) then Quota
    else if Truthy(res.resourceId) then ResourceGroup
    else Public
  }

  /** `resolve_oss_work_dir`: the spec's directory, else the context's, else none. */
  function ResolveOssWorkDir(c: DeployConfig): (r: Option<string>)
    ensures r.None? || r.value != ""
    ensures Truthy(c.spec.workDir) ==> r == c.spec.workDir
    ensures !Truthy(c.spec.workDir) ==> r == (if Truthy(c.context.workDir) then c.context.workDir else None)
  {
    if Truthy(c.spec.workDir) then c.spec.workDir
    else if Truthy(c.context.workDir) then c.context.workDir
    else None
  }

  /**
   * The dictionary `to_deployer_kwargs` returns; an absent key (a `None`
   * value, which is never returned) is a `None` field here, and the fields
   * that cannot be `None` are plain values.
   */
  datatype DeployerKwargs = DeployerKwargs(
    projectDir: Option<string>,
    entrypoint: Option<string>,
    serviceName: Option<string>,
    serviceGroupName: Option<string>,
    resourceType: string,
    instanceCount: int,
    instanceType: Option<string>,
    resourceId: Option<string>,
    quotaId: Option<string>,
    cpu: Option<int>,
    memory: Option<int>,
    vpcId: Option<string>,
    vswitchId: Option<string>,
    securityGroupId: Option<string>,
    ramRoleMode: string,
    ramRoleArn: Option<string>,
    enableTrace: bool,
    environment: Option<Dict<string>>,
    tags: Option<Dict<string>>,
    wait: bool,
    timeout: int,
    autoApprove: bool)

  const DefaultInstanceType: string := "ecs.c6.large"
  const DefaultCpu: int := 2
  const DefaultMemory: int := 2048

  /** `to_deployer_kwargs`. */
  function ToDeployerKwargs(c: DeployConfig): (k: DeployerKwargs)
    ensures k.resourceType == TypeName(ResolveResourceType(c.spec.resources))
  {
    var s := c.spec;
    var res := s.resources;
    var rt := ResolveResourceType(res);
    var instanceType := if rt == Public && !Truthy(res.instanceType) then Some(DefaultInstanceType) else res.instanceType;
    var isPool := rt == ResourceGroup || rt == Quota;
    var cpu := if isPool && res.cpu.None? then Some(DefaultCpu) else res.cpu;
    var memory := if isPool && res.memory.None? then Some(DefaultMemory) else res.memory;
    DeployerKwargs(
      s.code.sourceDir, s.code.entrypoint, s.name, s.serviceGroupName, TypeName(rt), res.instanceCount, instanceType,
      res.resourceId, res.quotaId, cpu, memory, s.vpc.vpcId, s.vpc.vswitchId, s.vpc.securityGroupId,
      if Truthy(s.ramRoleArn) then "custom" else "default", s.ramRoleArn, s.enableTrace,
      if s.env != [] then Some(s.env) else None, if s.tags != [] then Some(s.tags) else None,
      c.wait, c.timeout, c.autoApprove)
  }

  /** Public mode defaults the instance type and passes cpu and memory through. */
  lemma KwargsPublicDefaults(c: DeployConfig)
    requires ResolveResourceType(c.spec.resources) == Public
    ensures ToDeployerKwargs(c).instanceType ==
      Some(if Truthy(c.spec.resources.instanceType) then c.spec.resources.instanceType.value else DefaultInstanceType)
    ensures ToDeployerKwargs(c).cpu == c.spec.resources.cpu && ToDeployerKwargs(c).memory == c.spec.resources.memory
  {
  }

  /** Resource-group and quota mode default cpu to 2 and memory to 2048, and pass the instance type through. */
  lemma KwargsPoolDefaults(c: DeployConfig)
    requires ResolveResourceType(c.spec.resources) != Public
    ensures ToDeployerKwargs(c).instanceType == c.spec.resources.instanceType
    ensures ToDeployerKwargs(c).cpu == Some(c.spec.resources.cpu.GetOr(DefaultCpu))
    ensures ToDeployerKwargs(c).memory == Some(c.spec.resources.memory.GetOr(DefaultMemory))
  {
  }

  /**
   * The RAM role mode is "custom" exactly when a role ARN is set, and the
   * environment and tags are passed only when non-empty.
   */
  lemma KwargsRoleAndDicts(c: DeployConfig)
    ensures ToDeployerKwargs(c).ramRoleMode == (if Truthy(c.spec.ramRoleArn) then "custom" else "default")
    ensures ToDeployerKwargs(c).environment == (if c.spec.env != [] then Some(c.spec.env) else None)
    ensures ToDeployerKwargs(c).tags == (if c.spec.tags != [] then Some(c.spec.tags) else None)
  {
  }

  const NameRequired: string := "Service name is required " + "(spec.name or --name)"
  const SourceRequired: string := "Source directory is required " + "(spec.code.source_dir or SOURCE argument)"
  const SourceMissingPrefix: string := "Source directory not found: "
  const ResourceIdRequired: string := "resource_id is required for resource mode"
  const QuotaIdRequired: string := "quota_id is required for quota mode"

  /**
   * The problems `validate_for_deploy` collects, in its order;
   * `sourceExists` says whether the source directory exists.
   */
  function ValidationErrors(c: DeployConfig, sourceExists: bool): seq<string>
  {
    var s := c.spec;
    var rt := ResolveResourceType(s.resources);
    (if !Truthy(s.name) then [NameRequired] else [])
    + (if !Truthy(s.code.sourceDir) then [SourceRequired] else [])
    + (if Truthy(s.code.sourceDir) && !sourceExists then [SourceMissingPrefix + s.code.sourceDir.value] else [])
    + (if rt == ResourceGroup && !Truthy(s.resources.resourceId) then [ResourceIdRequired] else [])
    + (if rt == Quota && !Truthy(s.resources.quotaId) then [QuotaIdRequired] else [])
  }

  /** The single message that lists every problem. */
  function ValidationMessage(errors: seq<string>): string
  {
    "Configuration validation failed:\n  - " + Join(errors, "\n  - ")
  }

  /**
   * `validate_for_deploy`: collects every problem before raising one
   * ValueError that lists them all, and returns normally when there is none.
   */
  method ValidateForDeploy(c: DeployConfig, sourceExists: bool) returns (r: Result<()>)
    ensures ValidationErrors(c, sourceExists) == [] ==> r == Ok(())
    ensures ValidationErrors(c, sourceExists) != [] ==>
      r == Err("ValueError", ValidationMessage(ValidationErrors(c, sourceExists)))
  {
    var errors: seq<string> := [];
    if !Truthy(c.spec.name) {
      errors := errors + [NameRequired];
    }
    if !Truthy(c.spec.code.sourceDir) {
      errors := errors + [SourceRequired];
    }
    if Truthy(c.spec.code.sourceDir) && !sourceExists {
      errors := errors + [SourceMissingPrefix + c.spec.code.sourceDir.value];
    }
    var rt := ResolveResourceType(c.spec.resources);
    if rt == ResourceGroup && !Truthy(c.spec.resources.resourceId) {
      errors := errors + [ResourceIdRequired];
    }
    if rt == Quota && !Truthy(c.spec.resources.quotaId) {
      errors := errors + [QuotaIdRequired];
    }
    assert errors == ValidationErrors(c, sourceExists);
    if errors != [] {
      return Err("ValueError", ValidationMessage(errors));
    }
    return Ok(());
  }

  /** Every problem is reported, and only the ones that are present. */
  lemma ValidationErrorsComplete(c: DeployConfig, sourceExists: bool)
    ensures NameRequired in ValidationErrors(c, sourceExists) <==> !Truthy(c.spec.name)
    ensures SourceRequired in ValidationErrors(c, sourceExists) <==> !Truthy(c.spec.code.sourceDir)
    ensures (exists e :: e in ValidationErrors(c, sourceExists) && StartsWith(e, SourceMissingPrefix)) <==>
      Truthy(c.spec.code.sourceDir) && !sourceExists
    ensures ResourceIdRequired in ValidationErrors(c, sourceExists) <==>
      c.spec.resources.rtype == Some(ResourceGroup) && !Truthy(c.spec.resources.resourceId)
    ensures QuotaIdRequired in ValidationErrors(c, sourceExists) <==>
      c.spec.resources.rtype == Some(Quota) && !Truthy(c.spec.resources.quotaId)
  {
    var s := c.spec;
    var errs := ValidationErrors(c, sourceExists);
    assert !StartsWith(NameRequired, SourceMissingPrefix) by {
      assert NameRequired[1] != SourceMissingPrefix[1];
    }
    assert !StartsWith(SourceRequired, SourceMissingPrefix) by {
      assert SourceRequired[17] != SourceMissingPrefix[17];
    }
    assert !StartsWith(ResourceIdRequired, SourceMissingPrefix) by {
      assert ResourceIdRequired[0] != SourceMissingPrefix[0];
    }
    assert !StartsWith(QuotaIdRequired, SourceMissingPrefix) by {
      assert QuotaIdRequired[0] != SourceMissingPrefix[0];
    }
    if Truthy(s.code.sourceDir) && !sourceExists {
      var e := SourceMissingPrefix + s.code.sourceDir.value;
      assert e in errs && StartsWith(e, SourceMissingPrefix);
    }
  }

  /** A configuration that passes validation names a service, a source and, in resource or quota mode, its id. */
  lemma ValidConfigComplete(c: DeployConfig, sourceExists: bool)
    requires ValidationErrors(c, sourceExists) == []
    ensures Truthy(c.spec.name) && Truthy(c.spec.code.sourceDir) && sourceExists
    ensures ResolveResourceType(c.spec.resources) == ResourceGroup ==> Truthy(c.spec.resources.resourceId)
    ensures ResolveResourceType(c.spec.resources) == Quota ==> Truthy(c.spec.resources.quotaId)
  {
    ValidationErrorsComplete(c, sourceExists);
    assert NameRequired !in ValidationErrors(c, sourceExists);
  }
}
