/**
 * What the PAI deployer sends with a deployment (pai_deployer.py): the
 * deployment configuration `_build_deployment_config` assembles before
 * serialising it to JSON, the credential configuration of
 * `_build_credential_config`, and the tags `deploy` attaches.
 */
module PaiBuild {
  import opened Wrappers
  import opened Strings
  import opened Dicts
  import opened PaiConfig

  /** The keyword arguments of `_build_deployment_config`. */
  datatype DeploymentArgs = DeploymentArgs(
    resourceType: string,
    instanceCount: int,
    resourceId: Option<string>,
    quotaId: Option<string>,
    instanceType: Option<string>,
    cpu: Option<int>,
    memory: Option<int>,
    vpcId: Option<string>,
    vswitchId: Option<string>,
    securityGroupId: Option<string>,
    serviceGroupName: Option<string>,
    environment: Option<Dict<string>>,
    tags: Option<Dict<string>>)

  /** The `metadata` object; an absent key is `None`. */
  datatype Metadata = Metadata(
    instance: int,
    workspaceId: Option<string>,
    group: Option<string>,
    resource: Option<string>,
    quotaId: Option<string>,
    cpu: Option<int>,
    memory: Option<int>)

  /** One `{"name": ..., "value": ...}` entry of the container's `env` list. */
  datatype EnvVar = EnvVar(name: string, value: string)

  /**
   * The deployment configuration before `json.dumps`: `metadata`,
   * `cloud.networking` (its keys in insertion order), the instance type of
   * `cloud.computing.instances`, `labels`, the single container's `env`
   * list and `options.priority`; an absent key is `None`.
   */
  datatype DeploymentConfig = DeploymentConfig(
    metadata: Metadata,
    networking: Dict<string>,
    computing: Option<string>,
    labels: Option<Dict<string>>,
    containerEnv: Option<seq<EnvVar>>,
    priority: Option<int>)

  const QuotaPriority: int := 9

  /** The container environment in dictionary order. */
  function EnvVars(env: Dict<string>): (r: seq<EnvVar>)
    ensures |r| == |env|
    ensures forall i :: 0 <= i < |env| ==> r[i] == EnvVar(env[i].0, env[i].1)
  {
    if env == [] then [] else [EnvVar(env[0].0, env[0].1)] + EnvVars(env[1..])
  }

  /** A pool resource type: a resource group or a quota. */
  predicate PoolType(rt: string)
  {
    rt == "resource" || rt == "quota"
  }

  /** The resource types `_build_deployment_config` accepts. */
  predicate KnownType(rt: string)
  {
    rt == "public" || PoolType(rt)
  }

  /** The networking keys, added only for the VPC fields that are set. */
  function NetworkingOf(a: DeploymentArgs): Dict<string>
  {
    (if Truthy(a.vpcId) then [("vpc_id", a.vpcId.value)] else [])
    + (if Truthy(a.vswitchId) then [("vswitch_id", a.vswitchId.value)] else [])
    + (if Truthy(a.securityGroupId) then [("security_group_id", a.securityGroupId.value)] else [])
  }

  /** The metadata of an accepted configuration. */
  function MetadataOf(workspaceId: Option<string>, a: DeploymentArgs): Metadata
  {
    var rt := a.resourceType;
    Metadata(a.instanceCount, workspaceId,
      if Truthy(a.serviceGroupName) then a.serviceGroupName else None,
      if rt == "resource" then a.resourceId else None,
      if rt == "quota" then a.quotaId else None,
      if PoolType(rt) && TruthyInt(a.cpu) then a.cpu else None,
      if PoolType(rt) && TruthyInt(a.memory) then a.memory else None)
  }

  /** The configuration `_build_deployment_config` serialises, or the ValueError it raises. */
  function DeploymentConfigOf(workspaceId: Option<string>, a: DeploymentArgs): Result<DeploymentConfig>
  {
    var rt := a.resourceType;
    if rt == "resource" && !Truthy(a.resourceId) then Err("ValueError", "resource_id required for resource type")
    else if rt == "quota" && !Truthy(a.quotaId) then Err("ValueError", "quota_id required for quota resource type")
    else if !KnownType(rt) then Err("ValueError", "Unsupported resource_type: " + rt)
    else Ok(DeploymentConfig(
      MetadataOf(workspaceId, a),
      NetworkingOf(a),
      if rt == "public" && Truthy(a.instanceType) then a.instanceType else None,
      if TruthyDict(a.tags) then a.tags else None,
      if TruthyDict(a.environment) then Some(EnvVars(a.environment.value)) else None,
      if rt == "quota" then Some(QuotaPriority) else None))
  }

  /**
   * `_build_deployment_config`: starts from the metadata and an empty
   * networking object and adds each key in the source's order.
   * `workspaceId` is the deployer's `workspace_id`.
   */
  method BuildDeploymentConfig(workspaceId: Option<string>, a: DeploymentArgs) returns (r: Result<DeploymentConfig>)
    ensures r == DeploymentConfigOf(workspaceId, a)
  {
    var labels: Option<Dict<string>> := None;
    if TruthyDict(a.tags) {
      labels := a.tags;
    }
    var containerEnv: Option<seq<EnvVar>> := None;
    if TruthyDict(a.environment) {
      containerEnv := Some(EnvVars(a.environment.value));
    }
    var meta := BuildMetadata(workspaceId, a);
    if meta.Err? {
      return Err(meta.kind, meta.message);
    }
    var computing: Option<string> := None;
    var priority: Option<int> := None;
    if a.resourceType == "public" {
      if Truthy(a.instanceType) {
        computing := a.instanceType;
      }
    } else if a.resourceType == "quota" {
      priority := Some(QuotaPriority);
    }
    var networking := BuildNetworking(a);
    r := Ok(DeploymentConfig(meta.value, networking, computing, labels, containerEnv, priority));
  }

  /** The metadata part of `_build_deployment_config`, with its three ValueErrors. */
  method BuildMetadata(workspaceId: Option<string>, a: DeploymentArgs) returns (r: Result<Metadata>)
    ensures DeploymentConfigOf(workspaceId, a).Err? ==>
      r == Err(DeploymentConfigOf(workspaceId, a).kind, DeploymentConfigOf(workspaceId, a).message)
    ensures DeploymentConfigOf(workspaceId, a).Ok? ==> r == Ok(MetadataOf(workspaceId, a))
  {
    var meta := Metadata(a.instanceCount, workspaceId, None, None, None, None, None);
    if Truthy(a.serviceGroupName) {
      meta := meta.(group := a.serviceGroupName);
    }
    if a.resourceType == "public" {
    } else if a.resourceType == "resource" {
      if !Truthy(a.resourceId) {
        return Err("ValueError", "resource_id required for resource type");
      }
      meta := meta.(resource := a.resourceId);
      if TruthyInt(a.cpu) {
        meta := meta.(cpu := a.cpu);
      }
      if TruthyInt(a.memory) {
        meta := meta.(memory := a.memory);
      }
    } else if a.resourceType == "quota" {
      if !Truthy(a.quotaId) {
        return Err("ValueError", "quota_id required for quota resource type");
      }
      meta := meta.(quotaId := a.quotaId);
      if TruthyInt(a.cpu) {
        meta := meta.(cpu := a.cpu);
      }
      if TruthyInt(a.memory) {
        meta := meta.(memory := a.memory);
      }
    } else {
      return Err("ValueError", "Unsupported resource_type: " + a.resourceType);
    }
    r := Ok(meta);
  }

  /** The networking part of `_build_deployment_config`. */
  method BuildNetworking(a: DeploymentArgs) returns (net: Dict<string>)
    ensures net == NetworkingOf(a)
  {
    net := [];
    if Truthy(a.vpcId) {
      net := net + [("vpc_id", a.vpcId.value)];
    }
    if Truthy(a.vswitchId) {
      net := net + [("vswitch_id", a.vswitchId.value)];
    }
    if Truthy(a.securityGroupId) {
      net := net + [("security_group_id", a.securityGroupId.value)];
    }
  }

  /**
   * The three ValueErrors: a resource group without an id, a quota without an
   * id, and any type other than "public", "resource" and "quota".
   */
  lemma DeploymentConfigErrors(workspaceId: Option<string>, a: DeploymentArgs)
    ensures DeploymentConfigOf(workspaceId, a).Err? <==>
      (a.resourceType == "resource" && !Truthy(a.resourceId))
      || (a.resourceType == "quota" && !Truthy(a.quotaId))
      || !KnownType(a.resourceType)
    ensures DeploymentConfigOf(workspaceId, a).Err? ==> DeploymentConfigOf(workspaceId, a).kind == "ValueError"
  {
  }

  /** A quota deployment, and only a quota deployment, carries priority 9; only a pool carries the pool id. */
  lemma DeploymentConfigResources(workspaceId: Option<string>, a: DeploymentArgs)
    requires DeploymentConfigOf(workspaceId, a).Ok?
    ensures DeploymentConfigOf(workspaceId, a).value.priority == if a.resourceType == "quota" then Some(9) else None
    ensures DeploymentConfigOf(workspaceId, a).value.metadata.resource.Some? <==> a.resourceType == "resource"
    ensures DeploymentConfigOf(workspaceId, a).value.metadata.quotaId.Some? <==> a.resourceType == "quota"
    ensures DeploymentConfigOf(workspaceId, a).value.metadata.cpu.Some? <==> PoolType(a.resourceType) && TruthyInt(a.cpu)
    ensures DeploymentConfigOf(workspaceId, a).value.computing.Some? <==>
      a.resourceType == "public" && Truthy(a.instanceType)
  {
  }

  /** Every networking key is present exactly when its VPC field is set, with that field's value. */
  lemma NetworkingKeys(a: DeploymentArgs)
    ensures UniqueKeys(NetworkingOf(a))
    ensures Get(NetworkingOf(a), "vpc_id") == if Truthy(a.vpcId) then a.vpcId else None
    ensures Get(NetworkingOf(a), "vswitch_id") == if Truthy(a.vswitchId) then a.vswitchId else None
    ensures Get(NetworkingOf(a), "security_group_id") == if Truthy(a.securityGroupId) then a.securityGroupId else None
  {
    var n := NetworkingOf(a);
    assert "vpc_id"[1] != "vswitch_id"[1];
    assert |"vpc_id"| != |"security_group_id"| && |"vswitch_id"| != |"security_group_id"|;
    assert forall i :: 0 <= i < |n| ==> n[i].0 in {"vpc_id", "vswitch_id", "security_group_id"};
    if Truthy(a.vpcId) {
      GetUnique(n, "vpc_id", a.vpcId.value);
    }
    if Truthy(a.vswitchId) {
      GetUnique(n, "vswitch_id", a.vswitchId.value);
    }
    if Truthy(a.securityGroupId) {
      GetUnique(n, "security_group_id", a.securityGroupId.value);
    }
  }

  /** The container environment lists every variable once, in dictionary order. */
  lemma DeploymentConfigEnv(workspaceId: Option<string>, a: DeploymentArgs)
    requires DeploymentConfigOf(workspaceId, a).Ok?
    ensures DeploymentConfigOf(workspaceId, a).value.containerEnv.Some? <==> TruthyDict(a.environment)
    ensures DeploymentConfigOf(workspaceId, a).value.containerEnv.Some? ==>
      var env := a.environment.value;
      var list := DeploymentConfigOf(workspaceId, a).value.containerEnv.value;
      |list| == |env| && forall i :: 0 <= i < |env| ==> list[i].name == env[i].0 && list[i].value == env[i].1
  {
  }

  /** One item of `CredentialConfigItems`. */
  datatype CredentialItem = CredentialItem(itemType: string, key: string, roles: seq<string>)

  /** The credential configuration: injection disabled, or enabled with a role key and its items. */
  datatype CredentialConfig = NoInject | Inject(roleKey: string, items: seq<CredentialItem>)

  /**
   * `_build_credential_config`: mode "none" disables injection; any other
   * mode injects one role item keyed "0", empty except in mode "custom",
   * which requires an ARN and lists exactly it.
   */
  function BuildCredentialConfig(mode: string, arn: Option<string>): (r: Result<CredentialConfig>)
    ensures mode == "none" ==> r == Ok(NoInject)
    ensures mode == "custom" && !Truthy(arn) ==> r == Err("ValueError", "ram_role_arn required for custom ram_role_mode")
    ensures mode != "none" && r.Ok? ==>
      r.value.Inject? && r.value.roleKey == "0" && |r.value.items| == 1
      && r.value.items[0].itemType == "Role" && r.value.items[0].key == "0"
    ensures mode == "custom" && Truthy(arn) ==> r.Ok? && r.value.items[0].roles == [arn.value]
    ensures mode != "none" && mode != "custom" ==> r.Ok? && r.value.items[0].roles == []
  {
    if mode == "none" then Ok(NoInject)
    else
      var item := CredentialItem("Role", "0", []);
      if mode == "custom" then
        if !Truthy(arn) then Err("ValueError", "ram_role_arn required for custom ram_role_mode")
        else Ok(Inject("0", [item.(roles := [arn.value])]))
      else Ok(Inject("0", [item]))
  }

  /** The tags `deploy` adds by itself; `version` is the package's `__version__`. */
  function AutoTags(deployMethod: string, version: string): (r: Dict<string>)
    ensures UniqueKeys(r)
    ensures Keys(r) == ["deployed-by", "client-version", "deploy-method"]
  {
    var r := [("deployed-by", "agentscope-runtime"), ("client-version", version), ("deploy-method", deployMethod)];
    assert "deployed-by"[1] != "client-version"[1] && "client-version"[1] != "deploy-method"[1];
    assert |"deployed-by"| != |"deploy-method"|;
    r
  }

  /**
   * The start of `deploy`: a missing service name is a ValueError; otherwise
   * the tags are the automatic tags updated with the user's, so the user's
   * win. `deployMethod` is the `deploy_method` keyword argument, "sdk" when
   * absent.
   */
  function DeployTags(serviceName: Option<string>, deployMethod: Option<string>, version: string,
                      tags: Option<Dict<string>>): (r: Result<Dict<string>>)
    ensures r.Err? <==> !Truthy(serviceName)
    ensures r.Err? ==> r == Err("ValueError", "service_name is required for PAI deployment")
  {
    if !Truthy(serviceName) then Err("ValueError", "service_name is required for PAI deployment")
    else
      var auto := AutoTags(deployMethod.GetOr("sdk"), version);
      Ok(if TruthyDict(tags) then Update(auto, tags.value) else auto)
  }

  /** A user tag overrides an automatic tag of the same key; every automatic tag is present. */
  lemma DeployTagsLookup(serviceName: Option<string>, deployMethod: Option<string>, version: string,
                         tags: Option<Dict<string>>, k: string)
    requires Truthy(serviceName)
    requires tags.Some? ==> UniqueKeys(tags.value)
    ensures Get(DeployTags(serviceName, deployMethod, version, tags).value, k) ==
      if TruthyDict(tags) && HasKey(tags.value, k) then Get(tags.value, k)
      else Get(AutoTags(deployMethod.GetOr("sdk"), version), k)
    ensures HasKey(DeployTags(serviceName, deployMethod, version, tags).value, "deploy-method")
    ensures UniqueKeys(DeployTags(serviceName, deployMethod, version, tags).value)
  {
    var auto := AutoTags(deployMethod.GetOr("sdk"), version);
    assert HasKey(auto, "deploy-method") by {
      assert Keys(auto)[2] == "deploy-method";
    }
    if TruthyDict(tags) {
      GetUpdate(auto, tags.value, k);
      UpdateKeys(auto, tags.value, "deploy-method");
      UpdateUnique(auto, tags.value);
    }
  }

  /** The arguments `deploy` passes on to `_build_deployment_config` for the keyword arguments of a configuration. */
  function ArgsOfKwargs(k: DeployerKwargs, finalTags: Dict<string>): DeploymentArgs
  {
    DeploymentArgs(k.resourceType, k.instanceCount, k.resourceId, k.quotaId, k.instanceType, k.cpu, k.memory,
      k.vpcId, k.vswitchId, k.securityGroupId, k.serviceGroupName, k.environment, Some(finalTags))
  }

  /**
   * A configuration that passes `validate_for_deploy` builds: its keyword
   * arguments give a deployment configuration and a credential
   * configuration, and the credential roles are exactly the configured ARN,
   * if any.
   */
  lemma ValidatedBuilds(c: DeployConfig, sourceExists: bool, workspaceId: Option<string>, finalTags: Dict<string>)
    requires ValidationErrors(c, sourceExists) == []
    ensures DeploymentConfigOf(workspaceId, ArgsOfKwargs(ToDeployerKwargs(c), finalTags)).Ok?
    ensures BuildCredentialConfig(ToDeployerKwargs(c).ramRoleMode, ToDeployerKwargs(c).ramRoleArn).Ok?
    ensures BuildCredentialConfig(ToDeployerKwargs(c).ramRoleMode, ToDeployerKwargs(c).ramRoleArn).value.items[0].roles ==
      if Truthy(c.spec.ramRoleArn) then [c.spec.ramRoleArn.value] else []
  {
    var rt := ResolveResourceType(c.spec.resources);
    var k := ToDeployerKwargs(c);
    KwargsRoleAndDicts(c);
    assert k.ramRoleArn == c.spec.ramRoleArn;
    assert rt == ResourceGroup ==> Truthy(c.spec.resources.resourceId);
    assert rt == Quota ==> Truthy(c.spec.resources.quotaId);
    assert k.resourceId == c.spec.resources.resourceId && k.quotaId == c.spec.resources.quotaId;
    assert k.resourceType == TypeName(rt);
  }
}
