/**
 The load-balanced Fargate service: its container environment, the policies attached to
 its task role (one per integration whose resource array is non-empty) and execution role,
 the hosted-zone lookup, security groups, health check, and the build/deploy pipelines.
 */
module Fargate {
  import opened Wrappers
  import opened Text
  import opened Naming
  import opened Options
  import opened Policies
  import opened Pipelines

  // ---------------------------------------------------------------------------
  // Task-role policies

  /** The order in which the task role's policies are considered and attached. */
  const AttachmentOrder: seq<PolicyKind> := [Parameters, AppConfig, Ses, Sns, CloudWatch, Secrets, EventBridge]

  /** The position of a kind in the attachment order. */
  function Rank(kind: PolicyKind): (r: nat)
    ensures r < |AttachmentOrder| && AttachmentOrder[r] == kind
  {
    match kind
    case Parameters => 0
    case AppConfig => 1
    case Ses => 2
    case Sns => 3
    case CloudWatch => 4
    case Secrets => 5
    case EventBridge => 6
  }

  lemma RankOfOrder(i: nat)
    requires i < |AttachmentOrder|
    ensures Rank(AttachmentOrder[i]) == i
  {
  }

  /** The options array that gates a kind's policy. */
  function ResourcesOf(opts: DeploymentOptions, kind: PolicyKind): seq<string>
  {
    match kind
    case Parameters => opts.parameterStoreResources
    case AppConfig => opts.appConfigResources
    case Ses => opts.sesResources
    case Sns => opts.snsResources
    case CloudWatch => opts.cloudWatchResources
    case Secrets => opts.secretResources
    case EventBridge => opts.eventBridgeResources
  }

  /** `.Any()` on the kind's resource array. */
  predicate Granted(opts: DeploymentOptions, kind: PolicyKind)
  {
    |ResourcesOf(opts, kind)| > 0
  }

  /**
   The granted kinds from position `i` of the attachment order on: a kind is listed exactly
   when it is granted, and the list follows the attachment order.
   */
  function GrantedFrom(opts: DeploymentOptions, i: nat): (kinds: seq<PolicyKind>)
    requires i <= |AttachmentOrder|
    ensures forall k :: k in kinds <==> Rank(k) >= i && Granted(opts, k)
    ensures forall a, b :: 0 <= a < b < |kinds| ==> Rank(kinds[a]) < Rank(kinds[b])
    decreases |AttachmentOrder| - i
  {
    if i == |AttachmentOrder| then []
    else
      var rest := GrantedFrom(opts, i + 1);
      RankOfOrder(i);
      if Granted(opts, AttachmentOrder[i]) then [AttachmentOrder[i]] + rest else rest
  }

  /** The kinds whose policy the task role receives, in attachment order. */
  function TaskRoleKinds(opts: DeploymentOptions): seq<PolicyKind>
  {
    GrantedFrom(opts, 0)
  }

  /** The policies attached to the task role, each built with the suffix "Task". */
  function TaskRolePolicies(stackName: string, opts: DeploymentOptions): (ps: seq<Policy>)
    ensures |ps| == |TaskRoleKinds(opts)|
    ensures forall i :: 0 <= i < |ps| ==>
              ps[i] == CreatePolicy(stackName, TaskRoleKinds(opts)[i], "Task", opts.appConfigResources)
  {
    var kinds := TaskRoleKinds(opts);
    seq(|kinds|, i requires 0 <= i < |kinds| => CreatePolicy(stackName, kinds[i], "Task", opts.appConfigResources))
  }

  /** The task role holds a kind's policy exactly when that kind's resource array is non-empty. */
  lemma {:induction false} TaskPolicyPresentIff(stackName: string, opts: DeploymentOptions, kind: PolicyKind)
    ensures CreatePolicy(stackName, kind, "Task", opts.appConfigResources) in TaskRolePolicies(stackName, opts)
            <==> Granted(opts, kind)
  {
    var kinds := TaskRoleKinds(opts);
    var ps := TaskRolePolicies(stackName, opts);
    var p := CreatePolicy(stackName, kind, "Task", opts.appConfigResources);
    if Granted(opts, kind) {
      var i :| 0 <= i < |kinds| && kinds[i] == kind;
      assert ps[i] == p;
    }
    if p in ps {
      var i :| 0 <= i < |ps| && ps[i] == p;
      if kinds[i] != kind {
        PolicyIdsDistinct(stackName, kinds[i], kind, "Task", opts.appConfigResources);
      }
      assert kinds[i] in kinds;
    }
  }

  /** Task-role policies appear in attachment order, and no two share an id. */
  lemma {:induction false} TaskPoliciesOrderedAndDistinct(stackName: string, opts: DeploymentOptions)
    ensures var ps := TaskRolePolicies(stackName, opts);
            var kinds := TaskRoleKinds(opts);
            && (forall i, j :: 0 <= i < j < |kinds| ==> Rank(kinds[i]) < Rank(kinds[j]))
            && (forall i, j :: 0 <= i < j < |ps| ==> ps[i].id != ps[j].id)
            && (forall i :: 0 <= i < |ps| ==> ps[i].id != EcrExecutionPolicy().id)
  {
    var ps := TaskRolePolicies(stackName, opts);
    var kinds := TaskRoleKinds(opts);
    forall i, j | 0 <= i < j < |ps|
      ensures ps[i].id != ps[j].id
    {
      PolicyIdsDistinct(stackName, kinds[i], kinds[j], "Task", opts.appConfigResources);
    }
    forall i | 0 <= i < |ps|
      ensures ps[i].id != EcrExecutionPolicy().id
    {
      FactoryIdsAvoidEcrPolicy(stackName, kinds[i], "Task", opts.appConfigResources);
    }
  }

  /** 1 when the array is non-empty, else 0. */
  function Indicator(resources: seq<string>): nat
  {
    if |resources| > 0 then 1 else 0
  }

  /** How many of the seven resource arrays are non-empty. */
  function NonEmptyArrays(opts: DeploymentOptions): nat
  {
    Indicator(opts.parameterStoreResources) + Indicator(opts.appConfigResources)
    + Indicator(opts.sesResources) + Indicator(opts.snsResources)
    + Indicator(opts.cloudWatchResources) + Indicator(opts.secretResources)
    + Indicator(opts.eventBridgeResources)
  }

  /** One step of the attachment order adds one policy exactly when that kind is granted. */
  lemma GrantedFromStep(opts: DeploymentOptions, i: nat)
    requires i < |AttachmentOrder|
    ensures |GrantedFrom(opts, i)| == Indicator(ResourcesOf(opts, AttachmentOrder[i])) + |GrantedFrom(opts, i + 1)|
  {
  }

  /** The task role receives as many policies as there are non-empty resource arrays. */
  lemma TaskPolicyCount(stackName: string, opts: DeploymentOptions)
    ensures |TaskRolePolicies(stackName, opts)| == NonEmptyArrays(opts)
  {
    var n6 := |GrantedFrom(opts, 6)|;
    GrantedFromStep(opts, 6);
    assert n6 == Indicator(opts.eventBridgeResources);
    var n5 := |GrantedFrom(opts, 5)|;
    GrantedFromStep(opts, 5);
    assert n5 == Indicator(opts.secretResources) + n6;
    var n4 := |GrantedFrom(opts, 4)|;
    GrantedFromStep(opts, 4);
    assert n4 == Indicator(opts.cloudWatchResources) + n5;
    var n3 := |GrantedFrom(opts, 3)|;
    GrantedFromStep(opts, 3);
    assert n3 == Indicator(opts.snsResources) + n4;
    var n2 := |GrantedFrom(opts, 2)|;
    GrantedFromStep(opts, 2);
    assert n2 == Indicator(opts.sesResources) + n3;
    var n1 := |GrantedFrom(opts, 1)|;
    GrantedFromStep(opts, 1);
    assert n1 == Indicator(opts.appConfigResources) + n2;
    var n0 := |GrantedFrom(opts, 0)|;
    GrantedFromStep(opts, 0);
    assert n0 == Indicator(opts.parameterStoreResources) + n1;
    assert |TaskRolePolicies(stackName, opts)| == n0;
  }

  // ---------------------------------------------------------------------------
  // Container environment

  const AppConfigProfileIdKey := "Nuages__ApplicationConfig__AppConfig__ConfigProfileId"
  const AppConfigEnabledKey := "Nuages__ApplicationConfig__AppConfig__Enabled"
  const UseAwsKey := "Nuages__UseAWS"
  const CertificatePasswordKey := "ASPNETCORE_Kestrel__Certificates__Default__Password"
  const CertificatePathKey := "ASPNETCORE_Kestrel__Certificates__Default__Path"
  const UrlsKey := "ASPNETCORE_URLS"

  /** .NET `bool.ToString()`. */
  function BoolToString(b: bool): string
  {
    if b then "True" else "False"
  }

  /**
   The container's environment: six fixed keys; the values come from the runtime options
   (possibly null) or are constants, and the AppConfig flag says whether AppConfig is granted.
   */
  function ContainerEnvironment(opts: DeploymentOptions, runtime: RuntimeOptions): (env: map<string, Option<string>>)
    ensures env.Keys == {AppConfigProfileIdKey, AppConfigEnabledKey, UseAwsKey,
                         CertificatePasswordKey, CertificatePathKey, UrlsKey}
    ensures |env| == 6
    ensures env[UseAwsKey] == Some("true")
    ensures env[UrlsKey] == Some("https://+;http://+")
    ensures env[AppConfigEnabledKey] == Some(if |opts.appConfigResources| > 0 then "True" else "False")
    ensures env[AppConfigProfileIdKey] == runtime.appConfigProfileId
    ensures env[CertificatePasswordKey] == runtime.certificatePassword
    ensures env[CertificatePathKey] == runtime.certificateFilename
  {
    var env := map[
      AppConfigProfileIdKey := runtime.appConfigProfileId,
      AppConfigEnabledKey := Some(BoolToString(|opts.appConfigResources| > 0)),
      UseAwsKey := Some("true"),
      CertificatePasswordKey := runtime.certificatePassword,
      CertificatePathKey := runtime.certificateFilename,
      UrlsKey := Some("https://+;http://+")];
    assert |env.Keys| == 6 by {
      var keys := [AppConfigProfileIdKey, AppConfigEnabledKey, UseAwsKey,
                   CertificatePasswordKey, CertificatePathKey, UrlsKey];
      assert |keys[0]| == 53 && |keys[1]| == 45 && |keys[2]| == 14;
      assert |keys[3]| == 51 && |keys[4]| == 47 && |keys[5]| == 15;
      assert keys[3] != keys[5];
    }
    env
  }

  /** The AppConfig flag reads "True" exactly when the task role holds the AppConfig policy. */
  lemma AppConfigFlagMatchesPolicy(stackName: string, opts: DeploymentOptions, runtime: RuntimeOptions)
    ensures ContainerEnvironment(opts, runtime)[AppConfigEnabledKey] == Some("True")
            <==> CreatePolicy(stackName, AppConfig, "Task", opts.appConfigResources) in TaskRolePolicies(stackName, opts)
  {
    TaskPolicyPresentIff(stackName, opts, AppConfig);
    var flag := ContainerEnvironment(opts, runtime)[AppConfigEnabledKey];
    assert flag == Some(if |opts.appConfigResources| > 0 then "True" else "False");
    assert "False"[0] != "True"[0];
  }

  // ---------------------------------------------------------------------------
  // The service

  datatype Protocol = Http | Https

  datatype HealthCheck = HealthCheck(path: string, port: string, intervalSeconds: nat, timeoutSeconds: nat,
                                     healthyHttpCodes: string, unhealthyThresholdCount: nat, protocol: Protocol)

  /** The target group's health check. */
  const ServiceHealthCheck := HealthCheck("/health", "443", 30, 5, "200", 3, Https)

  datatype VpcLookup = VpcLookup(id: string, vpcId: string)
  datatype Cluster = Cluster(id: string, vpc: VpcLookup)
  datatype SecurityGroupLookup = SecurityGroupLookup(id: string, securityGroupId: string)
  datatype ZoneLookup = ZoneLookup(id: string, domainName: string)
  datatype CertificateRef = CertificateRef(id: string, certificateArn: string)
  datatype RepositoryLookup = RepositoryLookup(id: string, repositoryName: string)

  datatype TaskImage = TaskImage(repository: RepositoryLookup, tag: string, containerName: string,
                                 containerPort: int, enableLogging: bool,
                                 environment: map<string, Option<string>>)

  datatype Service = Service(
    id: string,
    cluster: Cluster,
    cpu: int,
    domainName: string,
    domainZone: ZoneLookup,
    listenerPort: int,
    targetProtocol: Protocol,
    certificate: CertificateRef,
    desiredCount: int,
    memoryLimitMiB: int,
    publicLoadBalancer: bool,
    securityGroups: Option<seq<SecurityGroupLookup>>,
    taskImage: TaskImage,
    healthCheck: HealthCheck,
    taskRolePolicies: seq<Policy>,
    executionRolePolicies: seq<Policy>)

  datatype EcsTopology = EcsTopology(service: Service, build: BuildTopology)

  /** Security groups are looked up only when a non-empty id is configured; otherwise none are set. */
  function SecurityGroups(opts: DeploymentOptions): (r: Option<seq<SecurityGroupLookup>>)
    ensures r.Some? <==> !IsNullOrEmpty(opts.securityGroupId)
    ensures r.Some? ==> r.value == [SecurityGroupLookup("WebApiSGDefault", opts.securityGroupId.value)]
  {
    if !IsNullOrEmpty(opts.securityGroupId)
    then Some([SecurityGroupLookup("WebApiSGDefault", opts.securityGroupId.value)])
    else None
  }

  /**
   The id of the service the deploy action and the dependency edge refer to. The stack hands
   them the pattern's inner Fargate service rather than the load-balanced pattern itself; the
   model names both by the pattern's construct id `<stack>FargateService`, which differs from
   both pipeline ids, so the dependency edges have distinct ends.
   */
  function ServiceId(stackName: string): (r: string)
    ensures IsPrefix(stackName, r) && IsSuffix("FargateService", r) && |r| == |stackName| + 14
    ensures r != stackName + "ECR" && r != stackName + "ECS"
  {
    stackName + "FargateService"
  }

  /** The Fargate service with its roles' policies, followed by its build and deploy pipelines. */
  function CreateEcs(stackName: string, env: StackEnvironment, opts: DeploymentOptions, runtime: RuntimeOptions,
                     buildBucket: BucketRef, additionalFilesBucket: Option<BucketRef>): (t: EcsTopology)
    ensures t.service.executionRolePolicies == [EcrExecutionPolicy()]
    ensures t.service.taskRolePolicies == TaskRolePolicies(stackName, opts)
    ensures t.service.domainName == opts.domainName
    ensures t.service.domainZone.domainName == GetBaseDomain(opts.domainName)
    ensures t.service.healthCheck == ServiceHealthCheck
    ensures t.service.taskImage.containerName == ContainerName(stackName)
    ensures t.service.taskImage.environment == ContainerEnvironment(opts, runtime)
    ensures t.service.securityGroups == SecurityGroups(opts)
    ensures t.build == CreateBuildToEcr(stackName, env, opts, buildBucket, additionalFilesBucket, t.service.id)
  {
    var cluster := Cluster(stackName + "Cluster", VpcLookup("ClusterVpc", opts.vpcId));
    var repository := RepositoryLookup(stackName + "ImageRepository", opts.ecrRepositoryName);
    var image := TaskImage(repository, "latest", ContainerName(stackName), 443, true,
                           ContainerEnvironment(opts, runtime));
    var zone := ZoneLookup("LookupZoneECS", GetBaseDomain(opts.domainName));
    var service := Service(
      ServiceId(stackName), cluster, opts.ecsCpu, opts.domainName, zone, 443, Https,
      CertificateRef(stackName + "Cert", opts.certificateArn),
      opts.ecsDesiredCount, opts.ecsMemoryLimit, true, SecurityGroups(opts), image,
      ServiceHealthCheck,
      TaskRolePolicies(stackName, opts),
      [EcrExecutionPolicy()]);
    EcsTopology(service, CreateBuildToEcr(stackName, env, opts, buildBucket, additionalFilesBucket, service.id))
  }

  // ---------------------------------------------------------------------------
  // Properties linking the service and its pipelines

  /** The name in the command text that writes `imagedefinitions.json` is the service's own container name. */
  lemma ImageDefinitionsNameTheServiceContainer(stackName: string, env: StackEnvironment, opts: DeploymentOptions,
                                                runtime: RuntimeOptions, buildBucket: BucketRef,
                                                additionalFilesBucket: Option<BucketRef>)
    ensures var t := CreateEcs(stackName, env, opts, runtime, buildBucket, additionalFilesBucket);
            var post := t.build.project.buildSpec.phases[2].commands;
            |post| > 0 && ImageDefinitionsName(CommandText(post[|post| - 1])) == Some(t.service.taskImage.containerName)
  {
    BuildSpecNamesContainer(ContainerName(stackName));
  }

  /**
   The deploy pipeline rolls out to this service, and the service is created only after the
   build pipeline exists.
   */
  lemma DeployTargetsService(stackName: string, env: StackEnvironment, opts: DeploymentOptions,
                             runtime: RuntimeOptions, buildBucket: BucketRef,
                             additionalFilesBucket: Option<BucketRef>)
    ensures var t := CreateEcs(stackName, env, opts, runtime, buildBucket, additionalFilesBucket);
            var deploy := t.build.deployPipeline.stages[1].actions[0];
            && deploy.EcsDeploy? && deploy.serviceId == t.service.id
            && Dependency(t.service.id, t.build.buildPipeline.id) in t.build.dependencies
  {
    var t := CreateEcs(stackName, env, opts, runtime, buildBucket, additionalFilesBucket);
    ArtifactFlow(stackName, env, opts, buildBucket, additionalFilesBucket, t.service.id);
  }

  /** The service's domain is the looked-up zone itself or one label inside it. */
  lemma ServiceDomainInLookedUpZone(stackName: string, env: StackEnvironment, opts: DeploymentOptions,
                                    runtime: RuntimeOptions, buildBucket: BucketRef,
                                    additionalFilesBucket: Option<BucketRef>)
    ensures var s := CreateEcs(stackName, env, opts, runtime, buildBucket, additionalFilesBucket).service;
            var zone := s.domainZone.domainName;
            || s.domainName == zone
            || (IsSuffix("." + zone, s.domainName) && '.' !in s.domainName[..|s.domainName| - |zone| - 1])
  {
    ServiceDomainInsideZone(opts.domainName);
  }

  /** Options left at their defaults grant the task role nothing and switch AppConfig off. */
  lemma DefaultOptionsGrantNothing(stackName: string, runtime: RuntimeOptions, domainName: string,
                                   certificateArn: string, vpcId: string, gitHubRepository: string,
                                   gitHubBranch: string, gitHubConnectionArn: string, ecrRepositoryName: string)
    ensures var opts := DefaultOptions(domainName, certificateArn, vpcId, gitHubRepository, gitHubBranch,
                                       gitHubConnectionArn, ecrRepositoryName);
            && TaskRolePolicies(stackName, opts) == []
            && ContainerEnvironment(opts, runtime)[AppConfigEnabledKey] == Some("False")
            && SecurityGroups(opts) == None
  {
    var opts := DefaultOptions(domainName, certificateArn, vpcId, gitHubRepository, gitHubBranch,
                               gitHubConnectionArn, ecrRepositoryName);
    TaskPolicyCount(stackName, opts);
  }
}
