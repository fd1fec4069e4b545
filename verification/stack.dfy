/**
 The stack entry point: refuse a missing stack name, name the stack, create the build
 bucket, import the additional-files bucket when one is configured, then build the service
 and its pipelines.
 */
module CdkStack {
  import opened Wrappers
  import opened Text
  import opened Naming
  import opened Options
  import opened Policies
  import opened Pipelines
  import opened Fargate

  /** The synthesised stack: its construct id, its CloudFormation name and everything in it. */
  datatype StackTopology = StackTopology(
    id: string,
    stackName: string,
    env: StackEnvironment,
    buildBucket: BucketRef,
    additionalFilesBucket: Option<BucketRef>,
    ecs: EcsTopology)

  const MissingStackName := "StackName must be provided"

  /** The stack's own versioned bucket, emptied and removed with the stack. */
  function BuildBucket(stackName: string): (b: BucketRef)
    ensures b.OwnedBucket? && b.id == stackName + "BuildBucket"
    ensures b.destroyOnRemoval && b.autoDeleteObjects && b.versioned
  {
    OwnedBucket(stackName + "BuildBucket", true, true, true)
  }

  /** The additional-files bucket is imported exactly when a certificate bucket name is configured. */
  function AdditionalFilesBucket(stackName: string, opts: DeploymentOptions): (r: Option<BucketRef>)
    ensures r.Some? <==> !IsNullOrEmpty(opts.certificateBucketName)
    ensures r.Some? ==> r.value == ImportedBucket(stackName + "CertificateBucket", opts.certificateBucketName.value)
  {
    if !IsNullOrEmpty(opts.certificateBucketName)
    then Some(ImportedBucket(stackName + "CertificateBucket", opts.certificateBucketName.value))
    else None
  }

  /** The stack's contents for a stack named `stackName`. */
  function CreateTemplate(stackName: string, env: StackEnvironment, opts: DeploymentOptions,
                          runtime: RuntimeOptions): (t: StackTopology)
    ensures t.id == stackName + "Stack" && t.stackName == stackName && t.env == env
    ensures t.buildBucket == BuildBucket(stackName)
    ensures t.additionalFilesBucket == AdditionalFilesBucket(stackName, opts)
    ensures t.ecs == CreateEcs(stackName, env, opts, runtime, t.buildBucket, t.additionalFilesBucket)
  {
    var buildBucket := BuildBucket(stackName);
    var additional := AdditionalFilesBucket(stackName, opts);
    StackTopology(stackName + "Stack", stackName, env, buildBucket, additional,
                  CreateEcs(stackName, env, opts, runtime, buildBucket, additional))
  }

  /**
   The whole synthesis: a null or empty stack name is refused before anything is built;
   any other name gives the stack `<name>Stack` named `<name>`.
   */
  function CreateStack(stackName: Option<string>, env: StackEnvironment, opts: DeploymentOptions,
                       runtime: RuntimeOptions): (r: Result<StackTopology>)
    ensures r.Err? <==> IsNullOrEmpty(stackName)
    ensures r.Err? ==> r.message == MissingStackName
    ensures r.Ok? ==> r.value.id == stackName.value + "Stack" && r.value.stackName == stackName.value
    ensures r.Ok? ==> r.value == CreateTemplate(stackName.value, env, opts, runtime)
  {
    if IsNullOrEmpty(stackName) then Err(MissingStackName)
    else Ok(CreateTemplate(stackName.value, env, opts, runtime))
  }

  /**
   The build pipeline's Source stage gains the AdditionalFiles action, and the build its
   extra input, exactly when a non-empty certificate bucket name is configured.
   */
  lemma AdditionalFilesIffCertificateBucket(stackName: string, env: StackEnvironment, opts: DeploymentOptions,
                                            runtime: RuntimeOptions)
    ensures var b := CreateTemplate(stackName, env, opts, runtime).ecs.build.buildPipeline;
            && (|b.stages[0].actions| == 2 <==> !IsNullOrEmpty(opts.certificateBucketName))
            && (b.stages[1].actions[0].extraInputs.Some? <==> !IsNullOrEmpty(opts.certificateBucketName))
  {
    var t := CreateTemplate(stackName, env, opts, runtime);
    AdditionalFilesWiring(stackName, env, opts, t.buildBucket, t.additionalFilesBucket, t.ecs.service.id);
  }

  /** Every topology piece is named after the stack: policies, service, pipelines, key and container. */
  lemma NamesDerivedFromStackName(stackName: string, env: StackEnvironment, opts: DeploymentOptions,
                                  runtime: RuntimeOptions)
    ensures var t := CreateTemplate(stackName, env, opts, runtime);
            && (forall p :: p in t.ecs.service.taskRolePolicies ==> IsPrefix(stackName + "-", p.id))
            && IsPrefix(stackName, t.ecs.service.id)
            && IsPrefix(stackName, t.ecs.build.buildPipeline.id)
            && IsPrefix(stackName, t.ecs.build.deployPipeline.id)
            && IsPrefix(stackName, t.ecs.service.taskImage.containerName)
            && PublishedKey(t.ecs.build.buildPipeline) == Some(EcrImageDefinitionsZip(stackName))
  {
    var t := CreateTemplate(stackName, env, opts, runtime);
    PublishedKeyIsPolled(stackName, env, opts, t.buildBucket, t.additionalFilesBucket, t.ecs.service.id);
  }

  /**
   With the stack name "LookupZone" the deploy pipeline's construct id equals the hosted-zone
   lookup's id, so that one stack name makes two constructs of the stack share an id.
   */
  lemma LookupZoneStackNameCollides(env: StackEnvironment, opts: DeploymentOptions, runtime: RuntimeOptions)
    ensures var t := CreateTemplate("LookupZone", env, opts, runtime);
            t.ecs.build.deployPipeline.id == t.ecs.service.domainZone.id
  {
    var t := CreateTemplate("LookupZone", env, opts, runtime);
    DeployPipelineId("LookupZone", env, opts, runtime);
    LookupZoneLiteral();
  }

  /** Helper for the lemma above: `LookupZone` followed by `ECS` spells the zone lookup's id. */
  lemma LookupZoneLiteral()
    ensures "LookupZone" + "ECS" == "LookupZoneECS"
  {
  }

  /** The deploy pipeline's id is the stack name followed by `ECS`; the zone lookup's id is fixed. */
  lemma DeployPipelineId(stackName: string, env: StackEnvironment, opts: DeploymentOptions, runtime: RuntimeOptions)
    ensures var t := CreateTemplate(stackName, env, opts, runtime);
            t.ecs.build.deployPipeline.id == stackName + "ECS" && t.ecs.service.domainZone.id == "LookupZoneECS"
  {
  }

  /** An example configuration: stack "orders", repository "acme/orders-svc", only parameter store granted. */
  function OrdersOptions(domainName: string, certificateArn: string, vpcId: string, connectionArn: string,
                         ecrRepositoryName: string): DeploymentOptions
  {
    DefaultOptions(domainName, certificateArn, vpcId, "acme/orders-svc", "main", connectionArn, ecrRepositoryName)
      .(parameterStoreResources := ["arn:aws:ssm:*:*:parameter/orders/*"])
  }

  /** In the example configuration the task role holds exactly the parameter-store policy. */
  lemma OrdersTaskRole(opts: DeploymentOptions)
    requires opts.parameterStoreResources != []
    requires opts.appConfigResources == [] && opts.sesResources == [] && opts.snsResources == []
    requires opts.cloudWatchResources == [] && opts.secretResources == [] && opts.eventBridgeResources == []
    ensures TaskRolePolicies("orders", opts) == [CreatePolicy("orders", Parameters, "Task", [])]
  {
    var ps := TaskRolePolicies("orders", opts);
    TaskPolicyCount("orders", opts);
    TaskPolicyPresentIff("orders", opts, Parameters);
    assert |ps| == 1;
  }

  /**
   The example configuration end to end: the stack is built, its task role holds exactly the
   parameter-store policy, the Source stage has only the GitHub action, the environment says
   UseAWS, and the repository splits into "acme" and "orders-svc".
   */
  lemma OrdersExample(env: StackEnvironment, runtime: RuntimeOptions, domainName: string,
                      certificateArn: string, vpcId: string, connectionArn: string, ecrRepositoryName: string)
    ensures var opts := OrdersOptions(domainName, certificateArn, vpcId, connectionArn, ecrRepositoryName);
            var r := CreateStack(Some("orders"), env, opts, runtime);
            && r.Ok?
            && r.value.ecs.service.taskRolePolicies == [CreatePolicy("orders", Parameters, "Task", [])]
            && StageNames(r.value.ecs.build.buildPipeline) == ["Source", "Build", "CopyZipToS3"]
            && |r.value.ecs.build.buildPipeline.stages[0].actions| == 1
            && r.value.ecs.service.taskImage.environment[UseAwsKey] == Some("true")
            && r.value.ecs.build.project.source.owner == "acme"
            && r.value.ecs.build.project.source.repo == "orders-svc"
  {
    var opts := OrdersOptions(domainName, certificateArn, vpcId, connectionArn, ecrRepositoryName);
    var r := CreateStack(Some("orders"), env, opts, runtime);
    var t := CreateTemplate("orders", env, opts, runtime);
    assert r.value == t;
    OrdersTaskRole(opts);
    assert t.ecs.service.taskRolePolicies == [CreatePolicy("orders", Parameters, "Task", [])];
    assert t.additionalFilesBucket == None;
    PipelineStages("orders", env, opts, t.buildBucket, t.additionalFilesBucket, t.ecs.service.id);
    AdditionalFilesWiring("orders", env, opts, t.buildBucket, t.additionalFilesBucket, t.ecs.service.id);
    assert |t.ecs.build.buildPipeline.stages[0].actions| == 1;
    assert t.ecs.service.taskImage.environment[UseAwsKey] == Some("true");
    OrdersRepositorySplit();
  }

  /** "acme/orders-svc" splits into owner "acme" and repository "orders-svc". */
  lemma OrdersRepositorySplit()
    ensures RepositoryOwner("acme/orders-svc") == "acme"
    ensures RepositoryName("acme/orders-svc") == "orders-svc"
  {
    var owner, name := "acme", "orders-svc";
    assert '/' !in owner;
    assert '/' !in name;
    OwnerRepoOfSlashed(owner, name);
    assert owner + "/" + name == "acme/orders-svc";
  }
}
