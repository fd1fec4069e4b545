/**
 The build-to-ECR part of the stack: the image repository, the CodeBuild project with its
 buildspec, the build pipeline (Source -> Build -> CopyZipToS3), the deploy pipeline
 (Source -> Deploy) and the creation-order dependencies between them and the service.
 */
module Pipelines {
  import opened Wrappers
  import opened Text
  import opened Naming
  import opened Options
  import opened Policies

  /** A bucket: the stack's own build bucket, or an existing bucket imported by name. */
  datatype BucketRef =
    | OwnedBucket(id: string, destroyOnRemoval: bool, autoDeleteObjects: bool, versioned: bool)
    | ImportedBucket(id: string, bucketName: string)

  /** A pipeline artifact, identified by its name within one pipeline. */
  datatype Artifact = Artifact(name: string)

  datatype S3Trigger = Poll | Events

  /** The pipeline actions the stack uses. */
  datatype Action =
    | CodeStarSource(actionName: string, connectionArn: string, owner: string, repo: string,
                     branch: string, triggerOnPush: bool, output: Artifact)
    | S3Source(actionName: string, bucket: BucketRef, bucketKey: Option<string>, trigger: S3Trigger,
               output: Artifact)
    | CodeBuild(actionName: string, projectName: string, input: Artifact,
                extraInputs: Option<seq<Artifact>>, outputs: seq<Artifact>)
    | S3Deploy(actionName: string, bucket: BucketRef, input: Artifact, extract: bool, objectKey: string)
    | EcsDeploy(actionName: string, serviceId: string, input: Artifact)

  datatype Stage = Stage(stageName: string, actions: seq<Action>)

  datatype Pipeline = Pipeline(id: string, pipelineName: string, artifactBucket: BucketRef, stages: seq<Stage>)

  /** `dependent` may only be created once `dependency` exists (a construct-node dependency). */
  datatype Dependency = Dependency(dependent: string, dependency: string)

  /**
   The buildspec's shell commands, named by what they do; `CommandText` gives the exact line
   each one stands for. Only the last one depends on the stack: it names the container.
   */
  datatype Command =
    | EchoLoggingIn | EchoRegion | EchoAccount | EchoRepositoryName | EchoImageTag | EcrLogin
    | SetRepositoryUri | EchoRepositoryUri | EchoConfigDirectory | CopyConfig
    | EchoBuildStarted | EchoBuilding | DockerBuild | DockerTag
    | EchoBuildCompleted | EchoPushing | DockerPush | EchoWriting
    | WriteImageDefinitions(containerName: string)

  datatype Phase = Phase(name: string, commands: seq<Command>)

  datatype BuildSpec = BuildSpec(version: string, phases: seq<Phase>, artifactFiles: string)

  datatype GitHubSource = GitHubSource(owner: string, repo: string, branchOrRef: string, webhook: bool)

  datatype Repository = Repository(id: string, repositoryName: string)

  /** The CodeBuild project that builds and pushes the image and writes `imagedefinitions.json`. */
  datatype Project = Project(
    id: string,
    projectName: string,
    source: GitHubSource,
    privileged: bool,
    buildImage: string,
    environmentVariables: map<string, string>,
    buildSpec: BuildSpec,
    artifactsBucket: BucketRef,
    includeBuildId: bool,
    packageZip: bool,
    rolePolicy: seq<Statement>)

  datatype BuildTopology = BuildTopology(
    repository: Repository,
    project: Project,
    buildPipeline: Pipeline,
    deployPipeline: Pipeline,
    dependencies: seq<Dependency>)

  // ---------------------------------------------------------------------------
  // Artifact wiring

  /** The artifacts an action reads. */
  function Inputs(a: Action): seq<Artifact>
  {
    match a
    case CodeStarSource(_, _, _, _, _, _, _) => []
    case S3Source(_, _, _, _, _) => []
    case CodeBuild(_, _, input, extra, _) => [input] + extra.GetOr([])
    case S3Deploy(_, _, input, _, _) => [input]
    case EcsDeploy(_, _, input) => [input]
  }

  /** The artifacts an action writes. */
  function Outputs(a: Action): seq<Artifact>
  {
    match a
    case CodeStarSource(_, _, _, _, _, _, output) => [output]
    case S3Source(_, _, _, _, output) => [output]
    case CodeBuild(_, _, _, _, outputs) => outputs
    case S3Deploy(_, _, _, _, _) => []
    case EcsDeploy(_, _, _) => []
  }

  /** Some action of a stage before stage `i` writes `x`. */
  predicate ProducedBefore(p: Pipeline, i: int, x: Artifact)
  {
    exists j :: 0 <= j < i && j < |p.stages| && exists a :: a in p.stages[j].actions && x in Outputs(a)
  }

  /** Every artifact an action reads is written by an action of an earlier stage of the same pipeline. */
  predicate WellWired(p: Pipeline)
  {
    forall i :: 0 <= i < |p.stages| ==>
      forall a :: a in p.stages[i].actions ==>
        forall x :: x in Inputs(a) ==> ProducedBefore(p, i, x)
  }

  /** All artifacts written in a list of actions, in order. */
  function ActionOutputs(actions: seq<Action>): seq<Artifact>
  {
    if actions == [] then [] else Outputs(actions[0]) + ActionOutputs(actions[1..])
  }

  /** All artifacts written in a list of stages, in order. */
  function StageOutputs(stages: seq<Stage>): seq<Artifact>
  {
    if stages == [] then [] else ActionOutputs(stages[0].actions) + StageOutputs(stages[1..])
  }

  /** Each artifact name of the pipeline is written by exactly one action. */
  predicate WriteOnce(p: Pipeline)
  {
    var outs := StageOutputs(p.stages);
    forall i, j :: 0 <= i < j < |outs| ==> outs[i].name != outs[j].name
  }

  function StageNames(p: Pipeline): seq<string>
  {
    seq(|p.stages|, i requires 0 <= i < |p.stages| => p.stages[i].stageName)
  }

  // ---------------------------------------------------------------------------
  // Buildspec

  /** The shell line each buildspec command stands for. */
  function CommandText(c: Command): string
  {
    match c
    case EchoLoggingIn => "echo Logging in to Amazon ECR..."
    case EchoRegion => "echo $AWS_DEFAULT_REGION"
    case EchoAccount => "echo $AWS_ACCOUNT_ID"
    case EchoRepositoryName => "echo $IMAGE_REPO_NAME"
    case EchoImageTag => "echo $IMAGE_TAG"
    case EcrLogin => "aws ecr get-login-password --region $AWS_DEFAULT_REGION | docker login --username AWS --password-stdin $AWS_ACCOUNT_ID.dkr.ecr.$AWS_DEFAULT_REGION.amazonaws.com"
    case SetRepositoryUri => "REPOSITORY_URI=$AWS_ACCOUNT_ID.dkr.ecr.$AWS_DEFAULT_REGION.amazonaws.com/$IMAGE_REPO_NAME"
    case EchoRepositoryUri => "echo $REPOSITORY_URI"
    case EchoConfigDirectory => "echo $CODEBUILD_SRC_DIR_ConfigArtifact"
    case CopyConfig => "cp $CODEBUILD_SRC_DIR_ConfigArtifact/*.* ."
    case EchoBuildStarted => "echo Build started on `date`"
    case EchoBuilding => "echo Building the Docker image...  "
    case DockerBuild => "docker build -t $IMAGE_REPO_NAME:$IMAGE_TAG ."
    case DockerTag => "docker tag $IMAGE_REPO_NAME:$IMAGE_TAG $AWS_ACCOUNT_ID.dkr.ecr.$AWS_DEFAULT_REGION.amazonaws.com/$IMAGE_REPO_NAME:$IMAGE_TAG "
    case EchoBuildCompleted => "echo Build completed on `date`"
    case EchoPushing => "echo Pushing the Docker image..."
    case DockerPush => "docker push $AWS_ACCOUNT_ID.dkr.ecr.$AWS_DEFAULT_REGION.amazonaws.com/$IMAGE_REPO_NAME:$IMAGE_TAG"
    case EchoWriting => "echo Writing image definitions file..."
    case WriteImageDefinitions(containerName) => ImageDefinitionsCommand(containerName)
  }

  const PreBuildCommands: seq<Command> := [
    EchoLoggingIn, EchoRegion, EchoAccount, EchoRepositoryName, EchoImageTag, EcrLogin,
    SetRepositoryUri, EchoRepositoryUri, EchoConfigDirectory, CopyConfig]

  const BuildCommands: seq<Command> := [EchoBuildStarted, EchoBuilding, DockerBuild, DockerTag]

  function PostBuildCommands(containerName: string): seq<Command>
  {
    [EchoBuildCompleted, EchoPushing, DockerPush, EchoWriting, WriteImageDefinitions(containerName)]
  }

  /** The text of the image-definitions command before and after the container name. */
  const ImageDefinitionsHead := "printf '[{\"name\":\""
  const ImageDefinitionsTail := "\",\"imageUri\":\"%s\", \"current\": \"%s\"}]' $AWS_ACCOUNT_ID.dkr.ecr.$AWS_DEFAULT_REGION.amazonaws.com/$IMAGE_REPO_NAME:$IMAGE_TAG \"$(date)\" > imagedefinitions.json"

  /** The command that writes `imagedefinitions.json` naming `containerName`. */
  function ImageDefinitionsCommand(containerName: string): (r: string)
    ensures IsPrefix(ImageDefinitionsHead, r) && IsSuffix(ImageDefinitionsTail, r)
    ensures |r| == |ImageDefinitionsHead| + |containerName| + |ImageDefinitionsTail|
    ensures r[|ImageDefinitionsHead|..|r| - |ImageDefinitionsTail|] == containerName
  {
    ImageDefinitionsHead + containerName + ImageDefinitionsTail
  }

  /**
   The container name held in the text of an image-definitions command: the part between the
   fixed head and tail of the `printf` line. This reads the command text, not the file that
   `printf` writes; printf escapes and shell quoting are not modelled.
   */
  function ImageDefinitionsName(command: string): (r: Option<string>)
    ensures r.Some? ==> ImageDefinitionsCommand(r.value) == command
  {
    var h := |ImageDefinitionsHead|;
    var t := |ImageDefinitionsTail|;
    if |command| >= h + t && IsPrefix(ImageDefinitionsHead, command)
       && IsSuffix(ImageDefinitionsTail, command)
    then
      var name := command[h..|command| - t];
      assert command == command[..h] + name + command[|command| - t..];
      Some(name)
    else None
  }

  /** The deploy side reads back exactly the container name the build wrote. */
  lemma ImageDefinitionsRoundTrip(containerName: string)
    ensures ImageDefinitionsName(ImageDefinitionsCommand(containerName)) == Some(containerName)
  {
    var c := ImageDefinitionsCommand(containerName);
    var h := |ImageDefinitionsHead|;
    assert c[..h] == ImageDefinitionsHead;
    assert c[|c| - |ImageDefinitionsTail|..] == ImageDefinitionsTail;
    assert c[h..|c| - |ImageDefinitionsTail|] == containerName;
  }

  /** The buildspec: log in, build and tag, push, then write the image definitions. */
  function CreateBuildSpec(containerName: string): (spec: BuildSpec)
    ensures |spec.phases| == 3
    ensures spec.phases[0].name == "pre_build" && spec.phases[1].name == "build"
            && spec.phases[2].name == "post_build"
    ensures spec.artifactFiles == "imagedefinitions.json"
    ensures var post := spec.phases[2].commands;
            |post| > 0 && post[|post| - 1] == WriteImageDefinitions(containerName)
  {
    BuildSpec("0.2",
      [Phase("pre_build", PreBuildCommands),
       Phase("build", BuildCommands),
       Phase("post_build", PostBuildCommands(containerName))],
      "imagedefinitions.json")
  }

  /** The text of the buildspec's last line names `containerName`. */
  lemma BuildSpecNamesContainer(containerName: string)
    ensures var post := CreateBuildSpec(containerName).phases[2].commands;
            |post| > 0 && ImageDefinitionsName(CommandText(post[|post| - 1])) == Some(containerName)
  {
    ImageDefinitionsRoundTrip(containerName);
  }

  /** The commands of all phases, in execution order. */
  function Commands(phases: seq<Phase>): seq<Command>
  {
    if phases == [] then [] else phases[0].commands + Commands(phases[1..])
  }

  /** The extra input's files are copied into the build context before the image is built. */
  lemma CopyPrecedesDockerBuild(containerName: string)
    ensures var cmds := Commands(CreateBuildSpec(containerName).phases);
            && (exists j :: 0 <= j < |cmds| && cmds[j] == DockerBuild)
            && (forall j :: 0 <= j < |cmds| && cmds[j] == DockerBuild ==>
                  exists i :: 0 <= i < j && cmds[i] == CopyConfig)
  {
    var phases := CreateBuildSpec(containerName).phases;
    assert phases[1..][1..][1..] == [];
    assert Commands(phases[1..][1..]) == PostBuildCommands(containerName) + [];
    assert Commands(phases[1..]) == BuildCommands + Commands(phases[1..][1..]);
    assert Commands(phases) == PreBuildCommands + Commands(phases[1..]);
    var cmds := Commands(phases);
    assert cmds == PreBuildCommands + BuildCommands + PostBuildCommands(containerName);
    assert cmds[9] == CopyConfig;
    assert cmds[12] == DockerBuild;
  }

  /** The statement added to the project's role so it can push images. */
  function EcrPushStatement(): (s: Statement)
    ensures s.effect == Allow && s.resources == ["*"]
    ensures |s.actions| == 6 && forall i :: 0 <= i < |s.actions| ==> IsPrefix("ecr:", s.actions[i])
    ensures "ecr:GetAuthorizationToken" in s.actions && "ecr:PutImage" in s.actions
            && "ecr:UploadLayerPart" in s.actions
  {
    Statement(Allow,
      ["ecr:BatchCheckLayerAvailability", "ecr:CompleteLayerUpload", "ecr:GetAuthorizationToken",
       "ecr:InitiateLayerUpload", "ecr:PutImage", "ecr:UploadLayerPart"],
      ["*"])
  }

  const ImageTag := "latest"

  /** The image repository the build pushes to. */
  function CreateRepository(stackName: string): (r: Repository)
    ensures r.repositoryName == r.id
    ensures IsPrefix(stackName, r.id) && IsSuffix("Repository", r.id) && |r.id| == |stackName| + 10
  {
    Repository(stackName + "Repository", stackName + "Repository")
  }

  /** The CodeBuild project of the stack. */
  function CreateProject(stackName: string, env: StackEnvironment, opts: DeploymentOptions,
                         buildBucket: BucketRef, repository: Repository): (p: Project)
    ensures p.id == p.projectName == MakeId(stackName, stackName + "BuildToECR")
    ensures p.source == GitHubSource(RepositoryOwner(opts.gitHubRepository),
                                     RepositoryName(opts.gitHubRepository), opts.gitHubBranch, false)
    ensures p.environmentVariables.Keys == {"AWS_DEFAULT_REGION", "AWS_ACCOUNT_ID", "IMAGE_REPO_NAME", "IMAGE_TAG"}
    ensures p.environmentVariables["IMAGE_REPO_NAME"] == repository.repositoryName
    ensures p.environmentVariables["IMAGE_TAG"] == ImageTag
    ensures p.environmentVariables["AWS_DEFAULT_REGION"] == env.region
    ensures p.environmentVariables["AWS_ACCOUNT_ID"] == env.account
    ensures p.buildSpec == CreateBuildSpec(ContainerName(stackName))
    ensures p.rolePolicy == [EcrPushStatement()]
  {
    var id := MakeId(stackName, stackName + "BuildToECR");
    var variables := map["AWS_DEFAULT_REGION" := env.region,
                         "AWS_ACCOUNT_ID" := env.account,
                         "IMAGE_REPO_NAME" := repository.repositoryName,
                         "IMAGE_TAG" := ImageTag];
    assert variables.Keys == {"AWS_DEFAULT_REGION", "AWS_ACCOUNT_ID", "IMAGE_REPO_NAME", "IMAGE_TAG"};
    Project(
      id, id,
      GitHubSource(RepositoryOwner(opts.gitHubRepository), RepositoryName(opts.gitHubRepository),
                   opts.gitHubBranch, false),
      true,
      "STANDARD_4_0",
      variables,
      CreateBuildSpec(ContainerName(stackName)),
      buildBucket, false, true,
      [EcrPushStatement()])
  }

  // ---------------------------------------------------------------------------
  // The two pipelines

  const SourceArtifact := Artifact("SourceArtifact")
  const ConfigArtifact := Artifact("ConfigArtifact")
  const BuildArtifact := Artifact("BuildArtifact")

  /** The GitHub source action of the build pipeline. */
  function GitHubSourceAction(opts: DeploymentOptions): (a: Action)
    ensures a.CodeStarSource? && a.actionName == "Source"
    ensures a.connectionArn == opts.gitHubConnectionArn && a.branch == opts.gitHubBranch
            && a.triggerOnPush == opts.triggerOnPush
    ensures a.owner == RepositoryOwner(opts.gitHubRepository) && a.repo == RepositoryName(opts.gitHubRepository)
    ensures '/' !in a.owner && '/' !in a.repo
    ensures Inputs(a) == [] && Outputs(a) == [SourceArtifact]
  {
    CodeStarSource("Source", opts.gitHubConnectionArn, RepositoryOwner(opts.gitHubRepository),
                   RepositoryName(opts.gitHubRepository), opts.gitHubBranch, opts.triggerOnPush,
                   SourceArtifact)
  }

  /** The source action for the additional-files bucket. */
  function AdditionalFilesAction(opts: DeploymentOptions, bucket: BucketRef): (a: Action)
    ensures a.S3Source? && a.actionName == "AdditionalFiles"
    ensures a.bucket == bucket && a.bucketKey == opts.additionalFilesZipName && a.trigger == Events
    ensures Inputs(a) == [] && Outputs(a) == [ConfigArtifact]
  {
    S3Source("AdditionalFiles", bucket, opts.additionalFilesZipName, Events, ConfigArtifact)
  }

  /**
   The build pipeline's Source stage: the GitHub action, followed by the additional-files
   action when an additional-files bucket is configured.
   */
  function SourceStage(opts: DeploymentOptions, additionalFilesBucket: Option<BucketRef>): (s: Stage)
    ensures s.stageName == "Source"
    ensures additionalFilesBucket.None? ==> s.actions == [GitHubSourceAction(opts)]
    ensures additionalFilesBucket.Some? ==>
              s.actions == [GitHubSourceAction(opts), AdditionalFilesAction(opts, additionalFilesBucket.value)]
  {
    var actions := [GitHubSourceAction(opts)];
    match additionalFilesBucket
    case None => Stage("Source", actions)
    case Some(bucket) => Stage("Source", actions + [AdditionalFilesAction(opts, bucket)])
  }

  /** The build action's extra inputs: the config artifact when an additional-files bucket exists. */
  function ExtraInputs(additionalFilesBucket: Option<BucketRef>): (r: Option<seq<Artifact>>)
    ensures r.Some? <==> additionalFilesBucket.Some?
    ensures r.Some? ==> r.value == [ConfigArtifact]
  {
    if additionalFilesBucket.Some? then Some([ConfigArtifact]) else None
  }

  /** Source -> Build -> CopyZipToS3, publishing the image definitions to the well-known key. */
  function CreateBuildPipeline(stackName: string, opts: DeploymentOptions, buildBucket: BucketRef,
                               additionalFilesBucket: Option<BucketRef>, projectName: string): (p: Pipeline)
    ensures p.id == stackName + "ECR" && p.pipelineName == stackName + "-Image-To-ECR"
    ensures p.artifactBucket == buildBucket
    ensures |p.stages| == 3 && p.stages[0].stageName == "Source" && p.stages[1].stageName == "Build"
            && p.stages[2].stageName == "CopyZipToS3"
    ensures PublishedKey(p) == Some(EcrImageDefinitionsZip(stackName))
            && p.stages[2].actions[0].bucket == buildBucket
  {
    Pipeline(stackName + "ECR", stackName + "-Image-To-ECR", buildBucket,
      [SourceStage(opts, additionalFilesBucket),
       Stage("Build", [CodeBuild("Build", projectName, SourceArtifact, ExtraInputs(additionalFilesBucket),
                                 [BuildArtifact])]),
       Stage("CopyZipToS3", [S3Deploy("CopyZipToS3", buildBucket, BuildArtifact, false,
                                      EcrImageDefinitionsZip(stackName))])])
  }

  /** Source (polling the published key) -> Deploy (to the service). */
  function CreateDeployPipeline(stackName: string, buildBucket: BucketRef, serviceId: string): (p: Pipeline)
    ensures p.id == stackName + "ECS" && p.pipelineName == stackName + "-DeployTo-ECS"
    ensures p.artifactBucket == buildBucket
    ensures |p.stages| == 2 && p.stages[0].stageName == "Source" && p.stages[1].stageName == "Deploy"
    ensures PolledKey(p) == Some(EcrImageDefinitionsZip(stackName))
            && p.stages[0].actions[0].bucket == buildBucket && p.stages[0].actions[0].trigger == Poll
    ensures |p.stages[1].actions| == 1 && p.stages[1].actions[0].EcsDeploy?
            && p.stages[1].actions[0].serviceId == serviceId
            && p.stages[1].actions[0].input == p.stages[0].actions[0].output
  {
    var deployArtifact := Artifact("BuildArtifact");
    Pipeline(stackName + "ECS", stackName + "-DeployTo-ECS", buildBucket,
      [Stage("Source", [S3Source("SourceImageDefinition", buildBucket, Some(EcrImageDefinitionsZip(stackName)),
                                 Poll, deployArtifact)]),
       Stage("Deploy", [EcsDeploy("Deploy", serviceId, deployArtifact)])])
  }

  /** The object key the build pipeline's last stage writes. */
  function PublishedKey(p: Pipeline): Option<string>
  {
    if |p.stages| == 3 && |p.stages[2].actions| == 1 && p.stages[2].actions[0].S3Deploy?
    then Some(p.stages[2].actions[0].objectKey)
    else None
  }

  /** The object key the deploy pipeline's source polls. */
  function PolledKey(p: Pipeline): Option<string>
  {
    if |p.stages| >= 1 && |p.stages[0].actions| == 1 && p.stages[0].actions[0].S3Source?
    then p.stages[0].actions[0].bucketKey
    else None
  }

  /** Everything `CreateBuildToEcr` builds for the service `serviceId`. */
  function CreateBuildToEcr(stackName: string, env: StackEnvironment, opts: DeploymentOptions,
                            buildBucket: BucketRef, additionalFilesBucket: Option<BucketRef>,
                            serviceId: string): (t: BuildTopology)
    ensures var stages := t.buildPipeline.stages;
            && |stages| == 3 && |stages[1].actions| == 1 && stages[1].actions[0].CodeBuild?
            && stages[1].actions[0].projectName == t.project.projectName
    ensures "IMAGE_REPO_NAME" in t.project.environmentVariables
            && t.project.environmentVariables["IMAGE_REPO_NAME"] == t.repository.repositoryName
    ensures t.dependencies == [Dependency(serviceId, t.buildPipeline.id),
                               Dependency(t.deployPipeline.id, t.buildPipeline.id)]
    ensures t.buildPipeline.id == stackName + "ECR" && t.deployPipeline.id == stackName + "ECS"
  {
    var repository := CreateRepository(stackName);
    var project := CreateProject(stackName, env, opts, buildBucket, repository);
    var build := CreateBuildPipeline(stackName, opts, buildBucket, additionalFilesBucket, project.projectName);
    var deploy := CreateDeployPipeline(stackName, buildBucket, serviceId);
    BuildTopology(repository, project, build, deploy,
      [Dependency(serviceId, build.id), Dependency(deploy.id, build.id)])
  }

  // ---------------------------------------------------------------------------
  // Properties of the two pipelines

  /** The stage lists of both pipelines, whatever the options. */
  lemma PipelineStages(stackName: string, env: StackEnvironment, opts: DeploymentOptions,
                       buildBucket: BucketRef, additionalFilesBucket: Option<BucketRef>, serviceId: string)
    ensures var t := CreateBuildToEcr(stackName, env, opts, buildBucket, additionalFilesBucket, serviceId);
            StageNames(t.buildPipeline) == ["Source", "Build", "CopyZipToS3"]
            && StageNames(t.deployPipeline) == ["Source", "Deploy"]
  {
    var t := CreateBuildToEcr(stackName, env, opts, buildBucket, additionalFilesBucket, serviceId);
    BuildStageNames(stackName, opts, buildBucket, additionalFilesBucket, t.project.projectName);
    DeployStageNames(stackName, buildBucket, serviceId);
  }

  /** Helper: the stage names of a pipeline, one per stage, in order. */
  lemma StageNamesOf(p: Pipeline)
    ensures |StageNames(p)| == |p.stages|
    ensures forall i :: 0 <= i < |p.stages| ==> StageNames(p)[i] == p.stages[i].stageName
  {
  }

  /** Helper: a three-stage pipeline's stage names are the names of its three stages. */
  lemma StageNamesOfThree(p: Pipeline, a: string, b: string, c: string)
    requires |p.stages| == 3 && p.stages[0].stageName == a && p.stages[1].stageName == b
             && p.stages[2].stageName == c
    ensures StageNames(p) == [a, b, c]
  {
    StageNamesOf(p);
  }

  /** The build pipeline's stages, in order. */
  lemma BuildStageNames(stackName: string, opts: DeploymentOptions, buildBucket: BucketRef,
                        additionalFilesBucket: Option<BucketRef>, projectName: string)
    ensures StageNames(CreateBuildPipeline(stackName, opts, buildBucket, additionalFilesBucket, projectName))
            == ["Source", "Build", "CopyZipToS3"]
  {
    var p := CreateBuildPipeline(stackName, opts, buildBucket, additionalFilesBucket, projectName);
    StageNamesOfThree(p, "Source", "Build", "CopyZipToS3");
  }

  /** The deploy pipeline's stages, in order. */
  lemma DeployStageNames(stackName: string, buildBucket: BucketRef, serviceId: string)
    ensures StageNames(CreateDeployPipeline(stackName, buildBucket, serviceId)) == ["Source", "Deploy"]
  {
    var p := CreateDeployPipeline(stackName, buildBucket, serviceId);
    StageNamesOf(p);
  }

  /**
   The object the deploy pipeline polls is the object the build pipeline publishes: the same
   key in the same bucket, the stack's build bucket.
   */
  lemma PublishedKeyIsPolled(stackName: string, env: StackEnvironment, opts: DeploymentOptions,
                             buildBucket: BucketRef, additionalFilesBucket: Option<BucketRef>, serviceId: string)
    ensures var t := CreateBuildToEcr(stackName, env, opts, buildBucket, additionalFilesBucket, serviceId);
            PublishedKey(t.buildPipeline) == PolledKey(t.deployPipeline) == Some(EcrImageDefinitionsZip(stackName))
    ensures var t := CreateBuildToEcr(stackName, env, opts, buildBucket, additionalFilesBucket, serviceId);
            var publish := t.buildPipeline.stages[2].actions[0];
            var poll := t.deployPipeline.stages[0].actions[0];
            publish.S3Deploy? && poll.S3Source? && publish.bucket == poll.bucket == buildBucket
  {
  }

  /** The build pipeline reads only artifacts written in an earlier stage. */
  lemma BuildPipelineWellWired(stackName: string, opts: DeploymentOptions, buildBucket: BucketRef,
                               additionalFilesBucket: Option<BucketRef>, projectName: string)
    ensures WellWired(CreateBuildPipeline(stackName, opts, buildBucket, additionalFilesBucket, projectName))
  {
    var b := CreateBuildPipeline(stackName, opts, buildBucket, additionalFilesBucket, projectName);
    assert SourceArtifact in Outputs(b.stages[0].actions[0]);
    if additionalFilesBucket.Some? {
      assert ConfigArtifact in Outputs(b.stages[0].actions[1]);
    }
    assert BuildArtifact in Outputs(b.stages[1].actions[0]);
    forall i, a, x | 0 <= i < |b.stages| && a in b.stages[i].actions && x in Inputs(a)
      ensures ProducedBefore(b, i, x)
    {
      if i == 1 {
        assert a == b.stages[1].actions[0];
      } else if i == 2 {
        assert a == b.stages[2].actions[0];
      }
    }
  }

  /** Distinct names for the artifacts of a pipeline make it write-once. */
  lemma WriteOnceFromOutputs(p: Pipeline, outs: seq<Artifact>)
    requires StageOutputs(p.stages) == outs
    requires outs == [SourceArtifact, BuildArtifact] || outs == [SourceArtifact, ConfigArtifact, BuildArtifact]
    ensures WriteOnce(p)
  {
  }

  /** A pipeline of three stages writes what its three stages write, in order. */
  lemma StageOutputsOfThree(s0: Stage, s1: Stage, s2: Stage)
    ensures StageOutputs([s0, s1, s2])
              == ActionOutputs(s0.actions) + ActionOutputs(s1.actions) + ActionOutputs(s2.actions)
  {
    assert [s0, s1, s2][1..] == [s1, s2];
    assert [s1, s2][1..] == [s2];
    assert [s2][1..] == [];
    assert StageOutputs([s2]) == ActionOutputs(s2.actions) + [];
    assert StageOutputs([s1, s2]) == ActionOutputs(s1.actions) + ActionOutputs(s2.actions);
  }

  /** The Source stage writes the source artifact, then the config artifact when a bucket exists. */
  lemma SourceStageOutputs(opts: DeploymentOptions, additionalFilesBucket: Option<BucketRef>)
    ensures ActionOutputs(SourceStage(opts, additionalFilesBucket).actions)
              == if additionalFilesBucket.Some? then [SourceArtifact, ConfigArtifact] else [SourceArtifact]
  {
    var actions := SourceStage(opts, additionalFilesBucket).actions;
    assert Outputs(actions[0]) == [SourceArtifact];
    if additionalFilesBucket.Some? {
      assert actions[1..][1..] == [];
      assert Outputs(actions[1]) == [ConfigArtifact];
      assert ActionOutputs(actions[1..]) == [ConfigArtifact];
    } else {
      assert actions[1..] == [];
    }
  }

  /** The outputs of the build pipeline's stages, in order. */
  lemma BuildPipelineOutputs(stackName: string, opts: DeploymentOptions, buildBucket: BucketRef,
                             additionalFilesBucket: Option<BucketRef>, projectName: string)
    ensures var b := CreateBuildPipeline(stackName, opts, buildBucket, additionalFilesBucket, projectName);
            StageOutputs(b.stages)
              == if additionalFilesBucket.Some? then [SourceArtifact, ConfigArtifact, BuildArtifact]
                 else [SourceArtifact, BuildArtifact]
  {
    var build := CodeBuild("Build", projectName, SourceArtifact, ExtraInputs(additionalFilesBucket), [BuildArtifact]);
    var copy := S3Deploy("CopyZipToS3", buildBucket, BuildArtifact, false, EcrImageDefinitionsZip(stackName));
    var s0, s1, s2 := SourceStage(opts, additionalFilesBucket), Stage("Build", [build]), Stage("CopyZipToS3", [copy]);
    assert CreateBuildPipeline(stackName, opts, buildBucket, additionalFilesBucket, projectName).stages
        == [s0, s1, s2];
    StageOutputsOfThree(s0, s1, s2);
    SourceStageOutputs(opts, additionalFilesBucket);
    SingleActionOutputs(build);
    SingleActionOutputs(copy);
  }

  /** A single action writes what its outputs say. */
  lemma SingleActionOutputs(a: Action)
    ensures ActionOutputs([a]) == Outputs(a)
  {
    assert [a][1..] == [];
  }

  /** The build pipeline writes each artifact name once. */
  lemma BuildPipelineWriteOnce(stackName: string, opts: DeploymentOptions, buildBucket: BucketRef,
                               additionalFilesBucket: Option<BucketRef>, projectName: string)
    ensures WriteOnce(CreateBuildPipeline(stackName, opts, buildBucket, additionalFilesBucket, projectName))
  {
    var b := CreateBuildPipeline(stackName, opts, buildBucket, additionalFilesBucket, projectName);
    BuildPipelineOutputs(stackName, opts, buildBucket, additionalFilesBucket, projectName);
    WriteOnceFromOutputs(b, StageOutputs(b.stages));
  }

  /** The deploy pipeline reads only the artifact its own source wrote, and writes it once. */
  lemma DeployPipelineWellWired(stackName: string, buildBucket: BucketRef, serviceId: string)
    ensures var d := CreateDeployPipeline(stackName, buildBucket, serviceId);
            WellWired(d) && WriteOnce(d)
  {
    var d := CreateDeployPipeline(stackName, buildBucket, serviceId);
    assert Artifact("BuildArtifact") in Outputs(d.stages[0].actions[0]);
    assert ProducedBefore(d, 1, Artifact("BuildArtifact"));
    forall i, a, x | 0 <= i < |d.stages| && a in d.stages[i].actions && x in Inputs(a)
      ensures ProducedBefore(d, i, x)
    {
      if i == 1 {
        assert a == d.stages[1].actions[0];
      }
    }
    assert d.stages[1..][1..] == [];
    assert d.stages[1].actions[1..] == [];
    assert ActionOutputs(d.stages[1].actions) == [];
    assert StageOutputs(d.stages[1..]) == [];
    assert d.stages[0].actions[1..] == [];
    assert ActionOutputs(d.stages[0].actions) == [Artifact("BuildArtifact")];
    assert StageOutputs(d.stages) == [Artifact("BuildArtifact")];
  }

  /**
   The additional-files bucket adds an action to the Source stage (it does not replace the
   GitHub action) and makes the config artifact an extra input of the build.
   */
  lemma AdditionalFilesWiring(stackName: string, env: StackEnvironment, opts: DeploymentOptions,
                              buildBucket: BucketRef, additionalFilesBucket: Option<BucketRef>, serviceId: string)
    ensures var t := CreateBuildToEcr(stackName, env, opts, buildBucket, additionalFilesBucket, serviceId);
            var sourceActions := t.buildPipeline.stages[0].actions;
            var build := t.buildPipeline.stages[1].actions[0];
            && |sourceActions| == (if additionalFilesBucket.Some? then 2 else 1)
            && sourceActions[0] == GitHubSourceAction(opts)
            && (additionalFilesBucket.None? ==> build.extraInputs.None?)
            && (additionalFilesBucket.Some? ==>
                  && sourceActions[1].actionName == "AdditionalFiles"
                  && sourceActions[1].output == ConfigArtifact
                  && sourceActions[1].trigger == Events
                  && sourceActions[1].bucket == additionalFilesBucket.value
                  && sourceActions[1].bucketKey == opts.additionalFilesZipName
                  && build.extraInputs == Some([ConfigArtifact]))
  {
  }

  /** The GitHub action passes the push trigger through and uses the same owner/repo as the project. */
  lemma SourceActionMatchesProject(stackName: string, env: StackEnvironment, opts: DeploymentOptions,
                                   buildBucket: BucketRef, additionalFilesBucket: Option<BucketRef>, serviceId: string)
    ensures var t := CreateBuildToEcr(stackName, env, opts, buildBucket, additionalFilesBucket, serviceId);
            var gh := t.buildPipeline.stages[0].actions[0];
            && gh.triggerOnPush == opts.triggerOnPush
            && gh.owner == t.project.source.owner && gh.repo == t.project.source.repo
            && gh.branch == t.project.source.branchOrRef == opts.gitHubBranch
  {
  }

  /**
   The build reads the source and writes the image definitions, the publish stage copies
   them unextracted, and the deploy action reads what its own polling source wrote.
   */
  lemma ArtifactFlow(stackName: string, env: StackEnvironment, opts: DeploymentOptions,
                     buildBucket: BucketRef, additionalFilesBucket: Option<BucketRef>, serviceId: string)
    ensures var t := CreateBuildToEcr(stackName, env, opts, buildBucket, additionalFilesBucket, serviceId);
            var build := t.buildPipeline.stages[1].actions[0];
            var publish := t.buildPipeline.stages[2].actions[0];
            var poll := t.deployPipeline.stages[0].actions[0];
            var deploy := t.deployPipeline.stages[1].actions[0];
            && build.input == SourceArtifact && build.outputs == [BuildArtifact]
            && publish.input == BuildArtifact && !publish.extract
            && poll.trigger == Poll && deploy.input == poll.output
            && deploy.EcsDeploy? && deploy.serviceId == serviceId
  {
  }

  /** Both dependency edges point at the build pipeline, from the service and from the deploy pipeline. */
  lemma DependenciesTargetBuildPipeline(stackName: string, env: StackEnvironment, opts: DeploymentOptions,
                                        buildBucket: BucketRef, additionalFilesBucket: Option<BucketRef>,
                                        serviceId: string)
    ensures var t := CreateBuildToEcr(stackName, env, opts, buildBucket, additionalFilesBucket, serviceId);
            && |t.dependencies| == 2
            && (forall e :: e in t.dependencies ==> e.dependency == t.buildPipeline.id)
            && (forall e :: e in t.dependencies ==> e.dependent in {serviceId, t.deployPipeline.id})
            && Dependency(serviceId, t.buildPipeline.id) in t.dependencies
            && Dependency(t.deployPipeline.id, t.buildPipeline.id) in t.dependencies
            && t.deployPipeline.id != t.buildPipeline.id
  {
    PipelineIdsDiffer(stackName);
  }

  /** Helper: the two pipeline ids of one stack differ in their last letter. */
  lemma PipelineIdsDiffer(stackName: string)
    ensures stackName + "ECS" != stackName + "ECR"
  {
    assert (stackName + "ECS")[|stackName| + 2] == 'S';
    assert (stackName + "ECR")[|stackName| + 2] == 'R';
  }
}
