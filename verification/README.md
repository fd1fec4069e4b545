# Nuages ECS deployment stack — a Dafny model

Nuages.Deploy.Ecs.Cdk is an AWS CDK application. It turns a set of deployment options into
one CloudFormation stack. The stack holds a load-balanced Fargate service, the IAM policies
on the service's task and execution roles, a CodeBuild project that builds and pushes the
container image, a build pipeline (Source → Build → CopyZipToS3) and a deploy pipeline
(Source → Deploy) wired by a shared S3 object key.

The model replaces every CDK constructor call with plain data. It is a set of pure functions
from the options to a topology value made of records: policies, stages, actions, artifacts,
lookups and dependency edges. The lemmas state what the stack's decision and naming logic
guarantees.

| file | module | source it follows |
|---|---|---|
| `wrappers.dfy` | `Wrappers` | nullable strings (`Option`) and the thrown exception (`Result`) |
| `text.dfy` | `Text` | .NET `String.Split(char)` and its inverse |
| `options.dfy` | `Options` | `DeploymentOptions.cs`, `RuntimeOptions.cs` |
| `naming.dfy` | `Naming` | `GetBaseDomain`, `MakeId`, `ContainerName`, `EcrImageDefinitionsZip`, the owner/repo split |
| `policies.dfy` | `Policies` | `NuagesCdkStack_Policies.cs` and the execution role's `EcrPolicy` |
| `pipelines.dfy` | `Pipelines` | `NuagesCdkStack_BuildToImageOnECR.cs` |
| `fargate.dfy` | `Fargate` | `NuagesCdkStack_DeployTo_ECS_Fargate.cs` |
| `stack.dfy` | `CdkStack` | `NuagesCdkStack.cs` (`CreateStack`, `CreateTemplate`) |

The stack reads `DeploymentOptions.EcrRepositoryName` and `DeploymentOptions.AdditionalFilesZipName`,
but `DeploymentOptions.cs` does not declare them. The model adds both fields to the options
record. `EcrRepositoryName` is a string. `AdditionalFilesZipName` is an `Option` string, which
is the model's own choice. The stack passes it to the additional-files action with the
null-forgiving `!`, which neither dereferences nor checks it, so the key may be null; the
model keeps it as an `Option`.

Facts about the code that the model keeps as they are:
- The repository string, the bucket/key pairing and the capacity values are not validated. The owner and repo are `Split("/").First()` and `.Last()`.
- A certificate bucket adds a second action to the existing Source stage. The build pipeline always has three stages.
- The published key is the literal `ecr/<stack>/imagedefinitions.zip`.
- There are seven resource arrays. Every factory except AppConfig grants its actions on `*`, whatever the array holds.
- The fixed environment key is `Nuages__UseAWS`.
- The deploy pipeline's artifact is named `BuildArtifact`, the same name as the build pipeline's output, inside a different pipeline.
- The execution role's policy id is the bare `EcrPolicy`, with no stack prefix.
- The stack does not check construct ids for duplicates.

## Model

| member | source | states |
|---|---|---|
| Text.Split | src/Nuages.Deploy.Ecs.Cdk/Stack/NuagesCdkStack.cs:74 | `Split(c)` keeps empty segments: it returns one more segment than there are separators, and no segment contains the separator |
| Text.JoinSplit | src/Nuages.Deploy.Ecs.Cdk/Stack/NuagesCdkStack.cs:74 | joining the segments of a split with the separator gives back the original string |
| Text.SplitJoin | src/Nuages.Deploy.Ecs.Cdk/Stack/NuagesCdkStack_BuildToImageOnECR.cs:172 | splitting a join of separator-free segments gives back the segments |
| Naming.GetBaseDomain | src/Nuages.Deploy.Ecs.Cdk/Stack/NuagesCdkStack.cs:72-84 | the base domain is always a suffix of the input; a name without exactly two dots is returned unchanged |
| Naming.BaseDomainDropsFirstLabel | src/Nuages.Deploy.Ecs.Cdk/Stack/NuagesCdkStack.cs:79-83 | with three labels, the input is its first label, a dot, then the result, and the result has exactly two labels |
| Naming.BaseDomainOfThreeLabels | src/Nuages.Deploy.Ecs.Cdk/Stack/NuagesCdkStack.cs:74-83 | for dot-free labels `a.b.c` the result is `b.c` |
| Naming.BaseDomainChangesIffThreeLabels | src/Nuages.Deploy.Ecs.Cdk/Stack/NuagesCdkStack.cs:76-77 | the result differs from the input if and only if the input has exactly three labels |
| Naming.BaseDomainIdempotent | src/Nuages.Deploy.Ecs.Cdk/Stack/NuagesCdkStack.cs:72-84 | applying the base-domain function twice gives the same result as applying it once |
| Naming.ServiceDomainInsideZone | src/Nuages.Deploy.Ecs.Cdk/Stack/NuagesCdkStack_DeployTo_ECS_Fargate.cs:67-78 | the full domain is the zone name itself, or one label followed by a dot and the zone name |
| Naming.BaseDomainOfApiExample | src/Nuages.Deploy.Ecs.Cdk/Stack/NuagesCdkStack.cs:72-84 | `api.example.com` gives `example.com` |
| Naming.BaseDomainOfTwoLabelExample | src/Nuages.Deploy.Ecs.Cdk/Stack/NuagesCdkStack.cs:76-77 | `example.com` is returned unchanged |
| Naming.BaseDomainOfFiveLabelExample | src/Nuages.Deploy.Ecs.Cdk/Stack/NuagesCdkStack.cs:76-77 | `a.b.c.d.com` is returned unchanged |
| Naming.MakeId | src/Nuages.Deploy.Ecs.Cdk/Stack/NuagesCdkStack.cs:86-89 | an id starts with the stack name and a dash, ends with the given id, and has exactly that length |
| Naming.MakeIdInjective | src/Nuages.Deploy.Ecs.Cdk/Stack/NuagesCdkStack.cs:86-89 | for a fixed stack name, equal made ids come from equal ids |
| Naming.ContainerName | src/Nuages.Deploy.Ecs.Cdk/Stack/NuagesCdkStack_BuildToImageOnECR.cs:18 | the container name is the stack name followed by `Container`: it starts with the stack name, ends with `Container`, and is nine characters longer |
| Naming.EcrImageDefinitionsZip | src/Nuages.Deploy.Ecs.Cdk/Stack/NuagesCdkStack_BuildToImageOnECR.cs:20 | the key starts with `ecr/`, ends with `/imagedefinitions.zip`, and holds exactly the stack name between them |
| Naming.ImageDefinitionsKeyInjective | src/Nuages.Deploy.Ecs.Cdk/Stack/NuagesCdkStack_BuildToImageOnECR.cs:20 | two different stacks never use the same image-definitions key |
| Naming.RepositoryOwner | src/Nuages.Deploy.Ecs.Cdk/Stack/NuagesCdkStack_BuildToImageOnECR.cs:35 | the owner is slash-free and is either the whole string or followed by a `/` in it, so it is the first `/` segment |
| Naming.RepositoryName | src/Nuages.Deploy.Ecs.Cdk/Stack/NuagesCdkStack_BuildToImageOnECR.cs:36 | the repo is slash-free and is either the whole string or preceded by a `/` in it, so it is the last `/` segment |
| Naming.OwnerRepoRoundTrip | src/Nuages.Deploy.Ecs.Cdk/Stack/NuagesCdkStack_BuildToImageOnECR.cs:35-36 | `owner + "/" + repo` equals the input if and only if the input has exactly one slash |
| Naming.OwnerRepoOfSlashed | src/Nuages.Deploy.Ecs.Cdk/Stack/NuagesCdkStack_BuildToImageOnECR.cs:35-36 | a slash-free owner and name joined by `/` parse back into that owner and name |
| Naming.OwnerRepoWithoutSlash | src/Nuages.Deploy.Ecs.Cdk/Stack/NuagesCdkStack_BuildToImageOnECR.cs:172-184 | without a slash, the owner and the repo are both the whole string |
| Options.DefaultOptions | src/Nuages.Deploy.Ecs.Cdk/DeploymentOptions.cs:16-31 | defaults: cpu 236, memory 1024, desired count 1, no push trigger, no certificate bucket or security group, all seven arrays empty |
| Policies.CreatePolicy | src/Nuages.Deploy.Ecs.Cdk/Stack/NuagesCdkStack_Policies.cs:10-153 | each factory makes one Allow statement with its kind's fixed actions, on `*` except for AppConfig (whose resources are the AppConfig array); its id is `MakeId(prefix + suffix)` |
| Policies.CreateSecretsManagerPolicyDefault | src/Nuages.Deploy.Ecs.Cdk/Stack/NuagesCdkStack_Policies.cs:95-111 | with the suffix left at its default `""`, the secrets policy is `<stack>-SecretsManagerRole`, granting `GetSecretValue` on `*` |
| Policies.IdPrefixInjective | src/Nuages.Deploy.Ecs.Cdk/Stack/NuagesCdkStack_Policies.cs:12-136 | the seven id prefixes are pairwise distinct |
| Policies.PolicyIdsDistinct | src/Nuages.Deploy.Ecs.Cdk/Stack/NuagesCdkStack_Policies.cs:12-136 | two different kinds with the same suffix never get the same policy id |
| Policies.OnlyAppConfigReadsOptions | src/Nuages.Deploy.Ecs.Cdk/Stack/NuagesCdkStack_Policies.cs:78-91 | two option sets give the same policy if and only if the kind is not AppConfig or the AppConfig arrays agree |
| Policies.EcrExecutionPolicy | src/Nuages.Deploy.Ecs.Cdk/Stack/NuagesCdkStack_DeployTo_ECS_Fargate.cs:127-141 | the execution-role policy `EcrPolicy` grants `ecr:*` on `*` |
| Policies.FactoryIdsAvoidEcrPolicy | src/Nuages.Deploy.Ecs.Cdk/Stack/NuagesCdkStack_DeployTo_ECS_Fargate.cs:127 | no factory-made policy id equals the execution role's `EcrPolicy` id |
| Pipelines.ImageDefinitionsCommand | src/Nuages.Deploy.Ecs.Cdk/Stack/NuagesCdkStack_BuildToImageOnECR.cs:124-125 | the command is the fixed `printf` head, then exactly the container name, then the fixed tail that redirects into `imagedefinitions.json` |
| Pipelines.ImageDefinitionsName | src/Nuages.Deploy.Ecs.Cdk/Stack/NuagesCdkStack_BuildToImageOnECR.cs:124-125 | a name read back from a command rebuilds that same command |
| Pipelines.ImageDefinitionsRoundTrip | src/Nuages.Deploy.Ecs.Cdk/Stack/NuagesCdkStack_BuildToImageOnECR.cs:124-125 | the container name written into the `imagedefinitions.json` command is read back unchanged |
| Pipelines.CreateBuildSpec | src/Nuages.Deploy.Ecs.Cdk/Stack/NuagesCdkStack_BuildToImageOnECR.cs:72-140 | the phases are pre_build, build, post_build in that order; the artifact is `imagedefinitions.json`; the last post_build command writes the image definitions for the given container |
| Pipelines.BuildSpecNamesContainer | src/Nuages.Deploy.Ecs.Cdk/Stack/NuagesCdkStack_BuildToImageOnECR.cs:115-125 | reading the container name back from the shell text of the last post_build command gives the given container |
| Pipelines.CopyPrecedesDockerBuild | src/Nuages.Deploy.Ecs.Cdk/Stack/NuagesCdkStack_BuildToImageOnECR.cs:81-108 | `docker build` runs, and every `docker build` comes after the config-artifact `cp` |
| Pipelines.EcrPushStatement | src/Nuages.Deploy.Ecs.Cdk/Stack/NuagesCdkStack_BuildToImageOnECR.cs:149-165 | the project role gets one Allow statement on `*` with six `ecr:` actions, among them `GetAuthorizationToken`, `PutImage` and `UploadLayerPart` |
| Pipelines.CreateRepository | src/Nuages.Deploy.Ecs.Cdk/Stack/NuagesCdkStack_BuildToImageOnECR.cs:24-27 | the repository's construct id and repository name are the same string, the stack name followed by `Repository` |
| Pipelines.CreateProject | src/Nuages.Deploy.Ecs.Cdk/Stack/NuagesCdkStack_BuildToImageOnECR.cs:30-161 | the project id and name are `MakeId(<stack>BuildToECR)`, the GitHub source uses the owner/repo split with no webhook, the four build variables are region, account, the created repository's name and tag `latest`, and the role may push to ECR |
| Pipelines.GitHubSourceAction | src/Nuages.Deploy.Ecs.Cdk/Stack/NuagesCdkStack_BuildToImageOnECR.cs:172-188 | the GitHub action `Source` uses the configured connection, branch and push trigger; its owner and repo are the first and last `/` segments of the repository and hold no slash; it reads nothing and writes SourceArtifact |
| Pipelines.AdditionalFilesAction | src/Nuages.Deploy.Ecs.Cdk/Stack/NuagesCdkStack_BuildToImageOnECR.cs:196-203 | the `AdditionalFiles` action is an S3 source on the given bucket, under the key `AdditionalFilesZipName`, triggered by EVENTS; it reads nothing and writes ConfigArtifact |
| Pipelines.SourceStage | src/Nuages.Deploy.Ecs.Cdk/Stack/NuagesCdkStack_BuildToImageOnECR.cs:174-209 | the Source stage holds the GitHub action; with a bucket the AdditionalFiles action is appended after it, not substituted |
| Pipelines.ExtraInputs | src/Nuages.Deploy.Ecs.Cdk/Stack/NuagesCdkStack_BuildToImageOnECR.cs:192-209 | Build has extra inputs if and only if a bucket exists, and they are exactly `[ConfigArtifact]` |
| Pipelines.CreateBuildPipeline | src/Nuages.Deploy.Ecs.Cdk/Stack/NuagesCdkStack_BuildToImageOnECR.cs:211-252 | the build pipeline's id is `<stack>ECR` and its name `<stack>-Image-To-ECR`; its artifact bucket is the build bucket; its stages are Source, Build, CopyZipToS3, and the last one writes `ecr/<stack>/imagedefinitions.zip` into the build bucket |
| Pipelines.CreateDeployPipeline | src/Nuages.Deploy.Ecs.Cdk/Stack/NuagesCdkStack_BuildToImageOnECR.cs:256-292 | the deploy pipeline's id is `<stack>ECS` and its name `<stack>-DeployTo-ECS`; its artifact bucket is the build bucket; Source polls `ecr/<stack>/imagedefinitions.zip` in the build bucket, and Deploy, its one action, sends what Source wrote to the given service |
| Pipelines.CreateBuildToEcr | src/Nuages.Deploy.Ecs.Cdk/Stack/NuagesCdkStack_BuildToImageOnECR.cs:22-295 | the build action runs the created project, `IMAGE_REPO_NAME` is the created repository, and the only dependency edges are service → build pipeline and deploy pipeline → build pipeline |
| Pipelines.PipelineStages | src/Nuages.Deploy.Ecs.Cdk/Stack/NuagesCdkStack_BuildToImageOnECR.cs:211-292 | the build stages are exactly Source, Build, CopyZipToS3 and the deploy stages exactly Source, Deploy, whatever the options |
| Pipelines.BuildStageNames | src/Nuages.Deploy.Ecs.Cdk/Stack/NuagesCdkStack_BuildToImageOnECR.cs:211-251 | the build pipeline's stages are Source, Build, CopyZipToS3, with or without an additional-files bucket |
| Pipelines.DeployStageNames | src/Nuages.Deploy.Ecs.Cdk/Stack/NuagesCdkStack_BuildToImageOnECR.cs:257-292 | the deploy pipeline's stages are Source, Deploy |
| Pipelines.PublishedKeyIsPolled | src/Nuages.Deploy.Ecs.Cdk/Stack/NuagesCdkStack_BuildToImageOnECR.cs:238-275 | the object CopyZipToS3 writes is the object the deploy source polls: both are in the stack's build bucket, under the key `ecr/<stack>/imagedefinitions.zip` |
| Pipelines.BuildPipelineWellWired | src/Nuages.Deploy.Ecs.Cdk/Stack/NuagesCdkStack_BuildToImageOnECR.cs:167-250 | every artifact a build-pipeline action reads is written in an earlier stage of that pipeline |
| Pipelines.BuildPipelineOutputs | src/Nuages.Deploy.Ecs.Cdk/Stack/NuagesCdkStack_BuildToImageOnECR.cs:167-235 | the build pipeline writes SourceArtifact, then ConfigArtifact only with a bucket, then BuildArtifact |
| Pipelines.BuildPipelineWriteOnce | src/Nuages.Deploy.Ecs.Cdk/Stack/NuagesCdkStack_BuildToImageOnECR.cs:167-235 | no artifact name is written twice in the build pipeline |
| Pipelines.DeployPipelineWellWired | src/Nuages.Deploy.Ecs.Cdk/Stack/NuagesCdkStack_BuildToImageOnECR.cs:256-292 | the deploy action reads the artifact its own Source stage writes, and that artifact is written once |
| Pipelines.AdditionalFilesWiring | src/Nuages.Deploy.Ecs.Cdk/Stack/NuagesCdkStack_BuildToImageOnECR.cs:192-231 | without a bucket, Source has one action and Build no extra inputs; with one, an `AdditionalFiles` EVENTS action follows the GitHub action; it reads the configured bucket under the key `AdditionalFilesZipName` and writes ConfigArtifact, and Build's extra inputs are `[ConfigArtifact]` |
| Pipelines.SourceActionMatchesProject | src/Nuages.Deploy.Ecs.Cdk/Stack/NuagesCdkStack_BuildToImageOnECR.cs:172-188 | the GitHub action passes `TriggerOnPush` through unchanged and uses the project's owner, repo and branch |
| Pipelines.ArtifactFlow | src/Nuages.Deploy.Ecs.Cdk/Stack/NuagesCdkStack_BuildToImageOnECR.cs:222-290 | Build reads SourceArtifact and writes BuildArtifact; CopyZipToS3 reads BuildArtifact unextracted; Deploy reads what its POLL source writes and targets the given service |
| Pipelines.DependenciesTargetBuildPipeline | src/Nuages.Deploy.Ecs.Cdk/Stack/NuagesCdkStack_BuildToImageOnECR.cs:254-294 | there are exactly two edges; both point at the build pipeline; they come from the service and from the (distinct) deploy pipeline |
| Fargate.Rank | src/Nuages.Deploy.Ecs.Cdk/Stack/NuagesCdkStack_DeployTo_ECS_Fargate.cs:104-123 | each kind has one position in the attachment order ParameterStore, AppConfig, SES, SNS, CloudWatch, Secrets, EventBridge |
| Fargate.GrantedFrom | src/Nuages.Deploy.Ecs.Cdk/Stack/NuagesCdkStack_DeployTo_ECS_Fargate.cs:104-123 | a kind is listed if and only if its resource array is non-empty, and the list follows the attachment order |
| Fargate.TaskRolePolicies | src/Nuages.Deploy.Ecs.Cdk/Stack/NuagesCdkStack_DeployTo_ECS_Fargate.cs:102-123 | the task role's i-th policy is the factory policy, with suffix `Task`, of the i-th granted kind |
| Fargate.TaskPolicyPresentIff | src/Nuages.Deploy.Ecs.Cdk/Stack/NuagesCdkStack_DeployTo_ECS_Fargate.cs:104-123 | the task role holds a kind's `Task` policy if and only if that kind's resource array is non-empty |
| Fargate.TaskPoliciesOrderedAndDistinct | src/Nuages.Deploy.Ecs.Cdk/Stack/NuagesCdkStack_DeployTo_ECS_Fargate.cs:104-127 | attachments follow the fixed order; no two task-role policies share an id, and none has the execution policy's id |
| Fargate.TaskPolicyCount | src/Nuages.Deploy.Ecs.Cdk/Stack/NuagesCdkStack_DeployTo_ECS_Fargate.cs:104-123 | the number of attached task-role policies equals the number of non-empty resource arrays |
| Fargate.ContainerEnvironment | src/Nuages.Deploy.Ecs.Cdk/Stack/NuagesCdkStack_DeployTo_ECS_Fargate.cs:44-64 | exactly six fixed keys; `Nuages__UseAWS` = `true`, `ASPNETCORE_URLS` = `https://+;http://+`; AppConfig `Enabled` is `True`/`False` by whether the AppConfig array is non-empty; the rest come from the runtime options |
| Fargate.AppConfigFlagMatchesPolicy | src/Nuages.Deploy.Ecs.Cdk/Stack/NuagesCdkStack_DeployTo_ECS_Fargate.cs:50-108 | the AppConfig flag is `True` if and only if the task role holds the AppConfig policy |
| Fargate.SecurityGroups | src/Nuages.Deploy.Ecs.Cdk/Stack/NuagesCdkStack_DeployTo_ECS_Fargate.cs:24-29 | security groups are set if and only if `SecurityGroupId` is non-null and non-empty, and then to that one lookup; otherwise null |
| Fargate.ServiceId | src/Nuages.Deploy.Ecs.Cdk/Stack/NuagesCdkStack_DeployTo_ECS_Fargate.cs:73 | the service id is the stack name followed by `FargateService`, and it differs from both pipeline ids `<stack>ECR` and `<stack>ECS` |
| Fargate.CreateEcs | src/Nuages.Deploy.Ecs.Cdk/Stack/NuagesCdkStack_DeployTo_ECS_Fargate.cs:17-144 | the execution role always holds exactly `EcrPolicy`, whatever the options; the zone is looked up by the base domain, the service bound to the full domain; the health check is `/health`, port 443, HTTPS, 30 s / 5 s, code 200, threshold 3; the pipelines target this service |
| Fargate.ImageDefinitionsNameTheServiceContainer | src/Nuages.Deploy.Ecs.Cdk/Stack/NuagesCdkStack_BuildToImageOnECR.cs:124-125 | the container name in the text of the `printf` command that writes `imagedefinitions.json` is the service's own container name (printf escapes and shell quoting are not modelled) |
| Fargate.DeployTargetsService | src/Nuages.Deploy.Ecs.Cdk/Stack/NuagesCdkStack_BuildToImageOnECR.cs:254-290 | the deploy action targets the created service, and the service depends on the build pipeline |
| Fargate.ServiceDomainInLookedUpZone | src/Nuages.Deploy.Ecs.Cdk/Stack/NuagesCdkStack_DeployTo_ECS_Fargate.cs:67-78 | the service's domain lies in the looked-up zone: it is the zone name, or one label plus a dot before it |
| Fargate.DefaultOptionsGrantNothing | src/Nuages.Deploy.Ecs.Cdk/DeploymentOptions.cs:25-31 | with default options the task role gets no policies, AppConfig reads `False`, and no security group is set |
| CdkStack.AdditionalFilesBucket | src/Nuages.Deploy.Ecs.Cdk/Stack/NuagesCdkStack.cs:64-67 | the additional-files bucket exists if and only if `CertificateBucketName` is non-null and non-empty, and it is imported under that name |
| CdkStack.BuildBucket | src/Nuages.Deploy.Ecs.Cdk/Stack/NuagesCdkStack.cs:57-62 | the build bucket is created by the stack as `<stack>BuildBucket`, destroyed with the stack, auto-emptied and versioned |
| CdkStack.CreateTemplate | src/Nuages.Deploy.Ecs.Cdk/Stack/NuagesCdkStack.cs:55-70 | the stack's build bucket is `BuildBucket(<stack>)`; the additional-files bucket follows the certificate-bucket decision; the service is built with those two buckets |
| CdkStack.CreateStack | src/Nuages.Deploy.Ecs.Cdk/Stack/NuagesCdkStack.cs:19-46 | a null or empty stack name gives the error "StackName must be provided" and builds nothing; otherwise the stack id is `<name>Stack` and its name is `<name>` |
| CdkStack.AdditionalFilesIffCertificateBucket | src/Nuages.Deploy.Ecs.Cdk/Stack/NuagesCdkStack_BuildToImageOnECR.cs:192-209 | Source has two actions, and Build has extra inputs, if and only if a certificate bucket name is configured |
| CdkStack.NamesDerivedFromStackName | src/Nuages.Deploy.Ecs.Cdk/Stack/NuagesCdkStack_BuildToImageOnECR.cs:211-257 | the task policies, service, both pipelines and the container are named after the stack, and the published key is the stack's key |
| CdkStack.LookupZoneStackNameCollides | src/Nuages.Deploy.Ecs.Cdk/Stack/NuagesCdkStack_DeployTo_ECS_Fargate.cs:67 | with the stack name `LookupZone`, the deploy pipeline's id `<stack>ECS` equals the hosted-zone lookup id `LookupZoneECS` |
| CdkStack.OrdersTaskRole | src/Nuages.Deploy.Ecs.Cdk/Stack/NuagesCdkStack_DeployTo_ECS_Fargate.cs:104-123 | when only the parameter-store array is set, the task role holds exactly the parameter-store policy |
| CdkStack.OrdersExample | src/Nuages.Deploy.Ecs.Cdk/Stack/NuagesCdkStack.cs:19-46 | stack `orders`, repository `acme/orders-svc`, no bucket, only parameter store: the stack is built with one task policy, three build stages, one source action, `Nuages__UseAWS=true`, owner `acme` and repo `orders-svc` |
| CdkStack.OrdersRepositorySplit | src/Nuages.Deploy.Ecs.Cdk/Stack/NuagesCdkStack_BuildToImageOnECR.cs:35-36 | `acme/orders-svc` splits into `acme` and `orders-svc` |

## Left out

- Configuration loading in `Program.cs` is I/O and is not modelled. This covers the JSON files, environment overlay, SSM/AppConfig providers, secret transformation and `app.Synth()`. The model starts from already-bound options.
- CDK and AWS behaviour is not modelled. The VPC, hosted-zone, security-group, certificate and repository lookups are records of their construct id and the name or id they look up. Bucket properties are three booleans. The CodeBuild image is the constant `STANDARD_4_0`.
- Fargate.ServiceId: the stack gives the dependency edge and the deploy action the pattern's inner Fargate service (`service.Service`). The model names that service by the pattern's construct id `<stack>FargateService`, because CDK's child-id scheme is not modelled.
- The buildspec commands are not executed. Each command is a constructor of `Pipelines.Command`, and `Pipelines.CommandText` gives its exact shell line. The model checks the order of the commands and the container name in the `imagedefinitions.json` command.
- `CDK_DEFAULT_ACCOUNT` and `CDK_DEFAULT_REGION` are passed in as a `StackEnvironment`. The unresolved-token value CDK uses when they are unset is not modelled.
- `SourceOptions` is bound by `CreateStack` but never read to build anything, so it is not an input of the model.
- The partial-method hooks `CreateAdditionalRoles` and `DoAdditionnalConfiguration` have no implementation.
- `ConfigOptions.cs` is a superseded flat options class. It is not modelled, apart from the two field names noted above.
- Null `DomainName`, `GitHubRepository` and resource arrays are not modelled. The code would throw on them: `Split` on a null string, `Any()` on a null array. The model's strings and arrays are never null.
- CDK's refusal of two constructs with the same id is not modelled; CDK throws at construction, when the second construct is added. `CdkStack.LookupZoneStackNameCollides` shows one stack name that would trigger it.
- Capacity values (`EcsCpu`, `EcsMemoryLimit`, `EcsDesiredCount`) are C# `int`s passed through unchanged. The model uses unbounded `int`. No arithmetic is done on them, so no overflow case exists.
- The code validates none of the following, so the model does not either: an `owner/name` format, bucket/key pairing, positive capacity values.
