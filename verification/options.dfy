/**
 The deployment inputs: `DeploymentOptions` (what to deploy and which AWS integrations the
 running service may call) and `RuntimeOptions` (values only forwarded into the container).
 */
module Options {
  import opened Wrappers

  /** C# `string.IsNullOrEmpty`. */
  predicate IsNullOrEmpty(s: Option<string>) {
    s.None? || s.value == ""
  }

  /**
   The bound `DeploymentOptions` section. Nullable C# strings are `Option`s; the seven
   resource arrays say which integrations the task role is granted (empty = not granted).
   `EcrRepositoryName` and `AdditionalFilesZipName` are read by the stack although the
   options class does not declare them; the flat options class supplies their names.
   */
  datatype DeploymentOptions = DeploymentOptions(
    domainName: string,
    certificateArn: string,
    vpcId: string,
    gitHubRepository: string,
    gitHubBranch: string,
    gitHubConnectionArn: string,
    certificateBucketName: Option<string>,
    certificateZipFileName: Option<string>,
    additionalFilesZipName: Option<string>,
    ecrRepositoryName: string,
    ecsCpu: int,
    ecsMemoryLimit: int,
    ecsDesiredCount: int,
    securityGroupId: Option<string>,
    triggerOnPush: bool,
    appConfigResources: seq<string>,
    sesResources: seq<string>,
    parameterStoreResources: seq<string>,
    snsResources: seq<string>,
    secretResources: seq<string>,
    cloudWatchResources: seq<string>,
    eventBridgeResources: seq<string>)

  /** The bound `RuntimeOptions` section; every field is a nullable string. */
  datatype RuntimeOptions = RuntimeOptions(
    appConfigProfileId: Option<string>,
    appApplicationId: Option<string>,
    appEnvironmentId: Option<string>,
    appParameterStorePath: Option<string>,
    certificateFilename: Option<string>,
    certificatePassword: Option<string>)

  /** The account and region the stack is bound to (read from the process environment). */
  datatype StackEnvironment = StackEnvironment(account: string, region: string)

  /**
   Options as bound when the configuration supplies only the required strings: every
   optional string is null, capacity takes its initialiser and every resource array is empty.
   */
  function DefaultOptions(domainName: string, certificateArn: string, vpcId: string,
                          gitHubRepository: string, gitHubBranch: string,
                          gitHubConnectionArn: string, ecrRepositoryName: string): (o: DeploymentOptions)
    ensures o.ecsCpu == 236 && o.ecsMemoryLimit == 1024 && o.ecsDesiredCount == 1
    ensures !o.triggerOnPush
    ensures o.certificateBucketName == None && o.securityGroupId == None
    ensures o.appConfigResources == [] && o.sesResources == [] && o.parameterStoreResources == []
    ensures o.snsResources == [] && o.secretResources == [] && o.cloudWatchResources == []
    ensures o.eventBridgeResources == []
    ensures o.domainName == domainName && o.gitHubRepository == gitHubRepository
  {
    DeploymentOptions(
      domainName, certificateArn, vpcId, gitHubRepository, gitHubBranch, gitHubConnectionArn,
      None, None, None, ecrRepositoryName,
      236, 1024, 1,
      None,
      false,
      [], [], [], [], [], [], [])
  }
}
