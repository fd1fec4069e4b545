/**
 The IAM policy factories. Each of the seven kinds produces one policy holding one Allow
 statement with a fixed action list; every kind but AppConfig grants it on all resources.
 The execution role's ECR policy is defined here too.
 */
module Policies {
  import opened Text
  import opened Naming

  datatype PolicyKind = Ses | Sns | Parameters | AppConfig | Secrets | CloudWatch | EventBridge

  datatype Effect = Allow | Deny

  datatype Statement = Statement(effect: Effect, actions: seq<string>, resources: seq<string>)

  /** An inline policy: its construct id and its statements. */
  datatype Policy = Policy(id: string, statements: seq<Statement>)

  /** The word each factory puts before the role suffix in the policy id. */
  function IdPrefix(kind: PolicyKind): string
  {
    match kind
    case Ses => "SESRole"
    case Sns => "SNSRole"
    case Parameters => "SystemsManagerParametersRole"
    case AppConfig => "SystemsManagerAppConfigRole"
    case Secrets => "SecretsManagerRole"
    case CloudWatch => "CloudWatch"
    case EventBridge => "EventBridge"
  }

  /** The fixed actions each factory grants. */
  function Actions(kind: PolicyKind): seq<string>
  {
    match kind
    case Ses => ["ses:ListTemplates", "ses:SendEmail", "ses:SendTemplatedEmail", "ses:UpdateTemplate",
                 "ses:SendRawEmail", "ses:CreateTemplate", "ses:GetTemplate"]
    case Sns => ["sns:Publish"]
    case Parameters => ["ssm:GetParametersByPath", "ssm:PutParameter"]
    case AppConfig => ["appconfig:StartConfigurationSession", "appconfig:GetLatestConfiguration"]
    case Secrets => ["secretsmanager:GetSecretValue"]
    case CloudWatch => ["logs:*"]
    case EventBridge => ["events:PutEvents"]
  }

  /**
   The policy a factory builds for `kind` with id suffix `suffix` in stack `stackName`.
   `appConfigResources` is the options' AppConfig array, the only option any factory reads.
   */
  function CreatePolicy(stackName: string, kind: PolicyKind, suffix: string,
                        appConfigResources: seq<string>): (p: Policy)
    ensures |p.statements| == 1 && p.statements[0].effect == Allow
    ensures p.statements[0].actions == Actions(kind) && |p.statements[0].actions| >= 1
    ensures kind == AppConfig ==> p.statements[0].resources == appConfigResources
    ensures kind != AppConfig ==> p.statements[0].resources == ["*"]
    ensures p.id == MakeId(stackName, IdPrefix(kind) + suffix)
  {
    var resources := if kind == AppConfig then appConfigResources else ["*"];
    Policy(MakeId(stackName, IdPrefix(kind) + suffix), [Statement(Allow, Actions(kind), resources)])
  }

  /** The secrets factory called without a suffix: its suffix defaults to the empty string. */
  function CreateSecretsManagerPolicyDefault(stackName: string): (p: Policy)
    ensures p.id == stackName + "-SecretsManagerRole"
    ensures p.statements == [Statement(Allow, ["secretsmanager:GetSecretValue"], ["*"])]
  {
    CreatePolicy(stackName, Secrets, "", [])
  }

  /** Appending the same suffix keeps distinct strings distinct. */
  lemma AppendSuffixInjective(a: string, b: string, suffix: string)
    requires a + suffix == b + suffix
    ensures a == b
  {
    assert |a| == |b|;
    assert (a + suffix)[..|a|] == a;
    assert (b + suffix)[..|b|] == b;
  }

  /** The seven id prefixes are pairwise distinct. */
  lemma IdPrefixInjective(k1: PolicyKind, k2: PolicyKind)
    requires IdPrefix(k1) == IdPrefix(k2)
    ensures k1 == k2
  {
  }

  /** Two different kinds built with the same suffix never get the same policy id. */
  lemma {:induction false} PolicyIdsDistinct(stackName: string, k1: PolicyKind, k2: PolicyKind,
                                              suffix: string, resources: seq<string>)
    requires k1 != k2
    ensures CreatePolicy(stackName, k1, suffix, resources).id != CreatePolicy(stackName, k2, suffix, resources).id
  {
    if CreatePolicy(stackName, k1, suffix, resources).id == CreatePolicy(stackName, k2, suffix, resources).id {
      MakeIdInjective(stackName, IdPrefix(k1) + suffix, IdPrefix(k2) + suffix);
      AppendSuffixInjective(IdPrefix(k1), IdPrefix(k2), suffix);
      IdPrefixInjective(k1, k2);
    }
  }

  /** Every factory but AppConfig ignores the options entirely. */
  lemma OnlyAppConfigReadsOptions(stackName: string, kind: PolicyKind, suffix: string,
                                  r1: seq<string>, r2: seq<string>)
    ensures CreatePolicy(stackName, kind, suffix, r1) == CreatePolicy(stackName, kind, suffix, r2)
            <==> kind != AppConfig || r1 == r2
  {
    if kind == AppConfig && r1 != r2 {
      assert CreatePolicy(stackName, kind, suffix, r1).statements[0].resources
          != CreatePolicy(stackName, kind, suffix, r2).statements[0].resources;
    }
  }

  /** The id of the execution role's registry policy; it carries no stack prefix. */
  const EcrPolicyId := "EcrPolicy"

  /** The policy always attached to the execution role: every ECR action on every resource. */
  function EcrExecutionPolicy(): (p: Policy)
    ensures p.id == EcrPolicyId
    ensures p.statements == [Statement(Allow, ["ecr:*"], ["*"])]
  {
    Policy(EcrPolicyId, [Statement(Allow, ["ecr:*"], ["*"])])
  }

  /** No policy a factory builds can be mistaken for the execution role's policy. */
  lemma FactoryIdsAvoidEcrPolicy(stackName: string, kind: PolicyKind, suffix: string, resources: seq<string>)
    ensures CreatePolicy(stackName, kind, suffix, resources).id != EcrExecutionPolicy().id
  {
    var id := CreatePolicy(stackName, kind, suffix, resources).id;
    assert id[|stackName|] == '-';
    assert '-' !in EcrPolicyId;
  }
}
