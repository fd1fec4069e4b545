/**
 Names the stack derives from its inputs: the hosted-zone domain, construct ids prefixed
 with the stack name, the container name, the image-definitions object key, and the
 owner and repository parts of the GitHub repository string.
 */
module Naming {
  import opened Text

  /**
   The domain whose hosted zone is looked up: a name with exactly three dot-separated
   labels loses its first label; any other name is returned unchanged.
   */
  function GetBaseDomain(domainName: string): (r: string)
    ensures IsSuffix(r, domainName)
    ensures Count(domainName, '.') != 2 ==> r == domainName
  {
    var tokens := Split(domainName, '.');
    if |tokens| != 3 then domainName
    else
      JoinSplit(domainName, '.');
      JoinEnds(tokens[1..], '.');
      assert Join(tokens, '.') == tokens[0] + ['.'] + Join(tokens[1..], '.');
      assert Join(tokens[1..], '.') == tokens[1] + "." + tokens[2];
      tokens[1] + "." + tokens[2]
  }

  /** With exactly two dots the name is its first label, a dot, and the base domain, which has one dot. */
  lemma {:induction false} BaseDomainDropsFirstLabel(domainName: string)
    requires Count(domainName, '.') == 2
    ensures domainName == Split(domainName, '.')[0] + "." + GetBaseDomain(domainName)
    ensures Count(GetBaseDomain(domainName), '.') == 1
    ensures '.' !in Split(domainName, '.')[0]
  {
    var tokens := Split(domainName, '.');
    JoinSplit(domainName, '.');
    assert Join(tokens[1..], '.') == tokens[1] + "." + tokens[2];
    assert Join(tokens, '.') == tokens[0] + ['.'] + Join(tokens[1..], '.');
    CountAppend(tokens[1], ".", '.');
    CountAppend(tokens[1] + ".", tokens[2], '.');
    CountZeroIffAbsent(tokens[1], '.');
    CountZeroIffAbsent(tokens[2], '.');
    assert Count(".", '.') == 1;
  }

  /** Three dot-free labels `a.b.c` give `b.c`. */
  lemma {:induction false} BaseDomainOfThreeLabels(a: string, b: string, c: string)
    requires '.' !in a && '.' !in b && '.' !in c
    ensures GetBaseDomain(a + "." + b + "." + c) == b + "." + c
  {
    var parts := [a, b, c];
    assert parts[1..] == [b, c];
    assert Join(parts[1..][1..], '.') == c;
    assert Join(parts, '.') == a + "." + b + "." + c;
    SplitJoin(parts, '.');
  }

  /** The base domain differs from its input exactly when the input has three labels. */
  lemma {:induction false} BaseDomainChangesIffThreeLabels(domainName: string)
    ensures GetBaseDomain(domainName) != domainName <==> Count(domainName, '.') == 2
  {
    if Count(domainName, '.') == 2 {
      BaseDomainDropsFirstLabel(domainName);
      assert |domainName| > |GetBaseDomain(domainName)|;
    }
  }

  /** Looking up the base domain of a base domain changes nothing. */
  lemma {:induction false} BaseDomainIdempotent(domainName: string)
    ensures GetBaseDomain(GetBaseDomain(domainName)) == GetBaseDomain(domainName)
  {
    if Count(domainName, '.') == 2 {
      BaseDomainDropsFirstLabel(domainName);
    }
  }

  /**
   The domain the service is bound to lies inside the zone that is looked up: it is the
   zone's own name or a single label followed by a dot and the zone's name.
   */
  lemma {:induction false} ServiceDomainInsideZone(domainName: string)
    ensures var zone := GetBaseDomain(domainName);
            || zone == domainName
            || (IsSuffix("." + zone, domainName) && '.' !in domainName[..|domainName| - |zone| - 1])
  {
    if Count(domainName, '.') == 2 {
      BaseDomainDropsFirstLabel(domainName);
      var zone := GetBaseDomain(domainName);
      var first := Split(domainName, '.')[0];
      assert domainName == first + ("." + zone);
    }
  }

  /** A three-label name loses its first label: `api.example.com` gives `example.com`. */
  lemma BaseDomainOfApiExample()
    ensures GetBaseDomain("api.example.com") == "example.com"
  {
    BaseDomainOfThreeLabels("api", "example", "com");
    assert "api" + "." + "example" + "." + "com" == "api.example.com";
    assert "example" + "." + "com" == "example.com";
  }

  /** A two-label name is its own base domain. */
  lemma BaseDomainOfTwoLabelExample()
    ensures GetBaseDomain("example.com") == "example.com"
  {
    var parts := ["example", "com"];
    assert parts[1..] == ["com"];
    assert Join(parts, '.') == "example.com";
    SplitJoin(parts, '.');
  }

  /** A five-label name is its own base domain. */
  lemma BaseDomainOfFiveLabelExample()
    ensures GetBaseDomain("a.b.c.d.com") == "a.b.c.d.com"
  {
    var parts := ["a", "b", "c", "d", "com"];
    assert parts[1..][1..][1..][1..] == ["com"];
    assert Join(parts[1..][1..][1..], '.') == "d.com";
    assert Join(parts[1..][1..], '.') == "c.d.com";
    assert Join(parts[1..], '.') == "b.c.d.com";
    assert Join(parts, '.') == "a.b.c.d.com";
    SplitJoin(parts, '.');
  }

  /** A construct id namespaced by the stack: the stack name, a dash, then the id. */
  function MakeId(stackName: string, id: string): (r: string)
    ensures IsPrefix(stackName + "-", r)
    ensures IsSuffix(id, r)
    ensures |r| == |stackName| + 1 + |id|
  {
    stackName + "-" + id
  }

  /** For a fixed stack name, distinct ids stay distinct. */
  lemma MakeIdInjective(stackName: string, a: string, b: string)
    requires MakeId(stackName, a) == MakeId(stackName, b)
    ensures a == b
  {
    var k := |stackName| + 1;
    assert MakeId(stackName, a)[k..] == a;
    assert MakeId(stackName, b)[k..] == b;
  }

  /** The container name shared by the service definition and `imagedefinitions.json`. */
  function ContainerName(stackName: string): (r: string)
    ensures IsPrefix(stackName, r) && IsSuffix("Container", r)
    ensures |r| == |stackName| + 9
  {
    stackName + "Container"
  }

  /** The object key the build pipeline publishes to and the deploy pipeline polls. */
  function EcrImageDefinitionsZip(stackName: string): (r: string)
    ensures IsPrefix("ecr/", r) && IsSuffix("/imagedefinitions.zip", r)
    ensures |r| == |stackName| + 25
    ensures r[4..4 + |stackName|] == stackName
  {
    "ecr/" + stackName + "/imagedefinitions.zip"
  }

  /** Two stacks never publish to the same object key. */
  lemma ImageDefinitionsKeyInjective(a: string, b: string)
    requires EcrImageDefinitionsZip(a) == EcrImageDefinitionsZip(b)
    ensures a == b
  {
    assert EcrImageDefinitionsZip(a)[4..4 + |a|] == a;
    assert EcrImageDefinitionsZip(b)[4..4 + |b|] == b;
  }

  /**
   `GitHubRepository.Split("/").First()`: everything before the first slash, or the whole
   string when it has none.
   */
  function RepositoryOwner(gitHubRepository: string): (r: string)
    ensures '/' !in r
    ensures IsPrefix(r, gitHubRepository)
    ensures r == gitHubRepository || IsPrefix(r + "/", gitHubRepository)
  {
    var parts := Split(gitHubRepository, '/');
    JoinSplit(gitHubRepository, '/');
    JoinEnds(parts, '/');
    parts[0]
  }

  /**
   `GitHubRepository.Split("/").Last()`: everything after the last slash, or the whole
   string when it has none.
   */
  function RepositoryName(gitHubRepository: string): (r: string)
    ensures '/' !in r
    ensures IsSuffix(r, gitHubRepository)
    ensures r == gitHubRepository || IsSuffix("/" + r, gitHubRepository)
  {
    var parts := Split(gitHubRepository, '/');
    JoinSplit(gitHubRepository, '/');
    JoinEnds(parts, '/');
    if |parts| >= 2 then
      JoinLastAfterSeparator(parts, '/');
      parts[|parts| - 1]
    else
      parts[0]
  }

  /** Owner and repository put back together give the input exactly when it holds one slash. */
  lemma {:induction false} OwnerRepoRoundTrip(gitHubRepository: string)
    ensures RepositoryOwner(gitHubRepository) + "/" + RepositoryName(gitHubRepository) == gitHubRepository
            <==> Count(gitHubRepository, '/') == 1
  {
    var parts := Split(gitHubRepository, '/');
    var owner := RepositoryOwner(gitHubRepository);
    var name := RepositoryName(gitHubRepository);
    JoinSplit(gitHubRepository, '/');
    if |parts| == 1 {
      assert |owner + "/" + name| > |gitHubRepository|;
    } else if |parts| == 2 {
      assert parts[1..] == [parts[1]];
      assert Join(parts, '/') == owner + "/" + name;
    } else {
      JoinLength(parts, '/');
      assert |owner + "/" + name| < |gitHubRepository|;
    }
  }

  /** A well-formed `owner/name` string parses back into its two parts. */
  lemma {:induction false} OwnerRepoOfSlashed(owner: string, name: string)
    requires '/' !in owner && '/' !in name
    ensures RepositoryOwner(owner + "/" + name) == owner
    ensures RepositoryName(owner + "/" + name) == name
  {
    var parts := [owner, name];
    assert parts[1..] == [name];
    assert Join(parts, '/') == owner + "/" + name;
    SplitJoin(parts, '/');
  }

  /** Without any slash, owner and repository are both the whole string. */
  lemma {:induction false} OwnerRepoWithoutSlash(gitHubRepository: string)
    requires '/' !in gitHubRepository
    ensures RepositoryOwner(gitHubRepository) == gitHubRepository
    ensures RepositoryName(gitHubRepository) == gitHubRepository
  {
    SplitFree(gitHubRepository, '/');
  }
}
