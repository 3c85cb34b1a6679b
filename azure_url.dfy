/**
 * The Azure-side URL that both directors build: the deployment path under
 * /openai/deployments/ and the api-version query parameter.
 */
module AzureUrl {
  import opened GoStrings
  import GoPath
  import opened Http

  const OPENAI_SEGMENT := "openai"
  const DEPLOYMENTS_SEGMENT := "deployments"
  /** "/openai/deployments/", written segment by segment. */
  const DEPLOYMENTS_PREFIX := "/" + OPENAI_SEGMENT + "/" + DEPLOYMENTS_SEGMENT + "/"
  const API_VERSION_KEY := "api-version"

  /**
   * `path.Join(fmt.Sprintf("/openai/deployments/%s", deployment),
   * strings.Replace(path, "/v1/", "/", 1))`.
   */
  function DeploymentPath(deployment: string, path: string): string {
    GoPath.Join(DEPLOYMENTS_PREFIX + deployment, ReplaceFirst(path, "/v1/", "/"))
  }

  /** The elements of /openai/deployments/<deployment> after the root. */
  function BaseElements(deployment: string): seq<string> {
    [OPENAI_SEGMENT, DEPLOYMENTS_SEGMENT, deployment]
  }

  /** The deployment prefix is the root followed by its three elements joined with slashes. */
  lemma BaseJoined(deployment: string)
    ensures DEPLOYMENTS_PREFIX + deployment == "/" + GoStrings.Join(BaseElements(deployment), '/')
  {
    JoinThree(OPENAI_SEGMENT, DEPLOYMENTS_SEGMENT, deployment, '/');
  }

  /** "openai" and "deployments" are plain path elements. */
  lemma NamesPlain()
    ensures GoPath.Plain(OPENAI_SEGMENT) && GoPath.Plain(DEPLOYMENTS_SEGMENT)
  {
  }

  /**
   * Go's path.Clean runs on the whole outbound path. Whatever the deployment
   * and path, the result is rooted, has no double slash and no trailing slash.
   * For a plain deployment name (not empty, no slash, not "." or "..") and an
   * inbound path whose rewritten form holds no ".." element, it begins with
   * /openai/deployments/<deployment>, followed by the end or a slash.
   */
  lemma DeploymentPathShape(deployment: string, path: string)
    ensures var r := DeploymentPath(deployment, path);
      r != "" && r[0] == '/' && GoPath.NoDoubleSlash(r) && (|r| > 1 ==> r[|r| - 1] != '/')
    ensures var r := DeploymentPath(deployment, path);
      var base := DEPLOYMENTS_PREFIX + deployment;
      GoPath.Plain(deployment) && GoPath.NoDotDot(Split(ReplaceFirst(path, "/v1/", "/"), '/')) ==>
        HasPrefix(r, base) && (|r| == |base| || r[|base|] == '/')
  {
    var base := DEPLOYMENTS_PREFIX + deployment;
    BaseJoined(deployment);
    assert base[0] == '/';
    GoPath.CleanShape(base + "/" + ReplaceFirst(path, "/v1/", "/"));
    if GoPath.Plain(deployment) && GoPath.NoDotDot(Split(ReplaceFirst(path, "/v1/", "/"), '/')) {
      NamesPlain();
      GoPath.JoinKeepsBase(BaseElements(deployment), ReplaceFirst(path, "/v1/", "/"));
    }
  }

  /** A path under /v1/ is joined, as `/<rest>`, under the root and the base elements. */
  lemma DeploymentPathV1(deployment: string, rest: string)
    ensures DeploymentPath(deployment, "/v1/" + rest)
         == GoPath.Join("/" + GoStrings.Join(BaseElements(deployment), '/'), "/" + rest)
  {
    StripV1(rest);
    BaseJoined(deployment);
  }

  /**
   * The standard case: `/v1/<rest>` becomes `/openai/deployments/<deployment>/<rest>`
   * for a plain deployment name and a relative rest made of plain elements.
   */
  lemma DeploymentPathForV1(deployment: string, rest: string)
    requires GoPath.Plain(deployment)
    requires GoPath.AllPlain(Split(rest, '/'))
    ensures DeploymentPath(deployment, "/v1/" + rest) == DEPLOYMENTS_PREFIX + deployment + "/" + rest
  {
    DeploymentPathV1(deployment, rest);
    BaseJoined(deployment);
    NamesPlain();
    GoPath.JoinSegment(BaseElements(deployment), rest);
  }

  /**
   * Two ".." elements after /v1/ climb out of the deployment: the request
   * reaches /openai/<rest>, outside /openai/deployments/.
   */
  lemma DotDotLeavesDeployment(deployment: string, d: string, rest: string)
    requires GoPath.Plain(deployment) && GoPath.IsDotDot(d)
    requires GoPath.AllPlain(Split(rest, '/'))
    ensures DeploymentPath(deployment, "/v1/" + d + "/" + d + "/" + rest) == "/" + OPENAI_SEGMENT + "/" + rest
  {
    var up := d + "/" + d + "/" + rest;
    ConcatAssoc("/v1/", d + "/" + d, "/", rest);
    Assoc("/v1/", d + "/", d);
    Assoc("/v1/", d, "/");
    DeploymentPathV1(deployment, up);
    ClimbOutOfBase(deployment, d, rest);
  }

  /** Under the base of a plain deployment, `/../../<rest>` reaches /openai/<rest>. */
  lemma ClimbOutOfBase(deployment: string, d: string, rest: string)
    requires GoPath.Plain(deployment) && GoPath.IsDotDot(d)
    requires GoPath.AllPlain(Split(rest, '/'))
    ensures GoPath.Join("/" + GoStrings.Join(BaseElements(deployment), '/'), "/" + (d + "/" + d + "/" + rest))
         == "/" + OPENAI_SEGMENT + "/" + rest
  {
    NamesPlain();
    assert BaseElements(deployment) == [OPENAI_SEGMENT] + [DEPLOYMENTS_SEGMENT, deployment];
    GoPath.JoinClimbsTwo([OPENAI_SEGMENT], DEPLOYMENTS_SEGMENT, deployment, d, rest);
    OneElement(OPENAI_SEGMENT);
  }

  /** One element joins to itself. */
  lemma OneElement(x: string)
    ensures GoStrings.Join([x], '/') == x
  {
  }

  /**
   * A deployment named ".." (reachable through the `token@host@deployment`
   * header form) removes "deployments" from the path: `/v1/<rest>` reaches
   * /openai/<rest>.
   */
  lemma DotDotDeployment(deployment: string, rest: string)
    requires GoPath.IsDotDot(deployment)
    requires GoPath.AllPlain(Split(rest, '/'))
    ensures DeploymentPath(deployment, "/v1/" + rest) == "/" + OPENAI_SEGMENT + "/" + rest
  {
    DeploymentPathV1(deployment, rest);
    UnderDotDotBase(deployment, rest);
  }

  /** The base /openai/deployments/.. is /openai: a rooted rest is joined under "openai". */
  lemma UnderDotDotBase(deployment: string, rest: string)
    requires GoPath.IsDotDot(deployment)
    requires GoPath.AllPlain(Split(rest, '/'))
    ensures GoPath.Join("/" + GoStrings.Join(BaseElements(deployment), '/'), "/" + rest)
         == "/" + OPENAI_SEGMENT + "/" + rest
  {
    NamesPlain();
    assert BaseElements(deployment) == [OPENAI_SEGMENT] + [DEPLOYMENTS_SEGMENT, deployment];
    GoPath.JoinAfterDotDot([OPENAI_SEGMENT], DEPLOYMENTS_SEGMENT, deployment, rest);
    OneElement(OPENAI_SEGMENT);
  }

  /** Replacing the first "/v1/" of `/v1/<rest>` leaves `/<rest>`. */
  lemma StripV1(rest: string)
    ensures ReplaceFirst("/v1/" + rest, "/v1/", "/") == "/" + rest
  {
    var path := "/v1/" + rest;
    assert path[..4] == "/v1/";
    assert OccursAt(path, "/v1/", 0);
    ReplaceFirstAtFirst(path, "/v1/", "/", 0);
    assert path[..0] == "" && path[4..] == rest;
  }

  /** A path without "/v1/" is joined under the deployment as it is. */
  lemma DeploymentPathWithoutV1(deployment: string, path: string)
    requires !Contains(path, "/v1/")
    ensures DeploymentPath(deployment, path) == GoPath.Join(DEPLOYMENTS_PREFIX + deployment, path)
  {
    ReplaceFirstAbsent(path, "/v1/", "/");
  }

  /** Only the first "/v1/" becomes "/"; later ones stay in the joined path. */
  lemma DeploymentPathFirstV1(deployment: string, path: string, i: nat)
    requires OccursAt(path, "/v1/", i)
    requires forall j: nat :: j < i ==> !OccursAt(path, "/v1/", j)
    ensures DeploymentPath(deployment, path)
         == GoPath.Join(DEPLOYMENTS_PREFIX + deployment, path[..i] + "/" + path[i + 4..])
  {
    ReplaceFirstAtFirst(path, "/v1/", "/", i);
  }

  /** `query.Add("api-version", version)` on the request's query, encoded back into the raw query. */
  function WithApiVersion(rawQuery: string, version: string): string {
    AddToRawQuery(rawQuery, API_VERSION_KEY, version)
  }

  /**
   * The URL the Azure branch leaves on a request: the remote's scheme and
   * host, the deployment path with RawPath refreshed from it, the same
   * trailing-'?' flag, and the query with api-version added.
   */
  function AzureURL(u: URL, scheme: string, host: string, deployment: string, version: string): URL {
    var p := DeploymentPath(deployment, u.path);
    URL(scheme, host, p, EscapedPath(u.(path := p)), u.forceQuery, WithApiVersion(u.rawQuery, version))
  }

  /**
   * Adding api-version appends the configured version to the values already
   * under that key; every other key keeps its values.
   */
  lemma WithApiVersionValues(rawQuery: string, version: string)
    requires '&' !in version && ';' !in version
    ensures var r := WithApiVersion(rawQuery, version);
      QueryValues(ParseQuery(r), API_VERSION_KEY) == QueryValues(ParseQuery(rawQuery), API_VERSION_KEY) + [version]
      && forall k :: k != API_VERSION_KEY ==> QueryValues(ParseQuery(r), k) == QueryValues(ParseQuery(rawQuery), k)
  {
    assert '&' !in API_VERSION_KEY && ';' !in API_VERSION_KEY && '=' !in API_VERSION_KEY;
    AddToRawQueryValues(rawQuery, API_VERSION_KEY, version);
  }
}
