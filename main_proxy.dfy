/**
 * main.go: the proxy's settings and their loading at start-up, the director
 * that turns an OpenAI-style request into an Azure OpenAI request, and the
 * handler of the routes under /v1/.
 */
module MainProxy {
  import opened GoStrings
  import opened Http
  import opened OsEnv
  import opened ModelMapper
  import opened Bearer
  import AzureUrl

  const DEFAULT_ADDRESS := "0.0.0.0:8080"
  const DEFAULT_API_VERSION := "2023-03-15-preview"

  const ADDRESS_VAR := "AZURE_OPENAI_PROXY_ADDRESS"
  const API_VERSION_VAR := "AZURE_OPENAI_APIVERSION"
  const ENDPOINT_VAR := "AZURE_OPENAI_ENDPOINT"
  const MODEL_MAPPER_VAR := "AZURE_OPENAI_MODEL_MAPPER"
  const TOKEN_VAR := "AZURE_OPENAI_TOKEN"

  /** The package-level variables of main.go that the start-up code assigns. */
  class Settings {
    var address: string
    var azureToken: string
    var apiVersion: string
    var endpoint: string
    var modelMapper: Mapper

    /** The values the variables are declared with. */
    constructor ()
      ensures address == DEFAULT_ADDRESS && azureToken == "" && apiVersion == DEFAULT_API_VERSION
      ensures endpoint == "" && modelMapper == DEFAULT_MAPPER
    {
      address := DEFAULT_ADDRESS;
      azureToken := "";
      apiVersion := DEFAULT_API_VERSION;
      endpoint := "";
      modelMapper := DEFAULT_MAPPER;
    }

    /**
     * `init`: each set variable overrides its setting; the model mapper's
     * entries are written one by one over the current map. `exited` is true
     * when an entry is malformed, where the process exits; the settings are
     * then as far as the loop got.
     */
    method Init(env: Env) returns (exited: bool)
      modifies this
      ensures exited <==> ParseModelMapper(Getenv(env, MODEL_MAPPER_VAR), old(modelMapper)).Failure?
      ensures address == Override(env, ADDRESS_VAR, old(address))
      ensures apiVersion == Override(env, API_VERSION_VAR, old(apiVersion))
      ensures endpoint == Override(env, ENDPOINT_VAR, old(endpoint))
      ensures modelMapper == LoadPairs(MapperEntries(Getenv(env, MODEL_MAPPER_VAR)), old(modelMapper)).mapper
      ensures !exited ==> modelMapper == ParseModelMapper(Getenv(env, MODEL_MAPPER_VAR), old(modelMapper)).value
      ensures azureToken == if exited then old(azureToken) else Override(env, TOKEN_VAR, old(azureToken))
    {
      address := Override(env, ADDRESS_VAR, address);
      apiVersion := Override(env, API_VERSION_VAR, apiVersion);
      endpoint := Override(env, ENDPOINT_VAR, endpoint);
      var v := Getenv(env, MODEL_MAPPER_VAR);
      if v != "" {
        var pairs := Split(v, ',');
        var i := 0;
        while i < |pairs|
          invariant 0 <= i <= |pairs|
          invariant LoadPairs(pairs, old(modelMapper)) == LoadPairs(pairs[i..], modelMapper)
          invariant address == Override(env, ADDRESS_VAR, old(address))
          invariant apiVersion == Override(env, API_VERSION_VAR, old(apiVersion))
          invariant endpoint == Override(env, ENDPOINT_VAR, old(endpoint))
          invariant azureToken == old(azureToken)
        {
          var info := Split(pairs[i], '=');
          assert pairs[i..][0] == pairs[i] && pairs[i..][1..] == pairs[i + 1..];
          if |info| != 2 {
            exited := true;
            return;
          }
          modelMapper := modelMapper[info[0] := info[1]];
          i := i + 1;
        }
      }
      azureToken := Override(env, TOKEN_VAR, azureToken);
      exited := false;
    }
  }

  /** What a request is sent with: the api-key, the upstream host and the deployment. */
  datatype Credential = Credential(token: string, host: string, deployment: string)

  /**
   * The director's choice of token, host and deployment. A static token wins
   * and keeps the endpoint's host and the mapped deployment; otherwise the
   * Authorization header, without "Bearer ", decides.
   */
  function ResolveCredential(staticToken: string, authorization: string, endpointHost: string, deployment: string): (c: Credential)
    ensures staticToken != "" ==> c == Credential(staticToken, endpointHost, deployment)
    ensures staticToken == "" ==> c == FromHeader(StripBearer(authorization), endpointHost, deployment)
  {
    if staticToken != "" then Credential(staticToken, endpointHost, deployment)
    else FromHeader(StripBearer(authorization), endpointHost, deployment)
  }

  /**
   * The credential a header value (already without "Bearer ") carries: the
   * value itself as token unless it holds an '@'; then it reads
   * `token@host[@deployment[@...]]`.
   */
  function FromHeader(v: string, endpointHost: string, deployment: string): (c: Credential)
    ensures '@' !in v ==> c == Credential(v, endpointHost, deployment)
  {
    ContainsChar(v, '@');
    if Contains(v, "@") then
      var parts := Split(v, '@');
      Credential(parts[0], parts[1], if |parts| > 2 then parts[2] else deployment)
    else
      Credential(v, endpointHost, deployment)
  }

  /**
   * A compound value `token@host` or `token@host@deployment...`: the token and
   * host are the first two '@'-separated fields; a third field, when there is
   * one, replaces the deployment, and anything after it is ignored.
   */
  lemma CompoundCredential(v: string, endpointHost: string, deployment: string)
    requires '@' in v
    ensures var c := FromHeader(v, endpointHost, deployment);
      '@' !in c.token && '@' !in c.host
      && (Count(v, '@') == 1 ==> v == c.token + "@" + c.host && c.deployment == deployment)
      && (Count(v, '@') > 1 ==> var p := c.token + "@" + c.host + "@" + c.deployment;
            '@' !in c.deployment && HasPrefix(v, p) && (|v| == |p| || v[|p|] == '@'))
  {
    ContainsChar(v, '@');
    SplitLeadingPieces(v, '@');
  }

  /** `token@host` gives that token and host and keeps the mapped deployment. */
  lemma TokenAtHost(token: string, host: string, endpointHost: string, deployment: string)
    requires '@' !in token && '@' !in host
    ensures FromHeader(token + "@" + host, endpointHost, deployment) == Credential(token, host, deployment)
  {
    var v := token + "@" + host;
    assert v[|token|] == '@';
    ContainsChar(v, '@');
    SplitAtSeparator(token, host, '@');
    SplitFree(host, '@');
  }

  /**
   * `token@host@deployment`, optionally followed by further '@' fields, gives
   * that token, host and deployment.
   */
  lemma TokenAtHostAtDeployment(token: string, host: string, dep: string, rest: string,
                                endpointHost: string, deployment: string)
    requires '@' !in token && '@' !in host && '@' !in dep
    requires rest == "" || rest[0] == '@'
    ensures FromHeader(token + "@" + host + "@" + dep + rest, endpointHost, deployment) == Credential(token, host, dep)
  {
    var v := token + "@" + host + "@" + dep + rest;
    assert v[|token|] == '@';
    ContainsChar(v, '@');
    SplitThreeFields(token, host, dep, rest, '@');
  }

  /**
   * The documented header form `Bearer <key>@<resource host>@<deployment>`,
   * for fields that hold no '@' and no "Bearer ", resolves to those fields.
   */
  lemma BearerCompoundHeader(token: string, host: string, dep: string, endpointHost: string, deployment: string)
    requires '@' !in token && '@' !in host && '@' !in dep
    requires !Contains(token, BEARER_PREFIX) && !Contains(host, BEARER_PREFIX) && !Contains(dep, BEARER_PREFIX)
    ensures ResolveCredential("", BEARER_PREFIX + token + "@" + host + "@" + dep, endpointHost, deployment)
         == Credential(token, host, dep)
  {
    var th := token + "@" + host;
    var credential := th + "@" + dep;
    assert '@' !in BEARER_PREFIX;
    AbsentAcross(token, '@', host, BEARER_PREFIX);
    AbsentAcross(th, '@', dep, BEARER_PREFIX);
    StripBearerPrefix(credential);
    assert BEARER_PREFIX + token + "@" + host + "@" + dep == BEARER_PREFIX + credential;
    assert credential == token + "@" + host + "@" + dep + "";
    TokenAtHostAtDeployment(token, host, dep, "", endpointHost, deployment);
  }

  /**
   * The credential block of the director, step by step: the static token, or
   * the Authorization header without "Bearer ", cut at '@' when it holds one.
   */
  method ReadCredential(staticToken: string, authorization: string, endpointHost: string, deployment: string)
    returns (token: string, host: string, dep: string)
    ensures Credential(token, host, dep) == ResolveCredential(staticToken, authorization, endpointHost, deployment)
  {
    token, host, dep := "", endpointHost, deployment;
    if staticToken != "" {
      token := staticToken;
    } else {
      token := StripBearer(authorization);
      if Contains(token, "@") {
        ContainsChar(token, '@');
        var tokenSplit := Split(token, '@');
        token := tokenSplit[0];
        host := tokenSplit[1];
        if |tokenSplit| > 2 {
          dep := tokenSplit[2];
        }
      }
    }
  }

  /**
   * The director of NewOpenAIReverseProxy, applied to one request. `remote` is
   * the parsed endpoint and `modelOf` reads the "model" field of a JSON body
   * (empty when there is none).
   */
  method Direct(s: Settings, remote: Endpoint, modelOf: string -> string, req: Request)
    modifies req
    ensures var c := ResolveCredential(s.azureToken, HeaderGet(old(req.header), "Authorization"), remote.host,
                                       GetDeploymentByModel(s.modelMapper, modelOf(old(req.body))));
      && req.header == HeaderDel(HeaderSet(old(req.header), "api-key", c.token), "Authorization")
      && req.host == c.host
      && req.url == AzureUrl.AzureURL(old(req.url), remote.scheme, c.host, c.deployment, s.apiVersion)
      && HeaderGet(req.header, "api-key") == c.token
    ensures "Authorization" !in req.header
    ensures req.host == req.url.host && req.url.scheme == remote.scheme
    ensures req.httpMethod == old(req.httpMethod) && req.body == old(req.body)
  {
    var body := req.body;
    var model := modelOf(body);
    var deployment := GetDeploymentByModel(s.modelMapper, model);

    var token, host;
    token, host, deployment := ReadCredential(s.azureToken, HeaderGet(req.header, "Authorization"), remote.host, deployment);

    var header := HeaderSet(req.header, "api-key", token);
    header := HeaderDel(header, "Authorization");
    HeaderDelKeeps(HeaderSet(req.header, "api-key", token), "Authorization", "api-key");
    var url := req.url.(scheme := remote.scheme);
    url := url.(host := host);
    url := url.(path := AzureUrl.DeploymentPath(deployment, url.path));
    url := url.(rawPath := EscapedPath(url));
    url := url.(rawQuery := AzureUrl.WithApiVersion(url.rawQuery, s.apiVersion));
    req.header, req.host, req.url := header, host, url;
  }

  /** The branch the /v1/ handler takes for a request. */
  datatype Route = Preflight | Proxy | CreditGrants | Models | Empty

  /**
   * The handler's tests in their order: an OPTIONS request first, then the
   * path's suffix: completions or embeddings, credit_grants, models.
   */
  function Classify(httpMethod: string, path: string): Route {
    if httpMethod == "OPTIONS" then Preflight
    else if HasSuffix(path, "completions") || HasSuffix(path, "embeddings") then Proxy
    else if HasSuffix(path, "credit_grants") then CreditGrants
    else if HasSuffix(path, "models") then Models
    else Empty
  }

  /**
   * No path ends in two of the four suffixes (they differ in their
   * next-to-last character), so the order of the tests does not matter:
   * each branch is taken exactly when its own suffix is present.
   */
  lemma ClassifyBySuffix(httpMethod: string, path: string)
    ensures Classify(httpMethod, path) == Preflight <==> httpMethod == "OPTIONS"
    ensures httpMethod != "OPTIONS" ==>
      (Classify(httpMethod, path) == Proxy <==> HasSuffix(path, "completions") || HasSuffix(path, "embeddings"))
    ensures httpMethod != "OPTIONS" ==>
      (Classify(httpMethod, path) == CreditGrants <==> HasSuffix(path, "credit_grants"))
    ensures httpMethod != "OPTIONS" ==> (Classify(httpMethod, path) == Models <==> HasSuffix(path, "models"))
    ensures httpMethod != "OPTIONS" ==>
      (Classify(httpMethod, path) == Empty <==>
        !HasSuffix(path, "completions") && !HasSuffix(path, "embeddings")
        && !HasSuffix(path, "credit_grants") && !HasSuffix(path, "models"))
  {
    if HasSuffix(path, "completions") {
      SuffixChar(path, "completions", 2);
      assert path[|path| - 2] == 'n';
    }
    if HasSuffix(path, "embeddings") {
      SuffixChar(path, "embeddings", 2);
      assert path[|path| - 2] == 'g';
    }
    if HasSuffix(path, "credit_grants") {
      SuffixChar(path, "credit_grants", 2);
      assert path[|path| - 2] == 't';
    }
    if HasSuffix(path, "models") {
      SuffixChar(path, "models", 2);
      assert path[|path| - 2] == 'l';
    }
  }

  /** A response body: bytes, or one of the two fixed JSON documents (their contents are not modelled). */
  datatype Body = Bytes(data: string) | CreditGrantsDocument | ModelListDocument

  /** The response the handler produces, and whether the request was forwarded upstream. */
  datatype Reply = Reply(status: int, header: Header, body: Body, proxied: bool)

  /** The response the reverse proxy relays from Azure: status, headers and body. */
  datatype Upstream = Upstream(status: int, header: Header, data: string)

  const CORS_HEADERS: Header := map[
    "Access-Control-Allow-Origin" := ["*"],
    "Access-Control-Allow-Methods" := ["POST, GET, OPTIONS, PUT, DELETE"],
    "Access-Control-Allow-Headers" := ["Content-Type, Authorization"]]

  /** The header gin's c.String writes. */
  const TEXT_PLAIN: Header := map["Content-Type" := ["text/plain; charset=utf-8"]]

  const EVENT_STREAM := "text/event-stream"

  /**
   * The fix-up after proxying: Azure's event streams lack OpenAI's final
   * newline, so exactly one "\n" is appended when, and only when, the
   * response's Content-Type is exactly text/event-stream.
   */
  function StreamFixup(u: Upstream): (r: Reply)
    ensures r.status == u.status && r.header == u.header && r.proxied && r.body.Bytes?
    ensures r.body.data == u.data || r.body.data == u.data + "\n"
    ensures r.body.data == u.data + "\n" <==> HeaderGet(u.header, "Content-Type") == EVENT_STREAM
  {
    if HeaderGet(u.header, "Content-Type") == EVENT_STREAM then Reply(u.status, u.header, Bytes(u.data + "\n"), true)
    else
      assert |u.data| != |u.data + "\n"|;
      Reply(u.status, u.header, Bytes(u.data), true)
  }

  /**
   * The /v1/ handler. An OPTIONS request is answered at once with the CORS
   * headers; otherwise the path's suffix picks the branch: completions and
   * embeddings are proxied (with the newline fix-up applied to `upstream`),
   * credit_grants and models get their fixed documents, anything else an
   * empty 200.
   */
  function HandleV1(httpMethod: string, path: string, upstream: Upstream): (r: Reply)
    ensures httpMethod == "OPTIONS" ==> r == Reply(200, CORS_HEADERS, Bytes(""), false)
    ensures r.proxied <==> httpMethod != "OPTIONS" && (HasSuffix(path, "completions") || HasSuffix(path, "embeddings"))
    ensures r.proxied ==> r == StreamFixup(upstream)
    ensures httpMethod != "OPTIONS" && HasSuffix(path, "credit_grants") ==>
      r == Reply(200, TEXT_PLAIN, CreditGrantsDocument, false)
    ensures httpMethod != "OPTIONS" && HasSuffix(path, "models") ==>
      r == Reply(200, TEXT_PLAIN, ModelListDocument, false)
    ensures (httpMethod != "OPTIONS" && !HasSuffix(path, "completions") && !HasSuffix(path, "embeddings")
             && !HasSuffix(path, "credit_grants") && !HasSuffix(path, "models")) ==>
      r == Reply(200, map[], Bytes(""), false)
  {
    ClassifyBySuffix(httpMethod, path);
    match Classify(httpMethod, path)
    case Preflight => Reply(200, CORS_HEADERS, Bytes(""), false)
    case Proxy => StreamFixup(upstream)
    case CreditGrants => Reply(200, TEXT_PLAIN, CreditGrantsDocument, false)
    case Models => Reply(200, TEXT_PLAIN, ModelListDocument, false)
    case Empty => Reply(200, map[], Bytes(""), false)
  }
}
