/**
 * pkg/azure/proxy.go: the package's settings and their loading at start-up,
 * the `Tokens` credential document, and the director that sends completions
 * and embeddings to Azure OpenAI and everything else to api.openai.com.
 */
module AzureProxy {
  import opened Wrappers
  import opened GoStrings
  import opened Http
  import opened OsEnv
  import opened ModelMapper
  import opened Bearer
  import AzureUrl

  const DEFAULT_API_VERSION := "2023-03-15-preview"

  const API_VERSION_VAR := "AZURE_OPENAI_APIVERSION"
  const ENDPOINT_VAR := "AZURE_OPENAI_ENDPOINT"
  const MODEL_MAPPER_VAR := "AZURE_OPENAI_MODEL_MAPPER"
  const AZURE_TOKEN_VAR := "AZURE_OPENAI_TOKEN"
  const OPENAI_TOKEN_VAR := "OPENAI_TOKEN"

  /** Where every request that is not a completion or an embedding goes. */
  const OPENAI_REMOTE := Endpoint("https", "api.openai.com")

  /** The package-level variables of pkg/azure that the start-up code assigns. */
  class Settings {
    var azureToken: string
    var openAIToken: string
    var apiVersion: string
    var endpoint: string
    var modelMapper: Mapper

    /** The values the variables are declared with. */
    constructor ()
      ensures azureToken == "" && openAIToken == "" && apiVersion == DEFAULT_API_VERSION
      ensures endpoint == "" && modelMapper == DEFAULT_MAPPER
    {
      azureToken := "";
      openAIToken := "";
      apiVersion := DEFAULT_API_VERSION;
      endpoint := "";
      modelMapper := DEFAULT_MAPPER;
    }

    /**
     * `init`: each set variable overrides its setting; the model mapper's
     * entries are written one by one over the current map. `exited` is true
     * when an entry is malformed, where the process exits; the settings are
     * then as far as the loop got.
     */
    method Init(env: Env) returns (exited: bool)
      modifies this
      ensures exited <==> ParseModelMapper(Getenv(env, MODEL_MAPPER_VAR), old(modelMapper)).Failure?
      ensures apiVersion == Override(env, API_VERSION_VAR, old(apiVersion))
      ensures endpoint == Override(env, ENDPOINT_VAR, old(endpoint))
      ensures modelMapper == LoadPairs(MapperEntries(Getenv(env, MODEL_MAPPER_VAR)), old(modelMapper)).mapper
      ensures !exited ==> modelMapper == ParseModelMapper(Getenv(env, MODEL_MAPPER_VAR), old(modelMapper)).value
      ensures azureToken == if exited then old(azureToken) else Override(env, AZURE_TOKEN_VAR, old(azureToken))
      ensures openAIToken == if exited then old(openAIToken) else Override(env, OPENAI_TOKEN_VAR, old(openAIToken))
    {
      apiVersion := Override(env, API_VERSION_VAR, apiVersion);
      endpoint := Override(env, ENDPOINT_VAR, endpoint);
      var v := Getenv(env, MODEL_MAPPER_VAR);
      if v != "" {
        var pairs := Split(v, ',');
        var i := 0;
        while i < |pairs|
          invariant 0 <= i <= |pairs|
          invariant LoadPairs(pairs, old(modelMapper)) == LoadPairs(pairs[i..], modelMapper)
          invariant apiVersion == Override(env, API_VERSION_VAR, old(apiVersion))
          invariant endpoint == Override(env, ENDPOINT_VAR, old(endpoint))
          invariant azureToken == old(azureToken) && openAIToken == old(openAIToken)
        {
          var info := Split(pairs[i], '=');
          assert pairs[i..][0] == pairs[i] && pairs[i..][1..] == pairs[i + 1..];
          if |info| != 2 {
            exited := true;
            return;
          }
          modelMapper := modelMapper[info[0] := info[1]];
          i := i + 1;
        }
      }
      azureToken := Override(env, AZURE_TOKEN_VAR, azureToken);
      openAIToken := Override(env, OPENAI_TOKEN_VAR, openAIToken);
      exited := false;
    }
  }

  /** The `Tokens` struct: the Azure key and the OpenAI key a client may send as its bearer token. */
  datatype Tokens = Tokens(azure: string, openai: string)

  /** The zero value of `Tokens`. */
  const ZERO_TOKENS := Tokens("", "")

  /**
   * `var tokens Tokens; json.Unmarshal([]byte(tokenBody), &tokens)` with the
   * error ignored. `unmarshal` is the decoder: the value it fills in, or None
   * when it fails, which leaves the zero value.
   */
  function DecodedTokens(unmarshal: string -> Option<Tokens>, tokenBody: string): (t: Tokens)
    ensures unmarshal(tokenBody).None? ==> t == ZERO_TOKENS
    ensures unmarshal(tokenBody).Some? ==> t == unmarshal(tokenBody).value
  {
    match unmarshal(tokenBody)
    case Some(decoded) => decoded
    case None => ZERO_TOKENS
  }

  /** The api-key of the Azure branch: the static Azure token, else the `azure` field of the bearer document. */
  function AzureKey(staticToken: string, unmarshal: string -> Option<Tokens>, authorization: string): string {
    if staticToken != "" then staticToken
    else DecodedTokens(unmarshal, StripBearer(authorization)).azure
  }

  /** The bearer token of the OpenAI branch: the static OpenAI token, else the `openai` field of the bearer document. */
  function OpenAIKey(staticToken: string, unmarshal: string -> Option<Tokens>, authorization: string): string {
    if staticToken != "" then staticToken
    else DecodedTokens(unmarshal, StripBearer(authorization)).openai
  }

  /** A static token wins over whatever the request carries, in both branches. */
  lemma StaticTokensWin(s: Settings, unmarshal: string -> Option<Tokens>, authorization: string)
    ensures s.azureToken != "" ==> AzureKey(s.azureToken, unmarshal, authorization) == s.azureToken
    ensures s.openAIToken != "" ==> OpenAIKey(s.openAIToken, unmarshal, authorization) == s.openAIToken
  {
  }

  /** A bearer value the decoder rejects gives an empty key in both branches. */
  lemma UndecodableGivesEmptyKeys(unmarshal: string -> Option<Tokens>, authorization: string)
    requires unmarshal(StripBearer(authorization)).None?
    ensures AzureKey("", unmarshal, authorization) == "" && OpenAIKey("", unmarshal, authorization) == ""
  {
  }

  /** The director's test: the whole URL string, query included, ends in completions or embeddings. */
  predicate IsAzureRequest(originURL: string) {
    HasSuffix(originURL, "completions") || HasSuffix(originURL, "embeddings")
  }

  /** The URL string up to its path: scheme and host, as URL.String writes them. */
  function Head(u: URL): (h: string)
    ensures URLString(u) == h + EscapedPath(u) + (if u.forceQuery || u.rawQuery != "" then "?" + u.rawQuery else "")
  {
    (if u.scheme != "" then u.scheme + ":" else "") + (if u.scheme != "" || u.host != "" then "//" + u.host else "")
  }

  /**
   * A completions or embeddings path goes to Azure when the URL has no query,
   * no trailing '?' and no separately kept encoding of its path.
   */
  lemma PlainPathGoesToAzure(u: URL)
    requires u.rawQuery == "" && !u.forceQuery && u.rawPath == ""
    requires HasSuffix(u.path, "completions") || HasSuffix(u.path, "embeddings")
    ensures IsAzureRequest(URLString(u))
  {
    assert URLString(u) == Head(u) + u.path;
    if HasSuffix(u.path, "completions") {
      SuffixAfter(Head(u), u.path, "completions");
    } else {
      SuffixAfter(Head(u), u.path, "embeddings");
    }
  }

  /**
   * The test reads the escaped path: when the request kept an encoding of its
   * path, that encoding decides, whatever the decoded path ends in (an
   * encoding shorter than "completions" may combine with the host).
   */
  lemma EncodedPathDecides(u: URL)
    requires u.rawQuery == "" && !u.forceQuery
    requires u.rawPath != "" && ValidEncoded(u.rawPath) && Unescape(u.rawPath) == Some(u.path)
    ensures IsAzureRequest(u.rawPath) ==> IsAzureRequest(URLString(u))
    ensures |u.rawPath| >= |"completions"| && !IsAzureRequest(u.rawPath) ==> !IsAzureRequest(URLString(u))
  {
    assert URLString(u) == Head(u) + u.rawPath;
    if HasSuffix(u.rawPath, "completions") {
      SuffixAfter(Head(u), u.rawPath, "completions");
    } else if HasSuffix(u.rawPath, "embeddings") {
      SuffixAfter(Head(u), u.rawPath, "embeddings");
    } else if |u.rawPath| >= |"completions"| {
      SuffixAfterIff(Head(u), u.rawPath, "completions");
      SuffixAfterIff(Head(u), u.rawPath, "embeddings");
    }
  }

  /**
   * An instance of EncodedPathDecides: "/chat/completion%73" decodes to
   * "/chat/completions", yet the request goes to api.openai.com.
   */
  lemma PercentEncodedSuffixGoesToOpenAI()
    ensures !IsAzureRequest(URLString(URL("", "", "/chat/completions", "/chat/completion%73", false, "")))
  {
    var u := URL("", "", "/chat/completions", "/chat/completion%73", false, "");
    EncodedCompletions();
    EncodedPathDecides(u);
  }

  /** "/chat/completion%73" is a valid encoding of "/chat/completions" that does not end in either word. */
  lemma EncodedCompletions()
    ensures ValidEncoded("/chat/completion%73") && Unescape("/chat/completion%73") == Some("/chat/completions")
    ensures !IsAzureRequest("/chat/completion%73")
  {
    ValidCompletionEncoding();
    DecodesToCompletions();
    EndsInDigit("/chat/completion%73");
  }

  /** "/chat/completion%73" decodes to "/chat/completions". */
  lemma DecodesToCompletions()
    ensures Unescape("/chat/completion%73") == Some("/chat/completions")
  {
    var a, b := "/chat/completion", "%73";
    UnescapePlain(a);
    PercentSeventyThree();
    UnescapeConcat(a, b);
    assert a + b == "/chat/completion%73" && a + "s" == "/chat/completions";
  }

  /** A string ending in a digit ends in neither word. */
  lemma EndsInDigit(r: string)
    requires r != [] && '0' <= r[|r| - 1] <= '9'
    ensures !IsAzureRequest(r)
  {
  }

  /** Every character of "/chat/completion%73" may stand in an encoded path. */
  lemma ValidCompletionEncoding()
    ensures ValidEncoded("/chat/completion%73")
  {
  }

  /** "%73" is the encoding of 's'. */
  lemma PercentSeventyThree()
    ensures Unescape("%73") == Some("s")
  {
    var b := "%73";
    assert b[3..] == [] && Unescape(b[3..]) == Some([]);
    assert HexValue(b[1]) == 7 && HexValue(b[2]) == 3;
    assert (HexValue(b[1]) * 16 + HexValue(b[2])) as char == 's';
    assert b[0] == '%' && IsHexDigit(b[1]) && IsHexDigit(b[2]);
    assert Unescape(b) == Some(['s'] + []);
    assert ['s'] + [] == "s";
  }

  /**
   * Because the test reads the full URL, a query string that does not itself
   * end in completions or embeddings sends the request to api.openai.com,
   * whatever its path is.
   */
  lemma QuerySendsToOpenAI(u: URL)
    requires u.rawQuery != ""
    requires !HasSuffix(u.rawQuery, "completions") && !HasSuffix(u.rawQuery, "embeddings")
    ensures !IsAzureRequest(URLString(u))
  {
    var w := Head(u) + EscapedPath(u);
    assert URLString(u) == w + ['?'] + u.rawQuery;
    SuffixStopsAt(w, '?', u.rawQuery, "completions");
    SuffixStopsAt(w, '?', u.rawQuery, "embeddings");
  }

  /** A trailing '?' with an empty query sends the request to api.openai.com. */
  lemma ForceQuerySendsToOpenAI(u: URL)
    requires u.forceQuery && u.rawQuery == ""
    ensures !IsAzureRequest(URLString(u))
  {
    var w := Head(u) + EscapedPath(u);
    assert URLString(u) == w + ['?'];
    assert URLString(u)[|URLString(u)| - 1] == '?';
  }

  /**
   * The director of NewOpenAIReverseProxy, applied to one request. `remote` is
   * the parsed endpoint, `modelOf` reads the "model" field of a JSON body
   * (empty when there is none) and `unmarshal` is the JSON decoder for
   * `Tokens`. A request whose URL ends in completions or embeddings goes to
   * Azure, any other to api.openai.com.
   */
  method Direct(s: Settings, remote: Endpoint, modelOf: string -> string, unmarshal: string -> Option<Tokens>,
                req: Request)
    modifies req
    ensures IsAzureRequest(URLString(old(req.url))) ==>
      var key := AzureKey(s.azureToken, unmarshal, HeaderGet(old(req.header), "Authorization"));
      var deployment := GetDeploymentByModel(s.modelMapper, modelOf(old(req.body)));
      && req.header == HeaderDel(HeaderSet(old(req.header), "api-key", key), "Authorization")
      && HeaderGet(req.header, "api-key") == key && "Authorization" !in req.header
      && req.host == remote.host
      && req.url == AzureUrl.AzureURL(old(req.url), remote.scheme, remote.host, deployment, s.apiVersion)
    ensures !IsAzureRequest(URLString(old(req.url))) ==>
      var key := OpenAIKey(s.openAIToken, unmarshal, HeaderGet(old(req.header), "Authorization"));
      && req.header == HeaderSet(old(req.header), "Authorization", BEARER_PREFIX + key)
      && HeaderGet(req.header, "Authorization") == BEARER_PREFIX + key
      && req.host == OPENAI_REMOTE.host
      && req.url == old(req.url).(scheme := OPENAI_REMOTE.scheme, host := OPENAI_REMOTE.host)
    ensures req.host == req.url.host
    ensures req.httpMethod == old(req.httpMethod) && req.body == old(req.body)
  {
    var originURL := URLString(req.url);
    if HasSuffix(originURL, "completions") || HasSuffix(originURL, "embeddings") {
      DirectToAzure(s.azureToken, s.apiVersion, s.modelMapper, remote, modelOf, unmarshal, req);
    } else {
      DirectToOpenAI(s.openAIToken, unmarshal, req);
    }
  }

  /** The Azure branch of the director: api-key header, deployment path and api-version. */
  method DirectToAzure(azureToken: string, apiVersion: string, modelMapper: Mapper, remote: Endpoint,
                       modelOf: string -> string, unmarshal: string -> Option<Tokens>, req: Request)
    modifies req
    ensures var key := AzureKey(azureToken, unmarshal, HeaderGet(old(req.header), "Authorization"));
      var deployment := GetDeploymentByModel(modelMapper, modelOf(old(req.body)));
      && req.header == HeaderDel(HeaderSet(old(req.header), "api-key", key), "Authorization")
      && HeaderGet(req.header, "api-key") == key && "Authorization" !in req.header
      && req.host == remote.host
      && req.url == AzureUrl.AzureURL(old(req.url), remote.scheme, remote.host, deployment, apiVersion)
    ensures req.httpMethod == old(req.httpMethod) && req.body == old(req.body)
  {
    var body := req.body;
    var model := modelOf(body);
    var deployment := GetDeploymentByModel(modelMapper, model);

    var token := ReadAzureKey(azureToken, unmarshal, HeaderGet(req.header, "Authorization"));

    var header := HeaderSet(req.header, "api-key", token);
    header := HeaderDel(header, "Authorization");
    HeaderDelKeeps(HeaderSet(req.header, "api-key", token), "Authorization", "api-key");
    var url := req.url.(scheme := remote.scheme);
    url := url.(host := remote.host);
    url := url.(path := AzureUrl.DeploymentPath(deployment, url.path));
    url := url.(rawPath := EscapedPath(url));
    url := url.(rawQuery := AzureUrl.WithApiVersion(url.rawQuery, apiVersion));
    req.header, req.host, req.url := header, remote.host, url;
  }

  /**
   * The token block of the Azure branch, step by step: the static Azure token,
   * or the `azure` field of the document the bearer token carries.
   */
  method ReadAzureKey(azureToken: string, unmarshal: string -> Option<Tokens>, authorization: string)
    returns (token: string)
    ensures token == AzureKey(azureToken, unmarshal, authorization)
  {
    token := "";
    if azureToken != "" {
      token := azureToken;
    } else {
      var tokenBody := StripBearer(authorization);
      var tokens := DecodedTokens(unmarshal, tokenBody);
      token := tokens.azure;
    }
  }

  /** The OpenAI branch of the director: api.openai.com and a bearer Authorization header. */
  method DirectToOpenAI(openAIToken: string, unmarshal: string -> Option<Tokens>, req: Request)
    modifies req
    ensures var key := OpenAIKey(openAIToken, unmarshal, HeaderGet(old(req.header), "Authorization"));
      && req.header == HeaderSet(old(req.header), "Authorization", BEARER_PREFIX + key)
      && HeaderGet(req.header, "Authorization") == BEARER_PREFIX + key
      && req.host == OPENAI_REMOTE.host
      && req.url == old(req.url).(scheme := OPENAI_REMOTE.scheme, host := OPENAI_REMOTE.host)
    ensures req.httpMethod == old(req.httpMethod) && req.body == old(req.body)
  {
    var openAI := OPENAI_REMOTE;
    var url := req.url.(scheme := openAI.scheme);
    url := url.(host := openAI.host);

    var token := "";
    if openAIToken != "" {
      token := openAIToken;
    } else {
      var tokenBody := StripBearer(HeaderGet(req.header, "Authorization"));
      var tokens := DecodedTokens(unmarshal, tokenBody);
      token := tokens.openai;
    }

    req.header, req.host, req.url := HeaderSet(req.header, "Authorization", BEARER_PREFIX + token), openAI.host, url;
  }

  /*
   * The `Tokens` document. As declared, the struct's fields are unexported,
   * so encoding/json never writes them and every decode leaves the zero
   * value. The members below model that behaviour and the evidently intended
   * one, where the fields are exported under their JSON names "azure" and
   * "openai".
   */

  /** The decoder as the code is written: a successful decode still leaves the zero value. */
  function UnexportedFieldsUnmarshal(raw: string): (r: Option<Tokens>)
    ensures r.Some? ==> r.value == ZERO_TOKENS
    ensures r.Some? <==> DecodeTokens(raw).Some?
  {
    if DecodeTokens(raw).Some? then Some(ZERO_TOKENS) else None
  }

  /**
   * With a decoder that never fills a field, and no static token, the key
   * sent upstream is always empty, in both branches.
   */
  lemma KeysEmptyWithoutExportedFields(unmarshal: string -> Option<Tokens>, authorization: string)
    requires forall raw :: unmarshal(raw).Some? ==> unmarshal(raw).value == ZERO_TOKENS
    ensures AzureKey("", unmarshal, authorization) == "" && OpenAIKey("", unmarshal, authorization) == ""
  {
    var raw := StripBearer(authorization);
    assert unmarshal(raw).Some? ==> unmarshal(raw).value == ZERO_TOKENS;
  }

  /**
   * The discrepancy: a client that sends `Bearer {"azure":"<key>","openai":"<key>"}`
   * gets empty keys from the code as written, and its own keys from the
   * intended decoder.
   */
  lemma AsWrittenDropsTheKeys(t: Tokens)
    requires PlainText(t.azure) && PlainText(t.openai)
    requires !Contains(t.azure, BEARER_PREFIX) && !Contains(t.openai, BEARER_PREFIX)
    ensures AzureKey("", UnexportedFieldsUnmarshal, BEARER_PREFIX + EncodeTokens(t)) == ""
    ensures OpenAIKey("", UnexportedFieldsUnmarshal, BEARER_PREFIX + EncodeTokens(t)) == ""
    ensures AzureKey("", DecodeTokens, BEARER_PREFIX + EncodeTokens(t)) == t.azure
    ensures OpenAIKey("", DecodeTokens, BEARER_PREFIX + EncodeTokens(t)) == t.openai
  {
    EncodingHasNoBearer(t);
    StripBearerPrefix(EncodeTokens(t));
    DecodeEncode(t);
  }

  /** A JSON string body without quotes or backslashes, which needs no escaping. */
  predicate PlainText(s: string) {
    '"' !in s && '\\' !in s
  }

  const AZURE_FIELD := "{\"azure\":\""
  const OPENAI_FIELD := "\",\"openai\":\""
  const DOCUMENT_END := "\"}"

  /** The compact JSON document for `t` with exported fields. */
  function EncodeTokens(t: Tokens): string {
    AZURE_FIELD + t.azure + OPENAI_FIELD + t.openai + DOCUMENT_END
  }

  /** Splits off the longest leading run of characters that are neither a quote nor a backslash. */
  function ReadPlain(s: string): (r: (string, string))
    ensures r.0 + r.1 == s && PlainText(r.0)
    ensures r.1 == [] || r.1[0] == '"' || r.1[0] == '\\'
  {
    if s == [] || s[0] == '"' || s[0] == '\\' then ([], s)
    else
      var tail := ReadPlain(s[1..]);
      assert s == [s[0]] + s[1..];
      Assoc([s[0]], tail.0, tail.1);
      ([s[0]] + tail.0, tail.1)
  }

  /**
   * The intended decoder, for the compact document `{"azure":"A","openai":"O"}`
   * whose strings need no escaping; anything else is rejected.
   */
  function DecodeTokens(raw: string): Option<Tokens> {
    if !HasPrefix(raw, AZURE_FIELD) then None
    else
      var azure := ReadPlain(raw[|AZURE_FIELD|..]);
      if !HasPrefix(azure.1, OPENAI_FIELD) then None
      else
        var openai := ReadPlain(azure.1[|OPENAI_FIELD|..]);
        if openai.1 == DOCUMENT_END then Some(Tokens(azure.0, openai.0)) else None
  }

  /** Reading plain text stops exactly at the quote that follows it. */
  lemma {:induction false} ReadPlainStops(text: string, rest: string)
    requires PlainText(text) && rest != [] && rest[0] == '"'
    ensures ReadPlain(text + rest) == (text, rest)
    decreases |text|
  {
    var s := text + rest;
    if text == [] {
      assert s == rest;
    } else {
      ReadPlainStops(text[1..], rest);
      assert s[0] == text[0] && s[1..] == text[1..] + rest;
      assert [text[0]] + text[1..] == text;
    }
  }

  /** Decoding the encoding of plain tokens gives them back. */
  lemma DecodeEncode(t: Tokens)
    requires PlainText(t.azure) && PlainText(t.openai)
    ensures DecodeTokens(EncodeTokens(t)) == Some(t)
  {
    var raw := EncodeTokens(t);
    var afterAzure := OPENAI_FIELD + t.openai + DOCUMENT_END;
    assert raw == AZURE_FIELD + (t.azure + afterAzure);
    assert raw[..|AZURE_FIELD|] == AZURE_FIELD;
    assert raw[|AZURE_FIELD|..] == t.azure + afterAzure;
    ReadPlainStops(t.azure, afterAzure);
    assert afterAzure[..|OPENAI_FIELD|] == OPENAI_FIELD;
    assert afterAzure[|OPENAI_FIELD|..] == t.openai + DOCUMENT_END;
    ReadPlainStops(t.openai, DOCUMENT_END);
  }

  /** Whatever the decoder accepts is the encoding of what it returns, with plain fields. */
  lemma EncodeDecode(raw: string)
    requires DecodeTokens(raw).Some?
    ensures var t := DecodeTokens(raw).value;
      PlainText(t.azure) && PlainText(t.openai) && EncodeTokens(t) == raw
  {
    var azure := ReadPlain(raw[|AZURE_FIELD|..]);
    var openai := ReadPlain(azure.1[|OPENAI_FIELD|..]);
    assert DecodeTokens(raw) == Some(Tokens(azure.0, openai.0));
    PrefixSplit(raw, AZURE_FIELD);
    PrefixSplit(azure.1, OPENAI_FIELD);
    assert openai.1 == DOCUMENT_END;
    Assoc(OPENAI_FIELD, openai.0, DOCUMENT_END);
    Assoc(azure.0, OPENAI_FIELD + openai.0, DOCUMENT_END);
    Assoc(azure.0, OPENAI_FIELD, openai.0);
    ConcatAssoc(AZURE_FIELD, azure.0 + OPENAI_FIELD, openai.0, DOCUMENT_END);
    Assoc(AZURE_FIELD, azure.0, OPENAI_FIELD);
  }

  /** A string with a prefix is that prefix followed by the rest. */
  lemma PrefixSplit(s: string, p: string)
    requires HasPrefix(s, p)
    ensures s == p + s[|p|..]
  {
  }

  /** The encoding of tokens free of "Bearer " holds no "Bearer " either: each literal piece lacks a 'B'. */
  lemma EncodingHasNoBearer(t: Tokens)
    requires !Contains(t.azure, BEARER_PREFIX) && !Contains(t.openai, BEARER_PREFIX)
    ensures !Contains(EncodeTokens(t), BEARER_PREFIX)
  {
    var q := '"';
    assert q !in BEARER_PREFIX;
    var head := AZURE_FIELD[..|AZURE_FIELD| - 1];
    var middle := OPENAI_FIELD[1..|OPENAI_FIELD| - 1];
    var end := DOCUMENT_END[1..];
    assert AZURE_FIELD == head + [q] && OPENAI_FIELD == [q] + middle + [q] && DOCUMENT_END == [q] + end;
    LacksFirstChar(head, BEARER_PREFIX);
    LacksFirstChar(middle, BEARER_PREFIX);
    LacksFirstChar(end, BEARER_PREFIX);
    AbsentAcross(head, q, t.azure, BEARER_PREFIX);
    var s1 := head + [q] + t.azure;
    AbsentAcross(s1, q, middle, BEARER_PREFIX);
    var s2 := s1 + [q] + middle;
    AbsentAcross(s2, q, t.openai, BEARER_PREFIX);
    var s3 := s2 + [q] + t.openai;
    AbsentAcross(s3, q, end, BEARER_PREFIX);
    assert s3 + [q] + end == EncodeTokens(t);
  }
}
