# azure-openai-proxy, modelled in Dafny

azure-openai-proxy is a reverse proxy for clients written against the OpenAI HTTP API. For each request it picks a
backend and resolves a credential. It then rewrites the request's host, scheme, path, query string and
authentication headers, and forwards it to Azure OpenAI (or, in `pkg/azure`, to api.openai.com). This project
models the two variants of that core:

- `main.go`:
  - The package variables and their loading from the environment at start-up (`init`).
  - The director of `NewOpenAIReverseProxy`, with its credential forms `Bearer <key>` and
    `Bearer <key>@<host>[@<deployment>]`.
  - `GetDeploymentByModel`.
  - The `/v1/*path` handler: OPTIONS preflight, suffix routing, and the event-stream newline fix-up.
- `pkg/azure/proxy.go`:
  - Its own start-up code: API version, endpoint, model mapper and two tokens (Azure and OpenAI). It has no
    address setting.
  - A director that sends completions and embeddings to Azure and everything else to api.openai.com, reading a
    JSON `Tokens` document from the bearer token.

The Go library behaviour the directors depend on is modelled in small modules of its own:

| module | models |
|---|---|
| `GoStrings` | `strings.Split`, `Join`, `ReplaceAll`, `Replace(..., 1)`, `HasSuffix`, `Contains` |
| `GoPath` | `path.Join` / `path.Clean`: element splitting, "." and ".." resolution, single slashes |
| `OsEnv` | `os.Getenv` |
| `Http` | `http.Header`, `url.Values` and the raw query, the URL with `RawPath`, `ForceQuery` and `EscapedPath`, and the request object |

The remaining modules hold the core:

| module | holds |
|---|---|
| `ModelMapper` | model-to-deployment resolution and the parsing of `AZURE_OPENAI_MODEL_MAPPER` |
| `Bearer` | the `"Bearer "` clean-up |
| `AzureUrl` | the `/openai/deployments/<deployment>` path and the `api-version` parameter |
| `MainProxy` | `main.go` |
| `AzureProxy` | `pkg/azure/proxy.go` |

Each file's package variables form a `Settings` class. Its `Init` method updates them in place the way `init`
does, including the loop that writes the mapper entries one at a time. The request is an `Http.Request` object,
and each director is a method that changes it in place. Every imperative step is proved against a specification
function: `ResolveCredential`, `GetDeploymentByModel`, `AzureUrl.DeploymentPath`, `AzureUrl.WithApiVersion`,
`LoadPairs`/`ParseModelMapper`, `AzureKey`/`OpenAIKey`.

Behaviour of the code worth noting:

- The `Authorization` header is cleaned with `strings.ReplaceAll`. Every `"Bearer "` in it is removed, not only a
  leading one (`Bearer.StripBearerInside`).
- In `pkg/azure/proxy.go` the backend test reads the whole URL string, query included, not the path.
  `AzureProxy.QuerySendsToOpenAI` shows that a query string sends a completions path to api.openai.com, and
  `AzureProxy.ForceQuerySendsToOpenAI` that a bare trailing '?' does the same.
- The URL string holds the escaped path. A client encoding such as `/chat/completion%73` is kept as `RawPath`, so
  the test reads it and the request goes to api.openai.com (`AzureProxy.PercentEncodedSuffixGoesToOpenAI`).
- `path.Join` resolves "." and "..". A path `/v1/../../<rest>` reaches `/openai/<rest>`
  (`AzureUrl.DotDotLeavesDeployment`), and so does the deployment ".." that the `token@host@deployment` header
  form can carry (`AzureUrl.DotDotDeployment`).
- In `pkg/azure/proxy.go`, when the bearer value is not a JSON document, the key is the empty string. The raw
  bearer string is never used as a fallback.
- With the `Tokens` struct as declared, the JSON form yields empty keys, not the keys in the document. See
  "## Findings".
- `token_body` is assigned without being declared in `pkg/azure/proxy.go`. It is modelled as a fresh local in
  each branch.

## Model

| member | source | states |
|---|---|---|
| GoStrings.Count | main.go:156 | The number of occurrences of a character is positive exactly when the character occurs, and at most the length. |
| GoStrings.Split | main.go:117-118 | `strings.Split` on a character gives one more piece than there are separators, and no piece holds the separator. |
| GoStrings.SplitJoin | main.go:157 | Joining the pieces of a split with the separator gives back the original string. |
| GoStrings.JoinSplit | main.go:157 | Splitting a join of separator-free pieces gives back those pieces. |
| GoStrings.SplitLeadingPieces | main.go:157-163 | A string holding the separator splits into at least two pieces: with one separator it is `p0 sep p1`; with more it starts with `p0 sep p1 sep p2`. |
| GoStrings.SplitAtSeparator | main.go:157 | A separator-free head followed by the separator becomes the first piece, and the rest splits as before. |
| GoStrings.SplitThreeFields | main.go:157-163 | `a@b@c` followed by nothing or by further `@` fields splits with `a`, `b`, `c` as its first three pieces. |
| GoStrings.ReplaceAllAbsent | main.go:155 | `ReplaceAll` leaves a string that does not contain the pattern unchanged. |
| GoStrings.ReplaceAllAtFirst | main.go:155 | `ReplaceAll` keeps the text before the first occurrence, writes the replacement, and goes on after the occurrence. |
| GoStrings.ReplaceFirstAtFirst | main.go:172 | `Replace(..., 1)` replaces exactly the first occurrence and keeps the rest of the string verbatim. |
| GoStrings.ReplaceFirstAbsent | main.go:172 | `Replace(..., 1)` leaves a string without the pattern unchanged. |
| GoStrings.ContainsChar | main.go:156 | `strings.Contains(s, "@")` holds exactly when the character occurs in `s`. |
| GoPath.ResolveKept | main.go:172 | Clean's element walk keeps only non-empty, slash-free elements other than "."; under a root it keeps no "..". |
| GoPath.CleanShape | main.go:172 | `path.Clean` never returns "", returns a rooted path exactly for a rooted input, leaves no double slash and no trailing slash except in "/". |
| GoPath.JoinedShape | main.go:172 | Joining kept elements with single slashes gives a string with no double slash, no leading or trailing slash. |
| GoPath.ResolveConcat | main.go:172 | Resolving two runs of elements is resolving the first and then the second from where the first left off. |
| GoPath.ResolvePlain | main.go:172 | Plain elements (not empty, no slash, not "." or "..") are all kept, in order. |
| GoPath.ResolveKeeps | main.go:172 | Elements without ".." never remove what was kept before them. |
| GoPath.ResolveDotDot | main.go:172 | A ".." removes the plain element just before it. |
| GoPath.JoinRooted | main.go:172 | `path.Join` of a rooted base and any path is the root followed by the elements of both, resolved left to right. |
| GoPath.JoinSegment | main.go:172 | `path.Join(/base, "/" + rest)` for plain base elements and a rest of plain elements is `/base/rest`. |
| GoPath.JoinKeepsBase | main.go:172 | For a path without "..", the joined result begins with the base at an element boundary. |
| GoPath.JoinClimbsTwo | main.go:172 | Two ".." after a base ending in two plain elements remove both: the rest is joined under what precedes them. |
| GoPath.JoinAfterDotDot | main.go:172 | A base whose last element is ".." loses it and the element before it. |
| OsEnv.Override | main.go:105-115 | A non-empty environment variable replaces the setting; an unset or empty one keeps it. |
| Http.HeaderSet | main.go:167 | After `Header.Set`, the name holds exactly the one value and `Get` returns it. |
| Http.HeaderDel | main.go:168 | After `Header.Del`, the name is absent and `Get` returns "". |
| Http.HeaderSetKeeps | pkg/azure/proxy.go:128 | `Header.Set` leaves every other name's presence and values unchanged. |
| Http.HeaderDelKeeps | main.go:168 | `Header.Del` leaves every other name's presence and values unchanged. |
| Http.QueryAddValues | main.go:177 | `Values.Add` appends the value to its key's list and leaves every other key's list unchanged. |
| Http.CutAtEquals | main.go:176 | A query item is cut at its first '=': the key holds no '=', and key, "=" and value give the item back. |
| Http.CutKnown | main.go:176 | Cutting `k=v` with an '='-free `k` gives back `k` and `v`. |
| Http.ParseQueryWellFormed | main.go:176 | Every item parsed from a raw query is well formed: no '&' or ';' anywhere, and no '=' in its key. |
| Http.ParseEncodeItems | main.go:178 | Parsing the encoded items of a well-formed query gives back the query. |
| Http.ParseEncode | main.go:176-178 | Parsing the encoding of a well-formed query gives back its items: `ParseQuery(Encode(q)) == q`. |
| Http.AddToRawQueryValues | main.go:176-178 | After Query/Add/Encode, the key's values gain the new value at the end and every other key keeps its values. |
| Http.EscapedPath | pkg/azure/proxy.go:78 | The escaped path is the raw path exactly when the raw path is set, validly encoded and decodes to the path; otherwise it is the path. |
| Http.RefreshRawPath | main.go:173 | `RawPath = EscapedPath()` changes neither the escaped path nor the URL string; the raw path becomes the path unless the client's encoding still decodes to it. |
| Http.UnescapeConcat | pkg/azure/proxy.go:78 | Decoding two valid encodings one after the other decodes each part. |
| Http.UnescapePlain | pkg/azure/proxy.go:78 | A string without '%' decodes to itself. |
| ModelMapper.StripDotsAndColons | main.go:28 | Deleting `[.:]` leaves no '.' or ':', keeps the other characters in order and keeps each one's count. |
| ModelMapper.StripIdentity | main.go:190 | A model without '.' or ':' is its own fallback name. |
| ModelMapper.StripIdempotent | main.go:190 | Applying the fallback twice is the same as applying it once. |
| ModelMapper.GetDeploymentByModel | main.go:185-191 | A mapped model gets exactly its deployment; an unmapped model gets its fallback name, free of '.' and ':' and with the same other characters. |
| ModelMapper.FallbackStable | pkg/azure/proxy.go:135-141 | The fallback deployment of an unmapped model is stable under the fallback. |
| ModelMapper.Entry | main.go:118-123 | An entry is accepted exactly when it holds a single '=', and then it is `model=deployment` with both parts free of '='. |
| ModelMapper.LoadPairsValid | main.go:116-125 | With every entry valid, the loop completes, and each key holds the deployment of its last entry, or its earlier value. |
| ModelMapper.LoadPairsInvalid | main.go:117-122 | The loop stops exactly when an entry has no '=' or several, and it stops at the first such entry. |
| ModelMapper.ParseModelMapperFails | pkg/azure/proxy.go:39-48 | Start-up fails exactly when some entry is malformed, and it reports the first malformed one. |
| ModelMapper.ParseModelMapperContents | main.go:24-27 | A successful parse keeps the defaults and overlays the entries; the last entry for a key wins. |
| Bearer.StripBearerAbsent | main.go:155 | A header value without "Bearer " is used as it is. |
| Bearer.StripBearerPrefix | main.go:155 | `Bearer <credential>` yields the credential. |
| Bearer.StripBearerInside | pkg/azure/proxy.go:93 | A "Bearer " in the middle of the value is removed as well. |
| AzureUrl.DeploymentPathShape | main.go:172 | The outbound path is rooted, has no double slash and no trailing slash; for a plain deployment name (not empty, no slash, not "." or "..") and a path without ".." it starts with /openai/deployments/<deployment> at an element boundary. |
| AzureUrl.DeploymentPathV1 | main.go:172 | `/v1/<rest>` is joined as `/<rest>` under the base elements openai, deployments, <deployment>. |
| AzureUrl.DeploymentPathForV1 | main.go:172 | For a plain deployment name and a rest of plain elements, `/v1/<rest>` becomes `/openai/deployments/<deployment>/<rest>`. |
| AzureUrl.DotDotLeavesDeployment | main.go:172 | `/v1/../../<rest>` leaves the deployments directory: it becomes `/openai/<rest>`. |
| AzureUrl.DotDotDeployment | main.go:163-172 | The deployment ".." turns `/v1/<rest>` into `/openai/<rest>`. |
| AzureUrl.StripV1 | pkg/azure/proxy.go:103 | Replacing the first "/v1/" of `/v1/<rest>` gives `/<rest>`. |
| AzureUrl.DeploymentPathWithoutV1 | main.go:172 | A path without "/v1/" is joined under the deployment unchanged. |
| AzureUrl.DeploymentPathFirstV1 | pkg/azure/proxy.go:103 | Only the first "/v1/" is rewritten; later occurrences stay. |
| AzureUrl.WithApiVersionValues | pkg/azure/proxy.go:107-109 | The configured version is added after any api-version the client sent; every other parameter keeps its values. |
| MainProxy.Settings.constructor | main.go:19-28 | The settings start at address 0.0.0.0:8080, API version 2023-03-15-preview, no token, no endpoint and the two default model mappings. |
| MainProxy.Settings.Init | main.go:103-135 | Address, API version and endpoint are overridden by set variables. The mapper gets the entries up to the first malformed one. Start-up exits exactly when the mapper value is malformed. Otherwise the token is overridden too. |
| MainProxy.ResolveCredential | main.go:148-165 | A static token wins, with the endpoint's host and the mapped deployment; otherwise the cleaned Authorization header decides. |
| MainProxy.FromHeader | main.go:156-164 | A header value without '@' is the token itself, with the endpoint's host and the mapped deployment. |
| MainProxy.CompoundCredential | main.go:156-164 | For a value with '@', token and host are its first two fields. A third field replaces the deployment and is followed by the end or an '@'; further fields are ignored. |
| MainProxy.TokenAtHost | main.go:157-159 | `token@host` gives that token and host and keeps the mapped deployment. |
| MainProxy.TokenAtHostAtDeployment | main.go:157-163 | `token@host@deployment[@...]` gives that token, host and deployment. |
| MainProxy.BearerCompoundHeader | main.go:155-163 | The header `Bearer key@host@deployment` resolves to that key, host and deployment. |
| MainProxy.ReadCredential | main.go:148-165 | The step-by-step credential block computes exactly `ResolveCredential`. |
| MainProxy.Direct | main.go:137-183 | The director sets api-key to the resolved token and removes Authorization. Host and URL host become the resolved host, the scheme becomes the endpoint's, the path becomes the deployment path with RawPath refreshed from it, the trailing-'?' flag is kept, and the query gains api-version. Method and body are unchanged. |
| MainProxy.ClassifyBySuffix | main.go:203-229 | OPTIONS is preflight. Otherwise each branch is taken exactly when its own suffix is present, so the order of the tests does not matter. |
| MainProxy.StreamFixup | main.go:218-222 | Exactly one "\n" is appended when, and only when, the upstream Content-Type is text/event-stream; status and headers pass through. |
| MainProxy.HandleV1 | main.go:201-230 | OPTIONS gets 200 with the CORS headers. Completions and embeddings are proxied with the fix-up; credit_grants and models get their documents; anything else gets an empty 200. |
| AzureProxy.Settings.constructor | pkg/azure/proxy.go:20-30 | The settings start with no tokens, API version 2023-03-15-preview, no endpoint and the two default model mappings. |
| AzureProxy.Settings.Init | pkg/azure/proxy.go:32-63 | API version and endpoint are overridden by set variables (this file has no address setting). The mapper gets the entries up to the first malformed one, and start-up exits exactly when the mapper value is malformed. Both tokens are overridden only when start-up does not exit. |
| AzureProxy.DecodedTokens | pkg/azure/proxy.go:92-94 | A failed decode leaves the zero-value `Tokens`; a successful one gives the decoded value. |
| AzureProxy.StaticTokensWin | pkg/azure/proxy.go:89-125 | A configured Azure or OpenAI token is the key of its branch, whatever the request carries. |
| AzureProxy.UndecodableGivesEmptyKeys | pkg/azure/proxy.go:92-125 | Without static tokens, a bearer value the decoder rejects gives an empty key in both branches. |
| AzureProxy.Head | pkg/azure/proxy.go:78 | The URL string is the scheme and host part, the escaped path, then '?' and the query when there is a query or a trailing '?'. |
| AzureProxy.PlainPathGoesToAzure | pkg/azure/proxy.go:78-79 | A completions or embeddings path goes to Azure when the URL has no query, no trailing '?' and no kept encoding of its path. |
| AzureProxy.EncodedPathDecides | pkg/azure/proxy.go:78-79 | With a kept encoding of the path, the encoding's suffix decides: ending in either word sends to Azure, and an encoding as long as "completions" ending in neither sends to api.openai.com. |
| AzureProxy.PercentEncodedSuffixGoesToOpenAI | pkg/azure/proxy.go:78-79 | The path /chat/completions sent as /chat/completion%73 goes to api.openai.com. |
| AzureProxy.ForceQuerySendsToOpenAI | pkg/azure/proxy.go:78-79 | A URL ending in a bare '?' goes to api.openai.com. |
| AzureProxy.QuerySendsToOpenAI | pkg/azure/proxy.go:78-79 | A query string not ending in those words sends the request to api.openai.com, whatever the path. |
| AzureProxy.Direct | pkg/azure/proxy.go:70-133 | The director dispatches on the URL's suffix and performs exactly the Azure or the OpenAI rewrite; request Host equals URL host; method and body are unchanged. |
| AzureProxy.ReadAzureKey | pkg/azure/proxy.go:86-96 | The step-by-step token block computes exactly `AzureKey`: the static Azure token, else the `azure` field of the decoded bearer document. |
| AzureProxy.DirectToAzure | pkg/azure/proxy.go:80-111 | api-key is the Azure key and Authorization is removed. Host, scheme and URL host become the endpoint's, the path becomes the deployment path with RawPath refreshed from it, the trailing-'?' flag is kept, and the query gains api-version. |
| AzureProxy.DirectToOpenAI | pkg/azure/proxy.go:112-131 | The host and scheme become api.openai.com's, Authorization becomes `Bearer <OpenAI key>`, path and query are unchanged. |
| AzureProxy.UnexportedFieldsUnmarshal | pkg/azure/proxy.go:65-68 | With unexported fields, a decode succeeds exactly when the model's decoder accepts the document, and always yields the zero value. |
| AzureProxy.KeysEmptyWithoutExportedFields | pkg/azure/proxy.go:92-95 | With a decoder that fills no field and no static token, both keys sent upstream are empty. |
| AzureProxy.AsWrittenDropsTheKeys | pkg/azure/proxy.go:122-125 | For `Bearer {"azure":..,"openai":..}`, the code as written sends empty keys, and the intended decoder sends the client's keys. |
| AzureProxy.ReadPlain | pkg/azure/proxy.go:94 | The text read is escape-free, the text and the rest give back the input, and the rest starts at a quote, a backslash or the end. |
| AzureProxy.DecodeEncode | pkg/azure/proxy.go:94 | Decoding the encoding of plain tokens gives them back. |
| AzureProxy.EncodeDecode | pkg/azure/proxy.go:94 | Whatever the decoder accepts is the encoding of the tokens it returns. |
| AzureProxy.EncodingHasNoBearer | pkg/azure/proxy.go:93 | The JSON document of "Bearer "-free tokens holds no "Bearer ", so the clean-up leaves it intact. |

## Left out

- The gin server is not modelled: `gin.Default`, `r.Run(Address)` and the routes "/" and "/health", which only
  answer 200. Only the `/v1/*path` handler's decisions are modelled (`MainProxy.HandleV1`).
- `httputil.ReverseProxy` forwarding, streaming and the response relay are not modelled. The upstream response
  enters `HandleV1` as a value. Failures of the fix-up write are only logged by the source.
- Parsing of `AZURE_OPENAI_ENDPOINT` with `url.Parse` is not modelled. The parsed scheme and host are a
  parameter (`Endpoint`). The exit on a parse error in `pkg/azure/proxy.go:71-75` is not modelled either. In
  `main.go` the director discards the parse error, so an endpoint that does not parse leaves `remote` nil and
  every proxied request panics when it reads `remote.Host`; the model always has an endpoint and does not show
  this failure.
- Logging is left out. `os.Exit(1)` during start-up is the `exited` result of `Init`.
- The JSON readers are function parameters: the gjson `model` lookup (`modelOf`) and `json.Unmarshal`
  (`unmarshal`). The bodies of the two fixed JSON documents are opaque constructors.
- Body buffering (`ioutil.ReadAll`/`NopCloser`) is not modelled; the body is a string that the directors read and
  do not change.
- `url.URL` (net/url) is not part of this repository; its `String` and `EscapedPath` are modelled for the fields the
  directors touch. `EscapedPath` falls back to the path as it is, without percent-encoding it. Encoding only adds
  '%' and upper-case hex digits, so whether the string ends in "completions" or "embeddings" is unaffected. User
  info, fragments and the '/' that `String` inserts between a host and a relative path are not modelled.
- `Http.EscapedPath`: when the raw path is not a valid encoding of the path, the fallback returns the path as it is;
  net/url percent-encodes it first.
- Strings are sequences of characters, not bytes: non-ASCII paths and their UTF-8 percent-encoding are not modelled.
- `Http.AddToRawQueryValues`: `url.Values.Encode` sorts keys and percent-encodes them, and `ParseQuery` percent-decodes.
  The model keeps the items in order of appearance and does no escaping, so its promise is only about the value
  lists per key, for well-formed items.
- `AzureUrl.WithApiVersionValues`: stated only for an API version without '&' or ';'. A configured version holding
  them would be split into several items when the query is parsed again.
- Header names are kept as written; `http.Header`'s canonicalisation of names is not modelled.
- `AzureProxy.DecodeTokens`: the intended JSON decoder handles only the compact document with escape-free strings,
  not whitespace, escapes, other field orders or extra fields.
- The package `pkg/openai` is not part of this model.
- The log loops over the model mapper at the end of `init` are left out.

## Findings

| source | as written | input that shows it | evidently intended | confidence | as-written member | corrected member |
|---|---|---|---|---|---|---|
| pkg/azure/proxy.go:65-68 | The fields of `Tokens` are unexported, so `json.Unmarshal` never sets them. In both branches the key taken from the bearer document is always the empty string. | `Authorization: Bearer {"azure":"k1","openai":"k2"}` with no static tokens sends `api-key:` (empty) to Azure and `Authorization: Bearer ` to OpenAI. | The fields are exported under the JSON names "azure" and "openai", so the keys are `k1` and `k2`. | not executed | AzureProxy.AsWrittenDropsTheKeys | AzureProxy.DecodeEncode |
