/**
 * The parts of Go's net/http and net/url request model that the proxy's
 * directors read and change: header maps, the query string as url.Values,
 * the URL and the request object itself.
 */
module Http {
  import opened GoStrings
  import opened Wrappers

  /** http.Header: each header name to its list of values. */
  type Header = map<string, seq<string>>

  /** Header.Get: the first value under `name`, or "" when there is none. */
  function HeaderGet(h: Header, name: string): string {
    if name in h && |h[name]| > 0 then h[name][0] else ""
  }

  /** Header.Set: `name` now holds exactly the single value `v`; HeaderSetKeeps shows the other names are untouched. */
  function HeaderSet(h: Header, name: string, v: string): (r: Header)
    ensures name in r && r[name] == [v] && HeaderGet(r, name) == v
  {
    h[name := [v]]
  }

  /** Header.Del: `name` is gone; HeaderDelKeeps shows the other names are untouched. */
  function HeaderDel(h: Header, name: string): (r: Header)
    ensures name !in r && HeaderGet(r, name) == ""
  {
    h - {name}
  }

  /** Setting one name leaves every other name as it was. */
  lemma HeaderSetKeeps(h: Header, name: string, v: string, k: string)
    requires k != name
    ensures var r := HeaderSet(h, name, v);
      (k in r <==> k in h) && (k in h ==> r[k] == h[k]) && HeaderGet(r, k) == HeaderGet(h, k)
  {
  }

  /** Deleting one name leaves every other name as it was. */
  lemma HeaderDelKeeps(h: Header, name: string, k: string)
    requires k != name
    ensures var r := HeaderDel(h, name);
      (k in r <==> k in h) && (k in h ==> r[k] == h[k]) && HeaderGet(r, k) == HeaderGet(h, k)
  {
  }

  /** One `key=value` item of a query string, already split. */
  datatype QueryPair = QueryPair(key: string, value: string)

  /**
   * url.Values as the items of a query string in order of appearance. The
   * values of one key are `QueryValues(q, key)`, in the order Go keeps them.
   */
  type Query = seq<QueryPair>

  /** url.Values.Get-all: the values listed under `key`, in order. */
  function QueryValues(q: Query, key: string): seq<string> {
    if q == [] then []
    else (if q[0].key == key then [q[0].value] else []) + QueryValues(q[1..], key)
  }

  /** url.Values.Add: appends `value` to the list of `key`. */
  function QueryAdd(q: Query, key: string, value: string): Query {
    q + [QueryPair(key, value)]
  }

  /** Adding to one key appends to that key's list and leaves every other key's list alone. */
  lemma {:induction false} QueryAddValues(q: Query, key: string, value: string, k: string)
    ensures QueryValues(QueryAdd(q, key, value), k)
         == QueryValues(q, k) + (if k == key then [value] else [])
    decreases |q|
  {
    var q' := QueryAdd(q, key, value);
    if q == [] {
      assert q'[1..] == [];
    } else {
      assert q'[0] == q[0] && q'[1..] == QueryAdd(q[1..], key, value);
      QueryAddValues(q[1..], key, value, k);
      Assoc(if q[0].key == k then [q[0].value] else [], QueryValues(q[1..], k),
            if k == key then [value] else []);
    }
  }

  /**
   * strings.Cut(item, "="): the text before the first '=' is the key and the
   * text after it the value; without '=', the whole item is the key.
   */
  function CutAtEquals(item: string): (p: QueryPair)
    ensures '=' !in p.key
    ensures '=' in item ==> item == p.key + "=" + p.value
    ensures '=' !in item ==> p == QueryPair(item, "")
  {
    if item == [] then QueryPair("", "")
    else if item[0] == '=' then QueryPair("", item[1..])
    else
      var rest := CutAtEquals(item[1..]);
      QueryPair([item[0]] + rest.key, rest.value)
  }

  /** Cutting `k=v` with `k` free of '=' gives back `k` and `v`. */
  lemma {:induction false} CutKnown(k: string, v: string)
    requires '=' !in k
    ensures CutAtEquals(k + "=" + v) == QueryPair(k, v)
    decreases |k|
  {
    var item := k + "=" + v;
    if k == [] {
      assert item[0] == '=' && item[1..] == v;
    } else {
      Assoc([k[0]], k[1..], "=" + v);
      assert [k[0]] + k[1..] == k;
      assert item[0] == k[0] && item[1..] == k[1..] + "=" + v;
      CutKnown(k[1..], v);
    }
  }

  /**
   * url.ParseQuery's loop over the '&'-separated items: empty items and items
   * holding ';' are skipped, the rest are cut at their first '='.
   */
  function ParseItems(items: seq<string>): Query {
    if items == [] then []
    else
      (if items[0] == "" || ';' in items[0] then [] else [CutAtEquals(items[0])])
      + ParseItems(items[1..])
  }

  /** url.ParseQuery (without percent-decoding), as req.URL.Query() uses it. */
  function ParseQuery(raw: string): Query {
    ParseItems(Split(raw, '&'))
  }

  /** An item that a query string can carry and give back unchanged. */
  predicate WellFormedPair(p: QueryPair) {
    '&' !in p.key && ';' !in p.key && '=' !in p.key && '&' !in p.value && ';' !in p.value
  }

  predicate WellFormed(q: Query) {
    forall i :: 0 <= i < |q| ==> WellFormedPair(q[i])
  }

  /** Every item parsed from a query string is well formed. */
  lemma {:induction false} ParseItemsWellFormed(items: seq<string>)
    requires forall i :: 0 <= i < |items| ==> '&' !in items[i]
    ensures WellFormed(ParseItems(items))
    decreases |items|
  {
    if items != [] {
      ParseItemsWellFormed(items[1..]);
      var rest := ParseItems(items[1..]);
      if items[0] != "" && ';' !in items[0] {
        var p := CutAtEquals(items[0]);
        if '=' in items[0] {
          assert items[0] == p.key + "=" + p.value;
          assert forall c :: c in p.key ==> c in items[0];
          assert forall c :: c in p.value ==> c in items[0];
        }
        assert WellFormedPair(p);
        assert ParseItems(items) == [p] + rest;
      }
    }
  }

  lemma ParseQueryWellFormed(raw: string)
    ensures WellFormed(ParseQuery(raw))
  {
    ParseItemsWellFormed(Split(raw, '&'));
  }

  /** One item written back as `key=value`. */
  function EncodePair(p: QueryPair): string {
    p.key + "=" + p.value
  }

  /** The items of `q`, each written as `key=value`. */
  function EncodeItems(q: Query): (items: seq<string>)
    ensures |items| == |q|
  {
    seq(|q|, i requires 0 <= i < |q| => EncodePair(q[i]))
  }

  /**
   * url.Values.Encode without percent-encoding: the items as `key=value`
   * joined with '&', in the order of `q`.
   */
  function EncodeQuery(q: Query): string {
    if q == [] then "" else Join(EncodeItems(q), '&')
  }

  /** An encoded well-formed item holds no '&' and parses back to itself. */
  lemma ParseItemsEncoded(p: QueryPair, rest: seq<string>)
    requires WellFormedPair(p)
    ensures '&' !in EncodePair(p)
    ensures ParseItems([EncodePair(p)] + rest) == [p] + ParseItems(rest)
  {
    var item := EncodePair(p);
    assert '&' !in item && ';' !in item && item != "";
    CutKnown(p.key, p.value);
    var items := [item] + rest;
    assert items[0] == item && items[1..] == rest;
  }

  /** Parsing the encoded items one by one gives back the query. */
  lemma {:induction false} ParseEncodeItems(q: Query)
    requires WellFormed(q)
    ensures ParseItems(EncodeItems(q)) == q
    ensures forall i :: 0 <= i < |q| ==> '&' !in EncodeItems(q)[i]
    decreases |q|
  {
    if q != [] {
      ParseEncodeItems(q[1..]);
      ParseItemsEncoded(q[0], EncodeItems(q[1..]));
      assert EncodeItems(q) == [EncodePair(q[0])] + EncodeItems(q[1..]);
      assert [q[0]] + q[1..] == q;
    }
  }

  /** Parsing an encoded query gives back its items. */
  lemma ParseEncode(q: Query)
    requires WellFormed(q)
    ensures ParseQuery(EncodeQuery(q)) == q
  {
    if q == [] {
      assert Split("", '&') == [""];
    } else {
      ParseEncodeItems(q);
      JoinSplit(EncodeItems(q), '&');
    }
  }

  /** `query := req.URL.Query(); query.Add(key, value); req.URL.RawQuery = query.Encode()`. */
  function AddToRawQuery(raw: string, key: string, value: string): string {
    EncodeQuery(QueryAdd(ParseQuery(raw), key, value))
  }

  /**
   * After AddToRawQuery, the values of `key` gain `value` at the end, and
   * every other key keeps its values.
   */
  lemma AddToRawQueryValues(raw: string, key: string, value: string)
    requires WellFormedPair(QueryPair(key, value))
    ensures forall k :: QueryValues(ParseQuery(AddToRawQuery(raw, key, value)), k)
                     == QueryValues(ParseQuery(raw), k) + (if k == key then [value] else [])
  {
    var q := QueryAdd(ParseQuery(raw), key, value);
    ParseQueryWellFormed(raw);
    assert WellFormed(q);
    ParseEncode(q);
    forall k ensures QueryValues(q, k) == QueryValues(ParseQuery(raw), k) + (if k == key then [value] else []) {
      QueryAddValues(ParseQuery(raw), key, value, k);
    }
  }

  /**
   * A URL as the directors see it: scheme, host, the decoded path, the
   * client's own encoding of it (RawPath, empty when it is the default one),
   * whether the URL ended in a bare '?' (ForceQuery) and the raw query.
   */
  datatype URL = URL(scheme: string, host: string, path: string, rawPath: string, forceQuery: bool, rawQuery: string)

  predicate IsHexDigit(c: char) {
    '0' <= c <= '9' || 'a' <= c <= 'f' || 'A' <= c <= 'F'
  }

  function HexValue(c: char): (v: nat)
    requires IsHexDigit(c)
    ensures v < 16
  {
    if '0' <= c <= '9' then c as nat - '0' as nat
    else if 'a' <= c <= 'f' then c as nat - 'a' as nat + 10
    else c as nat - 'A' as nat + 10
  }

  /**
   * url's unescape in path mode: each "%XY" becomes the character with code
   * 0xXY, every other character stays, and a '%' that is not followed by two
   * hexadecimal digits makes the whole string invalid.
   */
  function Unescape(s: string): Option<string>
    decreases |s|
  {
    if s == [] then Some([])
    else if s[0] == '%' then
      if |s| < 3 || !IsHexDigit(s[1]) || !IsHexDigit(s[2]) then None
      else match Unescape(s[3..]) {
        case None => None
        case Some(t) => Some([(HexValue(s[1]) * 16 + HexValue(s[2])) as char] + t)
      }
    else match Unescape(s[1..]) {
      case None => None
      case Some(t) => Some([s[0]] + t)
    }
  }

  /**
   * A character url's validEncoded accepts in an encoded path: letters,
   * digits, "-_.~", the sub-delimiters, ':', '@', '[', ']', '/' and '%'.
   */
  predicate PathChar(c: char) {
    'a' <= c <= 'z' || 'A' <= c <= 'Z' || '0' <= c <= '9' || c in {'-', '_', '.', '~', '!', '$', '&', '\'', '(', ')', '*', '+', ',', ';', '=', ':', '@', '[', ']', '/', '%'}
  }

  predicate ValidEncoded(s: string) {
    forall i :: 0 <= i < |s| ==> PathChar(s[i])
  }

  /**
   * URL.EscapedPath: the raw path when it is set, validly encoded and decodes
   * to the path; otherwise the path itself.
   */
  function EscapedPath(u: URL): (p: string)
    ensures p == u.path || (p == u.rawPath && Unescape(u.rawPath) == Some(u.path))
    ensures u.rawPath != "" && ValidEncoded(u.rawPath) && Unescape(u.rawPath) == Some(u.path) ==> p == u.rawPath
  {
    if u.rawPath != "" && ValidEncoded(u.rawPath) && Unescape(u.rawPath) == Some(u.path) then u.rawPath
    else u.path
  }

  /**
   * `u.RawPath = u.EscapedPath()`, as the directors do after changing the
   * path: the escaped path, and so the URL's text, stays what it was, and the
   * raw path becomes the path unless the client's encoding still decodes to it.
   */
  lemma RefreshRawPath(u: URL)
    ensures var v := u.(rawPath := EscapedPath(u));
      EscapedPath(v) == EscapedPath(u) && URLString(v) == URLString(u)
      && (v.rawPath == u.path || (v.rawPath == u.rawPath && Unescape(u.rawPath) == Some(u.path)))
  {
  }

  /** Unescaping a concatenation of two valid encodings unescapes each part. */
  lemma {:induction false} UnescapeConcat(a: string, b: string)
    requires Unescape(a).Some? && Unescape(b).Some?
    ensures Unescape(a + b) == Some(Unescape(a).value + Unescape(b).value)
    decreases |a|
  {
    if a != [] {
      var k := if a[0] == '%' then 3 else 1;
      assert (a + b)[0] == a[0];
      if k == 3 {
        assert (a + b)[1] == a[1] && (a + b)[2] == a[2];
      }
      assert (a + b)[k..] == a[k..] + b;
      UnescapeConcat(a[k..], b);
      var t := Unescape(a[k..]).value;
      var c := Unescape(a).value[0];
      assert Unescape(a).value == [c] + t;
      assert Unescape(a + b) == Some([c] + (t + Unescape(b).value));
      Assoc([c], t, Unescape(b).value);
    } else {
      assert a + b == b;
      assert [] + Unescape(b).value == Unescape(b).value;
    }
  }

  /** A string without '%' is its own decoding. */
  lemma {:induction false} UnescapePlain(s: string)
    requires '%' !in s
    ensures Unescape(s) == Some(s)
    decreases |s|
  {
    if s != [] {
      assert s[0] in s;
      UnescapePlain(s[1..]);
      assert [s[0]] + s[1..] == s;
    }
  }

  /**
   * URL.String for the fields modelled: "scheme:" when there is a scheme,
   * "//host" when there is a scheme or host, the escaped path, and "?" and
   * the raw query when the query is not empty or the URL ended in '?'.
   */
  function URLString(u: URL): string {
    (if u.scheme != "" then u.scheme + ":" else "")
    + (if u.scheme != "" || u.host != "" then "//" + u.host else "")
    + EscapedPath(u)
    + (if u.forceQuery || u.rawQuery != "" then "?" + u.rawQuery else "")
  }

  /** The scheme and host of a parsed endpoint URL. */
  datatype Endpoint = Endpoint(scheme: string, host: string)

  /**
   * An inbound *http.Request, which a director changes in place: `host` is
   * req.Host, `url` is *req.URL, `body` is the buffered body. The HTTP
   * server creates the request before the handler runs; the constructor
   * stands for that step, which the server, not the proxy, performs.
   */
  class Request {
    var httpMethod: string
    var host: string
    var url: URL
    var header: Header
    var body: string

    constructor (httpMethod: string, host: string, url: URL, header: Header, body: string)
      ensures this.httpMethod == httpMethod && this.url == url && this.header == header && this.body == body
      ensures this.host == host
    {
      this.httpMethod := httpMethod;
      this.host := host;
      this.url := url;
      this.header := header;
      this.body := body;
    }
  }
}
