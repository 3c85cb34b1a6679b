/**
 * Model-to-deployment resolution and the parsing of AZURE_OPENAI_MODEL_MAPPER.
 * main.go and pkg/azure/proxy.go hold the same code for both, so it is
 * modelled once here and used by both proxies.
 */
module ModelMapper {
  import opened Wrappers
  import opened GoStrings

  /** Model name to Azure deployment name. */
  type Mapper = map<string, string>

  /** The mapping every process starts from, before the environment is read. */
  const DEFAULT_MAPPER: Mapper :=
    map["gpt-3.5-turbo" := "gpt-35-turbo", "gpt-3.5-turbo-0301" := "gpt-35-turbo-0301"]

  /** Map lookup as an Option. */
  function Lookup(m: Mapper, k: string): Option<string> {
    if k in m then Some(m[k]) else None
  }

  /** The characters the fallback regular expression `[.:]` matches. */
  predicate IsStripped(c: char) {
    c == '.' || c == ':'
  }

  /** `a` can be obtained from `b` by deleting characters. */
  predicate IsSubsequence(a: string, b: string)
    decreases |b|
  {
    if a == [] then true
    else if b == [] then false
    else (a[0] == b[0] && IsSubsequence(a[1..], b[1..])) || IsSubsequence(a, b[1..])
  }

  /**
   * `fallbackModelMapper.ReplaceAllString(model, "")`: every '.' and ':' is
   * deleted. What remains has neither character, is a subsequence of the model
   * and holds every other character as often as the model does.
   */
  function StripDotsAndColons(model: string): (r: string)
    ensures '.' !in r && ':' !in r
    ensures IsSubsequence(r, model)
    ensures forall c :: !IsStripped(c) ==> multiset(r)[c] == multiset(model)[c]
  {
    if model == [] then []
    else
      var rest := StripDotsAndColons(model[1..]);
      assert model == [model[0]] + model[1..];
      if IsStripped(model[0]) then rest
      else
        assert ([model[0]] + rest)[1..] == rest;
        [model[0]] + rest
  }

  /** A model with no '.' or ':' is its own fallback. */
  lemma {:induction false} StripIdentity(s: string)
    requires '.' !in s && ':' !in s
    ensures StripDotsAndColons(s) == s
  {
    if s != [] {
      StripIdentity(s[1..]);
      assert s == [s[0]] + s[1..];
    }
  }

  /** Applying the fallback twice is the same as applying it once. */
  lemma StripIdempotent(model: string)
    ensures StripDotsAndColons(StripDotsAndColons(model)) == StripDotsAndColons(model)
  {
    StripIdentity(StripDotsAndColons(model));
  }

  /**
   * GetDeploymentByModel: a model the mapper knows gets exactly its mapped
   * deployment; any other model gets its fallback name, which has no '.' or
   * ':' and keeps every other character, in order.
   */
  function GetDeploymentByModel(mapper: Mapper, model: string): (r: string)
    ensures model in mapper ==> r == mapper[model]
    ensures model !in mapper ==>
      '.' !in r && ':' !in r && IsSubsequence(r, model)
      && forall c :: !IsStripped(c) ==> multiset(r)[c] == multiset(model)[c]
  {
    if model in mapper then mapper[model] else StripDotsAndColons(model)
  }

  /** The fallback name of an unmapped model is stable under the fallback. */
  lemma FallbackStable(mapper: Mapper, model: string)
    requires model !in mapper
    ensures StripDotsAndColons(GetDeploymentByModel(mapper, model)) == GetDeploymentByModel(mapper, model)
  {
    StripIdempotent(model);
  }

  /**
   * One `model=deployment` entry: `strings.Split(pair, "=")` must give exactly
   * two parts, which happens exactly when the entry holds a single '='.
   */
  function Entry(pair: string): (e: Option<(string, string)>)
    ensures e.Some? <==> Count(pair, '=') == 1
    ensures e.Some? ==> pair == e.value.0 + "=" + e.value.1 && '=' !in e.value.0 && '=' !in e.value.1
  {
    var info := Split(pair, '=');
    if |info| != 2 then None
    else
      SplitJoin(pair, '=');
      assert Join(info, '=') == info[0] + "=" + Join(info[1..], '=');
      assert info[1..] == [info[1]];
      Some((info[0], info[1]))
  }

  /** Where the start-up loop stops: the map it has written and the entry it failed on, if any. */
  datatype MapperLoad = MapperLoad(mapper: Mapper, invalid: Option<string>)

  /**
   * The start-up loop over the entries: each valid entry is written into the
   * map, overwriting an earlier value for its key; the first invalid entry
   * stops the loop (the process exits there).
   */
  function LoadPairs(pairs: seq<string>, m: Mapper): MapperLoad
    decreases |pairs|
  {
    if pairs == [] then MapperLoad(m, None)
    else
      match Entry(pairs[0])
      case None => MapperLoad(m, Some(pairs[0]))
      case Some(e) => LoadPairs(pairs[1..], m[e.0 := e.1])
  }

  /** The comma-separated entries of AZURE_OPENAI_MODEL_MAPPER; an unset (empty) value has none. */
  function MapperEntries(v: string): seq<string> {
    if v == "" then [] else Split(v, ',')
  }

  /** The mapping after start-up, or the entry that made start-up fail. */
  function ParseModelMapper(v: string, base: Mapper): Result<Mapper, string> {
    var load := LoadPairs(MapperEntries(v), base);
    if load.invalid.Some? then Failure(load.invalid.value) else Success(load.mapper)
  }

  /**
   * The value the entries give `k`: the deployment of the last valid entry
   * for `k`, or None when no entry names `k`.
   */
  function LastEntryFor(pairs: seq<string>, k: string): Option<string>
    decreases |pairs|
  {
    if pairs == [] then None
    else
      var later := LastEntryFor(pairs[1..], k);
      if later.Some? then later
      else match Entry(pairs[0])
        case Some(e) => if e.0 == k then Some(e.1) else None
        case None => None
  }

  /** With every entry valid, the loop completes, and each key holds its last entry's value, or its old value. */
  lemma {:induction false} LoadPairsValid(pairs: seq<string>, m: Mapper)
    requires forall i :: 0 <= i < |pairs| ==> Count(pairs[i], '=') == 1
    ensures LoadPairs(pairs, m).invalid == None
    ensures forall k :: Lookup(LoadPairs(pairs, m).mapper, k)
                     == if LastEntryFor(pairs, k).Some? then LastEntryFor(pairs, k) else Lookup(m, k)
    decreases |pairs|
  {
    if pairs != [] {
      var e := Entry(pairs[0]).value;
      var m' := m[e.0 := e.1];
      LoadPairsValid(pairs[1..], m');
      assert LoadPairs(pairs, m) == LoadPairs(pairs[1..], m');
      forall k ensures Lookup(LoadPairs(pairs, m).mapper, k)
                    == if LastEntryFor(pairs, k).Some? then LastEntryFor(pairs, k) else Lookup(m, k)
      {
        assert Lookup(m', k) == if k == e.0 then Some(e.1) else Lookup(m, k);
      }
    }
  }

  /**
   * The loop stops on an invalid entry exactly when there is one, and then on
   * the first of them.
   */
  lemma {:induction false} LoadPairsInvalid(pairs: seq<string>, m: Mapper)
    ensures LoadPairs(pairs, m).invalid.Some?
        <==> exists i :: 0 <= i < |pairs| && Count(pairs[i], '=') != 1
    ensures LoadPairs(pairs, m).invalid.Some? ==>
      exists i :: 0 <= i < |pairs| && pairs[i] == LoadPairs(pairs, m).invalid.value
        && Count(pairs[i], '=') != 1
        && forall j :: 0 <= j < i ==> Count(pairs[j], '=') == 1
    decreases |pairs|
  {
    if pairs != [] {
      if Count(pairs[0], '=') != 1 {
        assert LoadPairs(pairs, m).invalid == Some(pairs[0]);
      } else {
        var e := Entry(pairs[0]).value;
        var m' := m[e.0 := e.1];
        var tail := pairs[1..];
        LoadPairsInvalid(tail, m');
        assert LoadPairs(pairs, m) == LoadPairs(tail, m');
        if LoadPairs(tail, m').invalid.Some? {
          var i :| 0 <= i < |tail| && tail[i] == LoadPairs(tail, m').invalid.value
            && Count(tail[i], '=') != 1 && forall j :: 0 <= j < i ==> Count(tail[j], '=') == 1;
          assert pairs[i + 1] == tail[i];
          forall j | 0 <= j < i + 1 ensures Count(pairs[j], '=') == 1 {
            if j > 0 { assert pairs[j] == tail[j - 1]; }
          }
        } else {
          forall i | 0 <= i < |pairs| ensures Count(pairs[i], '=') == 1 {
            if i > 0 { assert pairs[i] == tail[i - 1]; }
          }
        }
      }
    }
  }

  /**
   * Parsing the mapper fails exactly when some entry does not hold exactly one
   * '=', and it reports the first such entry.
   */
  lemma ParseModelMapperFails(v: string, base: Mapper)
    ensures var entries := MapperEntries(v);
      (ParseModelMapper(v, base).Failure? <==> exists i :: 0 <= i < |entries| && Count(entries[i], '=') != 1)
    ensures var entries := MapperEntries(v);
      ParseModelMapper(v, base).Failure? ==>
        exists i :: 0 <= i < |entries| && entries[i] == ParseModelMapper(v, base).error
          && Count(entries[i], '=') != 1
          && forall j :: 0 <= j < i ==> Count(entries[j], '=') == 1
  {
    LoadPairsInvalid(MapperEntries(v), base);
  }

  /**
   * A successful parse keeps the defaults and adds the entries on top: each key
   * named by an entry maps to the deployment of its last entry; every other key
   * keeps the value (or absence) it had before.
   */
  lemma ParseModelMapperContents(v: string, base: Mapper)
    requires ParseModelMapper(v, base).Success?
    ensures var entries := MapperEntries(v);
      forall k :: Lookup(ParseModelMapper(v, base).value, k)
               == if LastEntryFor(entries, k).Some? then LastEntryFor(entries, k) else Lookup(base, k)
  {
    var entries := MapperEntries(v);
    LoadPairsInvalid(entries, base);
    LoadPairsValid(entries, base);
  }
}
