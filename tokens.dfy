/**
 * The model-limit registry of api/utils/tokens.js: one table per endpoint
 * mapping a model-name fragment to a maximum token count, and the two
 * lookups over it, getModelMaxTokens and matchModelName.
 *
 * Each table is a sequence of (fragment, limit) pairs in declaration order,
 * which is the order in which `Object.keys` lists them.
 */
module Tokens {
  import opened Strings

  datatype Option<T> = None | Some(value: T)

  /** The `modelName` argument: a string, or any other JavaScript value (undefined, null, a number, an object). */
  datatype ModelName = Str(s: string) | NonString

  /** The `endpoint` argument: the three endpoints that have a table, or any other value. */
  datatype Endpoint = OpenAI | Google | Anthropic | Unregistered

  /** The endpoint used when the caller passes none. */
  const DefaultEndpoint: Endpoint := OpenAI

  type Table = seq<(string, nat)>

  const OpenAITokens: Table := [
    ("gpt-4", 8191),
    ("gpt-4-0613", 8191),
    ("gpt-4-32k", 32767),
    ("gpt-4-32k-0314", 32767),
    ("gpt-4-32k-0613", 32767),
    ("gpt-3.5-turbo", 4095),
    ("gpt-3.5-turbo-0613", 4095),
    ("gpt-3.5-turbo-0301", 4095),
    ("gpt-3.5-turbo-16k", 15999),
    ("gpt-3.5-turbo-16k-0613", 15999),
    ("gpt-3.5-turbo-1106", 16380),
    ("gpt-4-1106", 127995)
  ]

  const GoogleTokens: Table := [
    ("text-bison-32k", 31000),
    ("chat-bison-32k", 31000),
    ("code-bison-32k", 31000),
    ("codechat-bison-32k", 31000),
    ("code-", 6139),
    ("codechat-", 6139),
    ("text-", 8187),
    ("chat-", 8187)
  ]

  const AnthropicTokens: Table := [
    ("claude-2.1", 200000),
    ("claude-", 100000)
  ]

  /** The names of the older OpenAI models (the exported `tiktokenModels` set). */
  const TiktokenModels: set<string> := {
    "text-davinci-003", "text-davinci-002", "text-davinci-001", "text-curie-001",
    "text-babbage-001", "text-ada-001", "davinci", "curie", "babbage", "ada",
    "code-davinci-002", "code-davinci-001", "code-cushman-002", "code-cushman-001",
    "davinci-codex", "cushman-codex", "text-davinci-edit-001", "code-davinci-edit-001",
    "text-embedding-ada-002", "text-similarity-davinci-001", "text-similarity-curie-001",
    "text-similarity-babbage-001", "text-similarity-ada-001", "text-search-davinci-doc-001",
    "text-search-curie-doc-001", "text-search-babbage-doc-001", "text-search-ada-doc-001",
    "code-search-babbage-code-001", "code-search-ada-code-001", "gpt2", "gpt-4",
    "gpt-4-0314", "gpt-4-32k", "gpt-4-32k-0314", "gpt-3.5-turbo", "gpt-3.5-turbo-0301"
  }

  /** `maxTokensMap[endpoint]`: the table of an endpoint, if it has one. */
  function TokensMap(endpoint: Endpoint): (t: Option<Table>)
    ensures t.Some? <==> endpoint != Unregistered
    ensures t.Some? ==> |t.value| > 0
  {
    match endpoint
    case OpenAI => Some(OpenAITokens)
    case Google => Some(GoogleTokens)
    case Anthropic => Some(AnthropicTokens)
    case Unregistered => None
  }

  /** `k` is a declared fragment of `t`. */
  ghost predicate IsKey(t: Table, k: string)
  {
    exists i :: 0 <= i < |t| && t[i].0 == k
  }

  /** `(k, v)` is declared in `t`. */
  ghost predicate HasEntry(t: Table, k: string, v: nat)
  {
    exists i :: 0 <= i < |t| && t[i] == (k, v)
  }

  /** No fragment is declared twice, as in a JavaScript object. */
  ghost predicate DistinctKeys(t: Table)
  {
    forall i, j :: 0 <= i < j < |t| ==> t[i].0 != t[j].0
  }

  /** Every declared limit is positive. */
  ghost predicate PositiveLimits(t: Table)
  {
    forall i :: 0 <= i < |t| ==> t[i].1 > 0
  }

  ghost predicate WellFormed(t: Table)
  {
    DistinctKeys(t) && PositiveLimits(t)
  }

  /**
   * `tokensMap[k]`: the limit declared for `k`, or None (undefined). The search
   * runs from the back, so if a fragment were declared twice the later value
   * would win, as it does in an object literal.
   */
  function Get(t: Table, k: string): (v: Option<nat>)
    ensures v.Some? <==> IsKey(t, k)
    ensures v.Some? ==> HasEntry(t, k, v.value)
  {
    if |t| == 0 then None
    else if t[|t| - 1].0 == k then
      assert t[|t| - 1] == (k, t[|t| - 1].1);
      Some(t[|t| - 1].1)
    else
      var v := Get(t[..|t| - 1], k);
      assert forall i :: 0 <= i < |t| - 1 ==> t[..|t| - 1][i] == t[i];
      v
  }

  /** `Object.keys(tokensMap)`: the fragments of `t` in declaration order. */
  function Keys(t: Table): (keys: seq<string>)
    ensures |keys| == |t|
    ensures forall i :: 0 <= i < |t| ==> keys[i] == t[i].0
  {
    seq(|t|, i requires 0 <= i < |t| => t[i].0)
  }

  /** JavaScript truthiness of a looked-up limit: present and not 0. */
  predicate Truthy(v: Option<nat>)
    ensures v == None ==> !Truthy(v)
    ensures v == Some(0) ==> !Truthy(v)
    ensures v.Some? && v.value > 0 ==> Truthy(v)
  {
    v.Some? && v.value != 0
  }

  /**
   * The index of the last-declared fragment of `t` that `s` includes: the one
   * the backward scan of keys stops at.
   */
  function LastIncluded(t: Table, s: string): (r: Option<nat>)
    ensures r.Some? ==> r.value < |t| && Includes(s, t[r.value].0)
    ensures r.Some? ==> forall j :: r.value < j < |t| ==> !Includes(s, t[j].0)
    ensures r.None? ==> forall j :: 0 <= j < |t| ==> !Includes(s, t[j].0)
  {
    if |t| == 0 then None
    else if Includes(s, t[|t| - 1].0) then Some(|t| - 1)
    else
      var r := LastIncluded(t[..|t| - 1], s);
      assert forall i :: 0 <= i < |t| - 1 ==> t[..|t| - 1][i] == t[i];
      r
  }

  /** The last-declared included fragment is the one at `i` exactly when `i` is included and no later one is. */
  lemma LastIncludedAt(t: Table, s: string, i: int)
    requires 0 <= i < |t| && Includes(s, t[i].0)
    requires forall j :: i < j < |t| ==> !Includes(s, t[j].0)
    ensures LastIncluded(t, s) == Some(i)
  {
  }

  /**
   * The limit that getModelMaxTokens gives for the string `s` under a table
   * `t`: always one declared with a fragment that `s` includes, and none when
   * `s` includes no fragment.
   */
  function LimitIn(t: Table, s: string): (r: Option<nat>)
    ensures r.Some? ==> exists i :: 0 <= i < |t| && t[i].1 == r.value && Includes(s, t[i].0)
    ensures (forall j :: 0 <= j < |t| ==> !Includes(s, t[j].0)) ==> r == None
  {
    var exact := Get(t, s);
    assert StartsWith(s, s);
    if Truthy(exact) then
      assert HasEntry(t, s, exact.value);
      exact
    else match LastIncluded(t, s)
      case Some(i) =>
        var v := Get(t, t[i].0);
        assert HasEntry(t, t[i].0, v.value);
        v
      case None => None
  }

  /** The name that matchModelName gives for the string `s` under a table `t`: `s` itself or a declared fragment it includes. */
  function KeyIn(t: Table, s: string): (k: string)
    ensures k == s || (IsKey(t, k) && Includes(s, k))
    ensures (forall j :: 0 <= j < |t| ==> !Includes(s, t[j].0)) ==> k == s
  {
    if Truthy(Get(t, s)) then s
    else match LastIncluded(t, s)
      case Some(i) => t[i].0
      case None => s
  }

  /** What getModelMaxTokens(modelName, endpoint) returns; None is undefined. */
  function MaxTokens(modelName: ModelName, endpoint: Endpoint): (r: Option<nat>)
    ensures r.Some? ==> modelName.Str? && endpoint != Unregistered
  {
    match modelName
    case NonString => None
    case Str(s) =>
      match TokensMap(endpoint)
      case None => None
      case Some(t) => LimitIn(t, s)
  }

  /** What matchModelName(modelName, endpoint) returns; None is undefined. */
  function MatchedName(modelName: ModelName, endpoint: Endpoint): (r: Option<string>)
    ensures r.None? <==> modelName.NonString?
    ensures r.Some? ==> r.value == modelName.s || Includes(modelName.s, r.value)
  {
    match modelName
    case NonString => None
    case Str(s) =>
      match TokensMap(endpoint)
      case None => Some(s)
      case Some(t) => Some(KeyIn(t, s))
  }

  /** getModelMaxTokens after its guards: exact match on `tokensMap`, then the backward scan of its keys. */
  method LookupLimit(tokensMap: Table, modelName: string) returns (r: Option<nat>)
    ensures r == LimitIn(tokensMap, modelName)
  {
    if Truthy(Get(tokensMap, modelName)) {
      return Get(tokensMap, modelName);
    }
    var keys := Keys(tokensMap);
    var i := |keys| - 1;
    while i >= 0
      invariant -1 <= i < |keys|
      invariant forall j :: i < j < |keys| ==> !Includes(modelName, keys[j])
    {
      if Includes(modelName, keys[i]) {
        LastIncludedAt(tokensMap, modelName, i);
        return Get(tokensMap, keys[i]);
      }
      i := i - 1;
    }
    return None;
  }

  /** matchModelName after its guards: exact match on `tokensMap`, then the backward scan of its keys. */
  method LookupKey(tokensMap: Table, modelName: string) returns (r: string)
    ensures r == KeyIn(tokensMap, modelName)
  {
    if Truthy(Get(tokensMap, modelName)) {
      return modelName;
    }
    var keys := Keys(tokensMap);
    var i := |keys| - 1;
    while i >= 0
      invariant -1 <= i < |keys|
      invariant forall j :: i < j < |keys| ==> !Includes(modelName, keys[j])
    {
      if Includes(modelName, keys[i]) {
        LastIncludedAt(tokensMap, modelName, i);
        return keys[i];
      }
      i := i - 1;
    }
    return modelName;
  }

  /** getModelMaxTokens: undefined for a non-string name or an endpoint without a table, else the table lookup. */
  method GetModelMaxTokens(modelName: ModelName, endpoint: Endpoint) returns (r: Option<nat>)
    ensures r == MaxTokens(modelName, endpoint)
  {
    if !modelName.Str? {
      return None;
    }
    var tokensMap := TokensMap(endpoint);
    if tokensMap.None? {
      return None;
    }
    r := LookupLimit(tokensMap.value, modelName.s);
  }

  /** matchModelName: undefined for a non-string name, the name itself for an endpoint without a table, else the table lookup. */
  method MatchModelName(modelName: ModelName, endpoint: Endpoint) returns (r: Option<string>)
    ensures r == MatchedName(modelName, endpoint)
  {
    if !modelName.Str? {
      return None;
    }
    var tokensMap := TokensMap(endpoint);
    if tokensMap.None? {
      return Some(modelName.s);
    }
    var key := LookupKey(tokensMap.value, modelName.s);
    return Some(key);
  }
}
