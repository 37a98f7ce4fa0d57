/**
 * What the two lookups of api/utils/tokens.js promise, proved about the
 * specification functions that GetModelMaxTokens and MatchModelName are
 * verified against.
 */
module TokensProperties {
  import opened Strings
  import opened Tokens

  /** The declared tables have no repeated fragment and only positive limits. */
  lemma TablesWellFormed(e: Endpoint)
    ensures TokensMap(e).Some? ==> WellFormed(TokensMap(e).value)
  {
  }

  /** In a table without repeated fragments, looking up a declared fragment gives its own limit. */
  lemma GetDeclared(t: Table, i: int)
    requires DistinctKeys(t) && 0 <= i < |t|
    ensures Get(t, t[i].0) == Some(t[i].1)
  {
  }

  /** With positive limits, the exact-match guard holds exactly for the declared fragments. */
  lemma ExactGuardIsKey(t: Table, s: string)
    requires PositiveLimits(t)
    ensures Truthy(Get(t, s)) <==> IsKey(t, s)
  {
  }

  /** A non-string model name gives undefined from both lookups, whatever the endpoint. */
  lemma NonStringIsUndefined(e: Endpoint)
    ensures MaxTokens(NonString, e) == None
    ensures MatchedName(NonString, e) == None
  {
  }

  /** An endpoint without a table gives no limit, while the name lookup echoes the input. */
  lemma UnregisteredEndpoint(s: string)
    ensures TokensMap(Unregistered) == None
    ensures MaxTokens(Str(s), Unregistered) == None
    ensures MatchedName(Str(s), Unregistered) == Some(s)
  {
  }

  /**
   * Exact match wins over the scan: a declared fragment gives its own limit
   * and itself, even when a later-declared fragment is also a substring of it.
   */
  lemma ExactMatchWins(e: Endpoint, i: int)
    requires TokensMap(e).Some? && 0 <= i < |TokensMap(e).value|
    ensures var (k, v) := TokensMap(e).value[i];
      MaxTokens(Str(k), e) == Some(v) && MatchedName(Str(k), e) == Some(k)
  {
    var t := TokensMap(e).value;
    TablesWellFormed(e);
    GetDeclared(t, i);
  }

  /**
   * A string that is not a declared fragment resolves through the
   * last-declared fragment it includes.
   */
  lemma PartialMatchIsLastDeclared(e: Endpoint, s: string, i: int)
    requires TokensMap(e).Some?
    requires var t := TokensMap(e).value;
      !IsKey(t, s) && 0 <= i < |t| && Includes(s, t[i].0) &&
      forall j :: i < j < |t| ==> !Includes(s, t[j].0)
    ensures var t := TokensMap(e).value;
      MaxTokens(Str(s), e) == Some(t[i].1) && MatchedName(Str(s), e) == Some(t[i].0)
  {
    var t := TokensMap(e).value;
    TablesWellFormed(e);
    ExactGuardIsKey(t, s);
    LastIncludedAt(t, s, i);
    GetDeclared(t, i);
  }

  /** Over a table with positive limits, no limit is found exactly when the input includes no fragment. */
  lemma NoMatchIn(t: Table, s: string)
    requires PositiveLimits(t)
    ensures LimitIn(t, s) == None <==> forall j :: 0 <= j < |t| ==> !Includes(s, t[j].0)
    ensures (forall j :: 0 <= j < |t| ==> !Includes(s, t[j].0)) ==> KeyIn(t, s) == s
  {
  }

  /**
   * Under an endpoint with a table, getModelMaxTokens is undefined exactly when
   * no fragment is a substring of the input, and matchModelName then echoes it.
   */
  lemma NoMatchIsUndefined(e: Endpoint, s: string)
    requires TokensMap(e).Some?
    ensures var t := TokensMap(e).value;
      MaxTokens(Str(s), e) == None <==> forall j :: 0 <= j < |t| ==> !Includes(s, t[j].0)
    ensures var t := TokensMap(e).value;
      (forall j :: 0 <= j < |t| ==> !Includes(s, t[j].0)) ==> MatchedName(Str(s), e) == Some(s)
  {
    TablesWellFormed(e);
    NoMatchIn(TokensMap(e).value, s);
  }

  /** Every string under a known endpoint resolves to a declared fragment the input includes, or to nothing. */
  lemma ResolvedKeyIsIncluded(t: Table, s: string)
    requires WellFormed(t)
    ensures IsKey(t, KeyIn(t, s)) ==> Includes(s, KeyIn(t, s))
    ensures !IsKey(t, KeyIn(t, s)) ==> KeyIn(t, s) == s && forall j :: 0 <= j < |t| ==> !Includes(s, t[j].0)
    ensures LimitIn(t, s) == Get(t, KeyIn(t, s))
  {
  }

  /**
   * The two lookups agree on an endpoint with a table: getModelMaxTokens is
   * defined exactly when matchModelName gives a declared fragment, and then it
   * is that fragment's limit.
   */
  lemma LookupsAgree(e: Endpoint, s: string)
    requires TokensMap(e).Some?
    ensures var t := TokensMap(e).value;
      MaxTokens(Str(s), e).Some? <==> IsKey(t, MatchedName(Str(s), e).value)
    ensures var t := TokensMap(e).value;
      MaxTokens(Str(s), e) == Get(t, MatchedName(Str(s), e).value)
  {
  }

  /**
   * matchModelName is idempotent on strings: its result is either a declared
   * fragment, which then matches exactly, or the input itself when no
   * fragment matched it.
   */
  lemma MatchIdempotent(m: ModelName, e: Endpoint)
    requires MatchedName(m, e).Some?
    ensures m.Str?
    ensures var k := MatchedName(m, e).value;
      MatchedName(Str(k), e) == Some(k)
  {
    var k := MatchedName(m, e).value;
    if TokensMap(e).Some? {
      var t := TokensMap(e).value;
      TablesWellFormed(e);
      ResolvedKeyIsIncluded(t, m.s);
      ExactGuardIsKey(t, k);
      if !IsKey(t, k) {
        ResolvedKeyIsIncluded(t, k);
      }
    }
  }

  /**
   * Results are bounded by the table: a returned limit is a declared, positive
   * one, and a returned name other than the input is a declared fragment that
   * the input includes.
   */
  lemma ResultsBounded(m: ModelName, e: Endpoint)
    ensures MaxTokens(m, e).Some? ==>
      m.Str? && TokensMap(e).Some? && MaxTokens(m, e).value > 0 &&
      exists i :: 0 <= i < |TokensMap(e).value| && TokensMap(e).value[i].1 == MaxTokens(m, e).value
    ensures MatchedName(m, e).Some? && MatchedName(m, e).value != m.s ==>
      TokensMap(e).Some? && IsKey(TokensMap(e).value, MatchedName(m, e).value) &&
      Includes(m.s, MatchedName(m, e).value)
  {
    if m.Str? && TokensMap(e).Some? {
      var t := TokensMap(e).value;
      TablesWellFormed(e);
      ResolvedKeyIsIncluded(t, m.s);
      var k := KeyIn(t, m.s);
      if MaxTokens(m, e).Some? {
        assert HasEntry(t, k, MaxTokens(m, e).value);
        var i :| 0 <= i < |t| && t[i] == (k, MaxTokens(m, e).value);
      }
    }
  }
}
