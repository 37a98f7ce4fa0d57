/**
 * Concrete lookups from api/utils/tokens.spec.js and the table-order quirks
 * of api/utils/tokens.js, derived from the general properties.
 *
 * A fragment is shown to occur in a model name by giving the index where it
 * starts, and shown not to occur by pointing, for each fragment, at one of
 * its characters that the name lacks. Names that resolve by a partial match
 * are passed as a parameter fixed by the requires clause: stated as literals,
 * they would make the verifier evaluate the substring search on every
 * fragment instead of using these witnesses.
 */
module TokensExamples {
  import opened Strings
  import opened Tokens
  import opened TokensProperties

  /** The OpenAI fragments, in declaration order. */
  lemma OpenAIKeys()
    ensures Keys(OpenAITokens) == [
      "gpt-4", "gpt-4-0613", "gpt-4-32k", "gpt-4-32k-0314", "gpt-4-32k-0613", "gpt-3.5-turbo",
      "gpt-3.5-turbo-0613", "gpt-3.5-turbo-0301", "gpt-3.5-turbo-16k", "gpt-3.5-turbo-16k-0613",
      "gpt-3.5-turbo-1106", "gpt-4-1106"]
  {
  }

  /** Declared fragments match themselves and give their own limits, in each table. */
  lemma ExactMatches()
    ensures MaxTokens(Str("gpt-4-32k-0613"), DefaultEndpoint) == Some(32767)
    ensures MatchedName(Str("gpt-4-32k-0613"), DefaultEndpoint) == Some("gpt-4-32k-0613")
    ensures MaxTokens(Str("gpt-3.5-turbo-16k-0613"), DefaultEndpoint) == Some(15999)
    ensures MaxTokens(Str("gpt-3.5-turbo-1106"), DefaultEndpoint) == Some(16380)
    ensures MatchedName(Str("gpt-3.5-turbo-1106"), DefaultEndpoint) == Some("gpt-3.5-turbo-1106")
    ensures MaxTokens(Str("gpt-4-1106"), DefaultEndpoint) == Some(127995)
    ensures MatchedName(Str("gpt-4-1106"), DefaultEndpoint) == Some("gpt-4-1106")
    ensures MaxTokens(Str("claude-2.1"), Anthropic) == Some(200000)
    ensures MatchedName(Str("claude-2.1"), Anthropic) == Some("claude-2.1")
    ensures MaxTokens(Str("text-bison-32k"), Google) == Some(31000)
    ensures MatchedName(Str("text-bison-32k"), Google) == Some("text-bison-32k")
    ensures MaxTokens(Str("codechat-bison-32k"), Google) == Some(31000)
    ensures MatchedName(Str("codechat-bison-32k"), Google) == Some("codechat-bison-32k")
    ensures MaxTokens(Str("code-"), Google) == Some(6139)
    ensures MatchedName(Str("code-"), Google) == Some("code-")
    ensures MaxTokens(Str("chat-"), Google) == Some(8187)
    ensures MatchedName(Str("chat-"), Google) == Some("chat-")
  {
    ExactMatchWins(DefaultEndpoint, 4);
    ExactMatchWins(DefaultEndpoint, 9);
    ExactMatchWins(DefaultEndpoint, 10);
    ExactMatchWins(DefaultEndpoint, 11);
    ExactMatchWins(Anthropic, 0);
    ExactMatchWins(Google, 0);
    ExactMatchWins(Google, 3);
    ExactMatchWins(Google, 4);
    ExactMatchWins(Google, 7);
  }

  /** No OpenAI fragment declared after "gpt-4-32k" occurs in either decorated name. */
  lemma NoneAfterGpt432k(s: string)
    requires s == "gpt-4-32k-unknown" || s == "openai/gpt-4-32k"
    ensures forall j :: 3 <= j < |OpenAITokens| ==> !Includes(s, OpenAITokens[j].0)
  {
    OpenAIKeys();
    NoneIncluded(s, Keys(OpenAITokens), 3, [0, 0, 0, 10, 10, 5, 5, 5, 5, 5, 5, 6]);
  }

  /** "gpt-4-32k-unknown" resolves through "gpt-4-32k" to 32767. */
  lemma Gpt432kUnknown(s: string)
    requires s == "gpt-4-32k-unknown"
    ensures MaxTokens(Str(s), DefaultEndpoint) == Some(32767)
    ensures MatchedName(Str(s), DefaultEndpoint) == Some("gpt-4-32k")
  {
    NoneAfterGpt432k(s);
    IncludedAt(s, OpenAITokens[2].0, 0);
    PartialMatchIsLastDeclared(DefaultEndpoint, s, 2);
  }

  /** A vendor-prefixed "openai/gpt-4-32k" resolves through "gpt-4-32k" to 32767. */
  lemma OpenRouterGpt432k(s: string)
    requires s == "openai/gpt-4-32k"
    ensures MaxTokens(Str(s), DefaultEndpoint) == Some(32767)
  {
    NoneAfterGpt432k(s);
    IncludedAt(s, OpenAITokens[2].0, 7);
    PartialMatchIsLastDeclared(DefaultEndpoint, s, 2);
  }

  /** "gpt-3.5-turbo-unknown" resolves through "gpt-3.5-turbo" to 4095. */
  lemma Gpt35TurboUnknown(s: string)
    requires s == "gpt-3.5-turbo-unknown"
    ensures MaxTokens(Str(s), DefaultEndpoint) == Some(4095)
  {
    OpenAIKeys();
    NoneIncluded(s, Keys(OpenAITokens), 6, [0, 0, 0, 0, 0, 0, 14, 14, 14, 14, 14, 4]);
    IncludedAt(s, OpenAITokens[5].0, 0);
    PartialMatchIsLastDeclared(DefaultEndpoint, s, 5);
  }

  /**
   * A name that is not itself a fragment, holds "gpt-3.5-turbo-1106" and has
   * no '4' resolves through "gpt-3.5-turbo-1106" to 16380 and to that key:
   * the only later fragment, "gpt-4-1106", holds a '4'.
   */
  lemma Gpt35Turbo1106Within(pre: string, post: string)
    requires !IsKey(OpenAITokens, pre + "gpt-3.5-turbo-1106" + post) && '4' !in pre + post
    ensures MaxTokens(Str(pre + "gpt-3.5-turbo-1106" + post), DefaultEndpoint) == Some(16380)
    ensures MatchedName(Str(pre + "gpt-3.5-turbo-1106" + post), DefaultEndpoint) == Some("gpt-3.5-turbo-1106")
  {
    var s := pre + "gpt-3.5-turbo-1106" + post;
    assert s[|pre|..|pre| + 18] == "gpt-3.5-turbo-1106";
    assert forall c :: c in s ==> c in pre + post || c in "gpt-3.5-turbo-1106";
    OpenAIKeys();
    NoneIncluded(s, Keys(OpenAITokens), 11, [0, 0, 0, 0, 0, 0, 0, 0, 0, 0, 0, 4]);
    IncludedAt(s, OpenAITokens[10].0, |pre|);
    PartialMatchIsLastDeclared(DefaultEndpoint, s, 10);
  }

  /** "gpt-3.5-turbo-1106" behind a vendor prefix resolves through "gpt-3.5-turbo-1106". */
  lemma Gpt35Turbo1106Prefixed(s: string)
    requires s == "something-/gpt-3.5-turbo-1106" || s == "something/gpt-3.5-turbo-1106"
    ensures MaxTokens(Str(s), DefaultEndpoint) == Some(16380)
    ensures MatchedName(Str(s), DefaultEndpoint) == Some("gpt-3.5-turbo-1106")
  {
    var at := |s| - 18;
    assert s == s[..at] + "gpt-3.5-turbo-1106" + [];
    Gpt35Turbo1106Within(s[..at], []);
  }

  /** "gpt-3.5-turbo-1106" followed by a suffix resolves through "gpt-3.5-turbo-1106". */
  lemma Gpt35Turbo1106Suffixed(s: string)
    requires s == "gpt-3.5-turbo-1106/something-/" || s == "gpt-3.5-turbo-1106/something"
    ensures MaxTokens(Str(s), DefaultEndpoint) == Some(16380)
    ensures MatchedName(Str(s), DefaultEndpoint) == Some("gpt-3.5-turbo-1106")
  {
    assert s == [] + "gpt-3.5-turbo-1106" + s[18..];
    Gpt35Turbo1106Within([], s[18..]);
  }

  /** "gpt-4-1106" with text before or after it resolves through the last-declared "gpt-4-1106" to 127995 and to that key. */
  lemma Gpt41106Decorated(s: string)
    requires s == "gpt-4-1106/something" || s == "gpt-4-1106-preview"
      || s == "gpt-4-1106-vision-preview" || s == "something/gpt-4-1106"
    ensures MaxTokens(Str(s), DefaultEndpoint) == Some(127995)
    ensures MatchedName(Str(s), DefaultEndpoint) == Some("gpt-4-1106")
  {
    IncludedAt(s, OpenAITokens[11].0, if s == "something/gpt-4-1106" then 10 else 0);
    PartialMatchIsLastDeclared(DefaultEndpoint, s, 11);
  }

  /** "unknown-model" matches nothing: no OpenAI fragment occurs in it, as each starts with a 'g'. */
  lemma UnknownModel()
    ensures MaxTokens(Str("unknown-model"), DefaultEndpoint) == None
    ensures MatchedName(Str("unknown-model"), DefaultEndpoint) == Some("unknown-model")
  {
    var s := "unknown-model";
    OpenAIKeys();
    NoneIncluded(s, Keys(OpenAITokens), 0, [0, 0, 0, 0, 0, 0, 0, 0, 0, 0, 0, 0]);
    NoMatchIsUndefined(DefaultEndpoint, s);
  }

  /** "unknown-google-model" matches nothing, as every Google fragment starts with a 't' or a 'c'. */
  lemma UnknownGoogleModel()
    ensures MaxTokens(Str("unknown-google-model"), Google) == None
    ensures MatchedName(Str("unknown-google-model"), Google) == Some("unknown-google-model")
  {
    var s := "unknown-google-model";
    NoneIncluded(s, Keys(GoogleTokens), 0, [0, 0, 0, 0, 0, 0, 0, 0]);
    NoMatchIsUndefined(Google, s);
  }

  /**
   * Only the exact name "claude-2.1" gets 200000: "claude-2.1" is declared
   * before "claude-", so a decorated "claude-2.1-x" resolves through the
   * later "claude-" to 100000, as do the other Claude names.
   */
  lemma ClaudeOrderQuirk(s: string)
    requires s == "claude-2.1-x" || s == "claude-2" || s == "claude-1.2" || s == "claude-1"
      || s == "claude-1-100k" || s == "claude-instant-1" || s == "claude-instant-1-100k"
    ensures MaxTokens(Str(s), Anthropic) == Some(100000)
    ensures MatchedName(Str(s), Anthropic) == Some("claude-")
  {
  }

  /**
   * Over the whole Anthropic table, only the exact name "claude-2.1" gets
   * 200000; every other name that includes "claude-" gets 100000, and the
   * rest get no limit.
   */
  lemma ClaudeLimits(s: string)
    ensures MaxTokens(Str(s), Anthropic) ==
      if s == "claude-2.1" then Some(200000)
      else if Includes(s, "claude-") then Some(100000)
      else None
  {
    var t := AnthropicTokens;
    TablesWellFormed(Anthropic);
    if s == "claude-2.1" {
      ExactMatchWins(Anthropic, 0);
    } else if Includes(s, "claude-") {
      if s == "claude-" {
        ExactMatchWins(Anthropic, 1);
      } else {
        PartialMatchIsLastDeclared(Anthropic, s, 1);
      }
    } else {
      if Includes(s, "claude-2.1") {
        IncludedAt("claude-2.1", "claude-", 0);
        IncludesTransitive(s, "claude-2.1", "claude-");
      }
      NoMatchIsUndefined(Anthropic, s);
    }
  }

  /**
   * A non-exact "codechat-bison" resolves through the last-declared "chat-"
   * to 8187, not through "codechat-" to 6139.
   */
  lemma CodechatBisonQuirk()
    ensures MaxTokens(Str("codechat-bison"), Google) == Some(8187)
    ensures MatchedName(Str("codechat-bison"), Google) == Some("chat-")
  {
    IncludedAt("codechat-bison", GoogleTokens[7].0, 4);
    PartialMatchIsLastDeclared(Google, "codechat-bison", 7);
  }
}
