# Model-limit lookup of LibreChat's `api/utils/tokens.js`

This project models the registry that maps a language-model name to its maximum token count. The registry has one table per endpoint: OpenAI, Google and Anthropic. Each table maps a model-name fragment to a limit. Two lookups use it:

- `getModelMaxTokens(modelName, endpoint)` gives the limit.
- `matchModelName(modelName, endpoint)` gives the fragment that matched.

Both lookups use the same algorithm:

1. A non-string name gives `undefined`.
2. An endpoint without a table gives `undefined` for the limit, and the name itself for the key.
3. A name that is itself a declared fragment matches exactly.
4. Otherwise the fragments are scanned from last-declared to first. The first one that the name contains (`String.prototype.includes`) wins.
5. If none matches, the limit is `undefined` and the key lookup echoes the name.

Modules:

- `Strings` (`strings.dfy`): `Includes` is `s.includes(p)`, proved equal to "`p` occurs in `s` at some index". Helper lemmas show that a fragment is or is not included.
- `Tokens` (`tokens.dfy`): the data and the two operations.
  - Each table is a `seq<(string, nat)>` in declaration order. That is the order `Object.keys` gives for keys that are not integer-like (section 10.1.11.1 of ECMA-262, OrdinaryOwnPropertyKeys).
  - `TokensMap` is `maxTokensMap[endpoint]`, `Get` is `tokensMap[key]` and `Keys` is `Object.keys`.
  - `OpenAITokens`, `GoogleTokens` and `AnthropicTokens` are the three tables of `maxTokensMap` (api/utils/tokens.js:44-57, 58-70, 71-74).
  - `TiktokenModels` is the exported `tiktokenModels` set (api/utils/tokens.js:3-40, 152), as a constant.
  - `MaxTokens` and `MatchedName` are pure specification functions. They are built from `LastIncluded`, the index of the last-declared fragment that the name includes.
  - `GetModelMaxTokens` and `MatchModelName` are methods. Each does the guards, then calls `LookupLimit` or `LookupKey`. Those hold the exact-match test and the backward `while` loop, and each is proved equal to its specification function.
- `TokensProperties` (`tokens_properties.dfy`): the properties the lookups promise, proved about the specification functions.
- `TokensExamples` (`tokens_examples.dfy`): concrete cases from `api/utils/tokens.spec.js` and the table-order quirks.

Inputs are modelled as follows:

- The model name is `Str(s)` or `NonString`. `NonString` covers `undefined`, `null`, numbers and objects.
- The endpoint is `OpenAI`, `Google`, `Anthropic` or `Unregistered`. `Unregistered` stands for every identifier without a table.
- The default argument `EModelEndpoint.openAI` is the constant `DefaultEndpoint`.
- The exact-match guard `if (tokensMap[modelName])` is JavaScript truthiness: the value is present and not 0 (`Truthy`). `TablesWellFormed` proves that every declared limit is positive, so the guard holds exactly for the declared fragments (`ExactGuardIsKey`).

Two quirks of the declaration order are reproduced, not corrected:

- `"claude-2.1"` is declared before `"claude-"`. So only the exact name `"claude-2.1"` gets 200000, and `"claude-2.1-x"` gets 100000. `ClaudeLimits` proves this for every name.
- A non-exact `"codechat-bison"` resolves through the last-declared `"chat-"` to 8187.

Where the source's doc comments and its code differ, the model follows the code:

- The doc comment at api/utils/tokens.js:125 says an unknown model gives `undefined`. The code at line 148 echoes the input.

## Model

| member | source | states |
|---|---|---|
| Strings.Includes | api/utils/tokens.js:106 | `s.includes(p)` is true exactly when `p` occurs in `s` at some index |
| Strings.IncludesTransitive | api/utils/tokens.js:106 | a name that includes `p` includes every fragment of `p` |
| Tokens.TokensMap | api/utils/tokens.js:95 | `maxTokensMap[endpoint]` has a non-empty table exactly for the OpenAI, Google and Anthropic endpoints (also line 132) |
| Tokens.Keys | api/utils/tokens.js:104 | `Object.keys(tokensMap)` lists the table's fragments in declaration order, one per entry (also line 141) |
| Tokens.Truthy | api/utils/tokens.js:100 | the guard `if (tokensMap[modelName])` is false for `undefined` and for 0, and true for a positive limit (also line 137) |
| Tokens.LimitIn | api/utils/tokens.js:100-111 | the limit found is declared with a fragment that the name includes, and there is none when the name includes no fragment |
| Tokens.KeyIn | api/utils/tokens.js:137-148 | the key found is the name itself or a declared fragment that the name includes, and it is the name when no fragment is included |
| Tokens.MaxTokens | api/utils/tokens.js:90-112 | a limit is returned only for a string name under an endpoint with a table |
| Tokens.MatchedName | api/utils/tokens.js:127-149 | `undefined` is returned exactly for a non-string name; otherwise the result is the name or a fragment that it includes |
| Tokens.Get | api/utils/tokens.js:100-101 | `tokensMap[k]` is defined exactly when `k` is a declared fragment, and then it is a limit declared for `k` |
| Tokens.LastIncluded | api/utils/tokens.js:104-109 | the index found is a fragment the name includes, and no later-declared fragment is included; no index means no fragment is included |
| Tokens.LastIncludedAt | api/utils/tokens.js:105-108 | the backward scan stops at `i` if fragment `i` is included and no later fragment is (the converse is `LastIncluded`'s own contract) |
| Tokens.LookupLimit | api/utils/tokens.js:100-111 | the exact-match test and the backward loop over `Object.keys` give the limit of the specification function `LimitIn` |
| Tokens.LookupKey | api/utils/tokens.js:137-148 | the exact-match test and the backward loop give the key of the specification function `KeyIn`, or the name itself |
| Tokens.GetModelMaxTokens | api/utils/tokens.js:90-112 | the method returns exactly `MaxTokens(modelName, endpoint)`, whose properties are proved below |
| Tokens.MatchModelName | api/utils/tokens.js:127-149 | the method returns exactly `MatchedName(modelName, endpoint)`, whose properties are proved below |
| TokensProperties.TablesWellFormed | api/utils/tokens.js:43-75 | in the tables as declared (`OpenAITokens`, `GoogleTokens`, `AnthropicTokens`), no fragment appears twice and every limit is positive |
| TokensProperties.GetDeclared | api/utils/tokens.js:100-101 | in a table without repeated fragments, `tokensMap[k]` for a declared `k` is the limit declared with `k` |
| TokensProperties.ExactGuardIsKey | api/utils/tokens.js:100 | with positive limits, the truthiness guard holds exactly when the name is a declared fragment |
| TokensProperties.NonStringIsUndefined | api/utils/tokens.js:91-93 | a non-string name gives `undefined` from both lookups for every endpoint (the same guard is at lines 128-130) |
| TokensProperties.UnregisteredEndpoint | api/utils/tokens.js:95-98 | an endpoint without a table gives no limit, and `matchModelName` echoes the name (lines 132-135) |
| TokensProperties.ExactMatchWins | api/utils/tokens.js:100-102 | a declared fragment gets its own limit and itself, even when a later-declared fragment is also a substring of it |
| TokensProperties.PartialMatchIsLastDeclared | api/utils/tokens.js:104-109 | a name that is no declared fragment gets the limit and key of the last-declared fragment it includes |
| TokensProperties.NoMatchIn | api/utils/tokens.js:104-111 | over a table with positive limits, no limit is found exactly when the name includes no fragment, and the key lookup then gives the name |
| TokensProperties.NoMatchIsUndefined | api/utils/tokens.js:111 | under an endpoint with a table, `getModelMaxTokens` is `undefined` exactly when no fragment is a substring, and `matchModelName` then echoes the name (line 148) |
| TokensProperties.ResolvedKeyIsIncluded | api/utils/tokens.js:137-148 | the key found is either a declared fragment the name includes, or the name itself when no fragment is included; the limit found is `tokensMap[key]` |
| TokensProperties.LookupsAgree | api/utils/tokens.js:90-149 | on an endpoint with a table, `getModelMaxTokens` is defined exactly when `matchModelName` gives a declared fragment, and it equals that fragment's limit |
| TokensProperties.MatchIdempotent | api/utils/tokens.js:137-148 | `matchModelName` applied to its own result gives the same result; any result comes from a string input |
| TokensProperties.ResultsBounded | api/utils/tokens.js:43-75 | a limit returned is a declared positive limit; a key returned that differs from the name is a declared fragment that the name includes |
| TokensExamples.Gpt432kUnknown | api/utils/tokens.spec.js:11-15 | `"gpt-4-32k-unknown"` gives 32767 and the key `"gpt-4-32k"` (also lines 131-133) |
| TokensExamples.OpenRouterGpt432k | api/utils/tokens.spec.js:17-21 | `"openai/gpt-4-32k"` gives 32767 |
| TokensExamples.Gpt41106Decorated | api/utils/tokens.spec.js:71-81 | `"gpt-4-1106/something"`, `"gpt-4-1106-preview"`, `"gpt-4-1106-vision-preview"` and `"something/gpt-4-1106"` give 127995 and the key `"gpt-4-1106"` (also lines 160-164) |
| TokensExamples.Gpt35Turbo1106Within | api/utils/tokens.js:104-109 | a name that is not itself a fragment, holds `"gpt-3.5-turbo-1106"` and has no `'4'` gives 16380 and the key `"gpt-3.5-turbo-1106"` |
| TokensExamples.Gpt35Turbo1106Prefixed | api/utils/tokens.spec.js:62-65 | `"something-/gpt-3.5-turbo-1106"` and `"something/gpt-3.5-turbo-1106"` give 16380 and the key `"gpt-3.5-turbo-1106"` (also line 157) |
| TokensExamples.Gpt35Turbo1106Suffixed | api/utils/tokens.spec.js:66-68 | `"gpt-3.5-turbo-1106/something-/"` and `"gpt-3.5-turbo-1106/something"` give 16380 and the key `"gpt-3.5-turbo-1106"` (also line 156) |
| TokensExamples.Gpt35TurboUnknown | api/utils/tokens.spec.js:33-37 | `"gpt-3.5-turbo-unknown"` gives 4095 |
| TokensExamples.UnknownModel | api/utils/tokens.spec.js:23-25 | `"unknown-model"` gives no limit, and `matchModelName` echoes it (lines 135-137) |
| TokensExamples.UnknownGoogleModel | api/utils/tokens.spec.js:112-114 | `"unknown-google-model"` gives no limit under Google, and is echoed (lines 172-176) |
| TokensExamples.ExactMatches | api/utils/tokens.spec.js:5-9 | `"gpt-4-32k-0613"`, `"gpt-3.5-turbo-16k-0613"`, `"gpt-3.5-turbo-1106"`, `"gpt-4-1106"` (OpenAI), `"claude-2.1"` (Anthropic), `"text-bison-32k"`, `"codechat-bison-32k"`, `"code-"` and `"chat-"` (Google) give their declared limits, and every one of them except `"gpt-3.5-turbo-16k-0613"` gives itself from `matchModelName` (also lines 27-31, 52-60, 85, 103-110, 116-123, 127-129, 147-153, 167-170, 178-181) |
| TokensExamples.ClaudeLimits | api/utils/tokens.js:71-74 | under Anthropic, every name gets 200000 if it is exactly `"claude-2.1"`, else 100000 if it includes `"claude-"`, else no limit |
| TokensExamples.ClaudeOrderQuirk | api/utils/tokens.js:71-74 | every Claude name from the tests except `"claude-2.1"`, and a decorated `"claude-2.1-x"`, gives 100000 through `"claude-"` |
| TokensExamples.CodechatBisonQuirk | api/utils/tokens.js:58-70 | a non-exact `"codechat-bison"` gives 8187 through the last-declared `"chat-"` |

## Left out

- `EModelEndpoint` (api/utils/tokens.js:1) is an external enumeration that is not part of this model. It is collapsed to the three endpoints with a table plus `Unregistered`.
- Property names inherited from `Object.prototype`, such as `"constructor"`, make `tokensMap[modelName]` truthy in JavaScript. The model treats exact match as "is a declared fragment". This is out of scope, as it concerns JavaScript prototype behaviour rather than the registry.
- Dynamic types other than string vs non-string are collapsed into `NonString`, because both lookups treat every non-string the same way.
- The `endpoint` argument is never absent in the model. Callers that omit it, or pass `undefined` explicitly, get the default parameter `EModelEndpoint.openAI` in JavaScript (api/utils/tokens.js:90, 127), and are modelled by passing `DefaultEndpoint`, never `Unregistered`.
- The callers that use the returned limit, such as history truncation, are not part of this model.
- Strings are Dafny strings, sequences of Unicode scalar values, while a JavaScript string is a sequence of UTF-16 code units. Strings holding a lone surrogate cannot be represented. Every declared fragment is ASCII, so on well-formed strings `includes` and equality agree with the model.
- `tiktokenModels` is only declared as a constant set. Nothing in the core reads it.
