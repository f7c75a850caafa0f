# KeychainQueryBuilder, modelled in Dafny

This project models the core of KeychainQueryBuilder, a Swift layer in front of the
platform keychain. It has two parts:

- **The query builder** (`QueryBuilder`, `query_builder.dfy`). `KeychainQueryBuilder` is an
  immutable fluent builder over a map from criterion key to value. Each setter returns a new
  builder with exactly one key written, or, for `data(fromString:)` on a failed encoding, the
  builder unchanged. `Build` hands out the accumulated map.
- **The result interpreter** (`ResultBuilder`, `result_builder.dfy`).
  `KeychainQueryResultBuilder.ResultFor` (`result(for:status:)`) turns the store's status code and optional item into a
  `KeychainQueryResult`. The original request is used for context.

The Security framework's constants are kept abstract (`Security`, `security.dfy`). The
datatype `SecConst` lists the constants the core uses. A `Platform` value gives each constant
its string (`name`) and supplies the two status codes `errSecSuccess` and `errSecItemNotFound`.
`Platform.NamesDistinct` says that different constants have different strings. Lemmas that
need this fact require it; the operations require nothing.

Other modelling choices:

- `Platform` is passed as a parameter to every operation that reads a framework constant,
  because the Swift code reads the constants as globals.
- Foundation's UTF-8 encoding is a parameter `encode: string -> Option<seq<bv8>>`.
- The store's opaque item is an `Option<Item>`, where `Item = Dict(map) | Other`.
- The private `init(query:)` and the public `init(forQuery:)` are the datatype constructors
  `KeychainQueryBuilder(query)` and `KeychainQueryResultBuilder(query)`.
- `Call`, `Apply` and `Run` describe chains of public setter calls as data, so that lemmas can
  quantify over every request the public API can build.

The multi-result guard is modelled as the code writes it (lines 126-128 and 138). It tests
whether the string value of `kSecMatchLimitAll` is present as a *key* of the request. The
source makes clear that the guard is meant to catch requests asking for all matches:

- line 138 passes the `.all` tag (`KeychainMatchLimit.all.kSecMatchlimit`) to the guard;
- the error it raises is named `multipleResultsNotSupportedYet`;
- the only way the builder puts that tag into a request is as the *value* under
  `kSecMatchLimit` (line 72).

So a request built with `matchLimit(.all)` is never rejected. See "## Findings".

## Model

| member | source | states |
|---|---|---|
| `QueryBuilder.LimitConstant` | KeychainQueryBuilder/Classes/KeychainQueryBuilder.swift:7-14 | each match limit maps to one of the two match-limit tags |
| `QueryBuilder.LimitConstantInjective` | KeychainQueryBuilder/Classes/KeychainQueryBuilder.swift:7-14 | when constant names are distinct, two limits share a tag string exactly when they are the same limit |
| `QueryBuilder.ClassConstant` | KeychainQueryBuilder/Classes/KeychainQueryBuilder.swift:26-39 | each data type maps to one of the five class tags |
| `QueryBuilder.ClassConstantInjective` | KeychainQueryBuilder/Classes/KeychainQueryBuilder.swift:26-39 | when constant names are distinct, two data types share a class string exactly when they are equal |
| `QueryBuilder.UpdatedMap` | KeychainQueryBuilder/Classes/KeychainQueryBuilder.swift:92-97 | the copy binds the key to the new value; every other key is present and bound exactly as before; the key set grows by that key only |
| `QueryBuilder.UpdatedMapTwice` | KeychainQueryBuilder/Classes/KeychainQueryBuilder.swift:92-97 | writing a key twice equals writing only the last value |
| `QueryBuilder.KeychainQueryBuilder.ForType` | KeychainQueryBuilder/Classes/KeychainQueryBuilder.swift:44-46 | `init(type:)`: the built map has `kSecClass` as its only key, bound to that type's class tag |
| `QueryBuilder.KeychainQueryBuilder.Empty` | KeychainQueryBuilder/Classes/KeychainQueryBuilder.swift:48-50 | `init()`: the built map has no keys |
| `QueryBuilder.KeychainQueryBuilder.Updated` | KeychainQueryBuilder/Classes/KeychainQueryBuilder.swift:87-89 | the new builder's map writes only the given key, with the given value |
| `QueryBuilder.KeychainQueryBuilder.Account` | KeychainQueryBuilder/Classes/KeychainQueryBuilder.swift:56-58 | sets `kSecAttrAccount` to the account string; every other key is unchanged |
| `QueryBuilder.KeychainQueryBuilder.Data` | KeychainQueryBuilder/Classes/KeychainQueryBuilder.swift:60-62 | sets `kSecValueData` to the bytes; every other key is unchanged |
| `QueryBuilder.KeychainQueryBuilder.DataFromString` | KeychainQueryBuilder/Classes/KeychainQueryBuilder.swift:64-69 | if encoding fails, the builder is returned unchanged; otherwise it equals `Data` of the encoded bytes and so writes only `kSecValueData` |
| `QueryBuilder.KeychainQueryBuilder.MatchLimit` | KeychainQueryBuilder/Classes/KeychainQueryBuilder.swift:71-73 | sets `kSecMatchLimit` to the limit's tag; every other key is unchanged |
| `QueryBuilder.KeychainQueryBuilder.ReturnAttributes` | KeychainQueryBuilder/Classes/KeychainQueryBuilder.swift:75-77 | sets `kSecReturnAttributes` to the flag (default true); every other key is unchanged |
| `QueryBuilder.KeychainQueryBuilder.ReturnData` | KeychainQueryBuilder/Classes/KeychainQueryBuilder.swift:79-81 | sets `kSecReturnData` to the flag (default true); every other key is unchanged |
| `QueryBuilder.KeychainQueryBuilder.Build` | KeychainQueryBuilder/Classes/KeychainQueryBuilder.swift:83-85 | returns the accumulated map unchanged; being a function of the value, repeated calls agree and a setter applied to `b` does not change `b.Build()` |
| `QueryBuilder.KeychainQueryBuilder.Apply` | KeychainQueryBuilder/Classes/KeychainQueryBuilder.swift:56-81 | any public setter writes only its own key (`CallKey`) with its own value, or changes nothing when a text fails to encode |
| `QueryBuilder.LastWriteWins` | KeychainQueryBuilder/Classes/KeychainQueryBuilder.swift:87-97 | two setters on the same key, the second of which writes: the result equals applying only the second |
| `QueryBuilder.DistinctKeysCommute` | KeychainQueryBuilder/Classes/KeychainQueryBuilder.swift:87-97 | setters on different keys commute, so criteria order is irrelevant |
| `QueryBuilder.RunSnoc` | KeychainQueryBuilder/Classes/KeychainQueryBuilder.swift:87-89 | extending a chain by one call equals applying that call to the chain's result |
| `QueryBuilder.RunKeys` | KeychainQueryBuilder/Classes/KeychainQueryBuilder.swift:56-97 | a chain keeps every key it started with and adds only the five keys the setters write; the class key of `init(type:)` is not among them |
| `ResultBuilder.AttributeIsSet` | KeychainQueryBuilder/Classes/KeychainQueryBuilder.swift:126-128 | true exactly when the attribute string is a key of the request, whatever its value |
| `ResultBuilder.ExtractOneElement` | KeychainQueryBuilder/Classes/KeychainQueryBuilder.swift:145-155 | a missing or non-dictionary item gives `unexpectedFormat`; a dictionary without bytes under `kSecValueData` gives `unexpectedlyNoData`; otherwise `one` holding exactly those bytes; no other outcome |
| `ResultBuilder.KeychainQueryResultBuilder.ResultFor` | KeychainQueryBuilder/Classes/KeychainQueryBuilder.swift:130-143 | `none` exactly when the status is item-not-found, whatever the item or request; `unhandledError` with the same status exactly when the status is neither not-found nor success, even for a well-formed item; `multipleResultsNotSupportedYet` exactly when the status is success and the "all" tag is a key of the request; otherwise the result of `ExtractOneElement`; never `many` |
| `ResultBuilder.KeychainQueryResultBuilder.IntendedResult` | KeychainQueryBuilder/Classes/KeychainQueryBuilder.swift:130-143 | the corrected classifier: the same guard chain, except that the multi-result rejection happens exactly when `kSecMatchLimit` holds the "all" tag |
| `ResultBuilder.BuiltQueryLacksAllTagKey` | KeychainQueryBuilder/Classes/KeychainQueryBuilder.swift:126-128 | when the "all" tag is not one of the builder's keys, no request built through the public API from either init has that tag as a key |
| `ResultBuilder.BuiltQueryNeverRejectedAsMultiple` | KeychainQueryBuilder/Classes/KeychainQueryBuilder.swift:138-139 | under the same proviso, the as-written classifier never returns `multipleResultsNotSupportedYet` for a built request |
| `ResultBuilder.MatchLimitAllNotRejected` | KeychainQueryBuilder/Classes/KeychainQueryBuilder.swift:138-142 | a request built with `matchLimit(.all)`, a success status and an item carrying bytes give `one` with those bytes, not the rejection |
| `ResultBuilder.IntendedRejectsMatchLimitAll` | KeychainQueryBuilder/Classes/KeychainQueryBuilder.swift:138-139 | the corrected classifier rejects every chain ending in `matchLimit(.all)` when the status is success, whatever the item |
| `ResultBuilder.IntendedAgreesUnlessAll` | KeychainQueryBuilder/Classes/KeychainQueryBuilder.swift:138-142 | on requests built from either init whose match limit is not "all", the corrected and as-written classifiers agree |
| `ResultBuilder.NamesDistinctGivesAllTagIsNotAKey` | KeychainQueryBuilder/Classes/KeychainQueryBuilder.swift:7-14 | distinct constant names imply the proviso that the "all" tag is none of the builder's keys |

## Findings

| source | as written | input that shows it | evidently intended | confidence | as-written member | corrected member |
|---|---|---|---|---|---|---|
| KeychainQueryBuilder/Classes/KeychainQueryBuilder.swift:138 | `attributeIsSet(KeychainMatchLimit.all.kSecMatchlimit, in: query)` tests whether the "all" tag string is a key of the request | `KeychainQueryBuilder(type: t).matchLimit(.all).build()` with status `errSecSuccess` and an item `[kSecValueData: bytes]`: the key tested is absent, so the result is `.one(bytes)` | reject with `multipleResultsNotSupportedYet` when `query[kSecMatchLimit]` is `kSecMatchLimitAll`, the only place line 72 puts that tag | high, not executed | `ResultBuilder.MatchLimitAllNotRejected` (about `ResultBuilder.KeychainQueryResultBuilder.ResultFor`) | `ResultBuilder.KeychainQueryResultBuilder.IntendedResult` (with `ResultBuilder.IntendedRejectsMatchLimitAll`) |

`BuiltQueryNeverRejectedAsMultiple` also shows that the as-written rejection can never fire for a
request made by the builder.

## Left out

- Concrete values of the Security framework constants and status codes: they are abstract, given by a `Platform`.
- CoreFoundation bridging (`as CFDictionary`, `as? [String: Any]`, `as? Data`, `CFTypeRef` identity): a request is a `map<string, Value>`, and the item is `Item`. So the cast of the request to a dictionary in `attributeIsSet` always succeeds in the model.
- An `Any` value that itself wraps `nil`: a present key always counts as set.
- Foundation's UTF-8 encoding: an uninterpreted parameter `encode`.
- The commented-out account extraction at line 152.
- The `Swift.Error` conformance of the error enum.
- Calls to the keychain itself: none occur in the core.
- `init(forQuery:)` and the private `init(query:)`: they only store their argument, which the datatype constructors do. They have no contract of their own.
- `QueryBuilder.LimitConstant` and `QueryBuilder.ClassConstant`: their own contracts only say which group of tags the result falls in. Injectivity is stated by the two `...Injective` lemmas, which need `Platform.NamesDistinct`.
