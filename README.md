# Delobytes.Extensions.Configuration in Dafny

This project models the core of Delobytes.Extensions.Configuration, a pair of
configuration providers for Microsoft.Extensions.Configuration:

- **AWS AppConfig.** The provider fetches a JSON document for an application, environment and configuration. It flattens the document into `parent:child` keys. It remembers the configuration version it last decoded, so an unchanged version is not decoded again.
- **Yandex Cloud Lockbox.** The provider fetches the entries of a secret. It strips an optional key prefix, translates the key separator to `:`, and refuses binary entries and entries that collide up to case.

The two providers share one reload cycle:

- The `Data` snapshot is replaced, and `OnReload` fires, only when the fetched content differs from it.
- A failed load follows this escalation policy:
  - an optional provider swallows the error;
  - otherwise the error is ignored during a timer reload but not on the initial load;
  - a registered `OnLoadException` callback overrides that default through the context's `Ignore` flag;
  - an error that is not ignored is rethrown.

Around the providers the model covers:

- the builder extensions that validate a configured source and then append it;
- the source classes, with their defaults;
- the exception-context classes;
- `DictionaryExtensions`;
- the service-account JWT generator;
- the IAM token cache.

Modules, one per component:

| module | file | what |
|---|---|---|
| `Wrappers`, `Failures` | wrappers.dfy | `Option`, `Result`, and the exception kinds raised |
| `Text` | text.dfy | `IsNullOrEmpty`, `ToLowerInvariant`, `OrdinalIgnoreCase` comparison, `TrimStart`, `Replace` |
| `DictionaryExtensions` | dictionary_extensions.dfy | `GetValue`, `ContentEquals` |
| `ReloadPolicy` | reload_policy.dfy | the swap and escalation steps of `LoadAsync`, shared by both providers |
| `YcLockboxKeys` | yc_lockbox_keys.dfy | Lockbox key transformation and entry decoding, as functions |
| `YcLockbox` | yc_lockbox.dfy | the Lockbox source, exception context and provider classes |
| `AwsAppConfigDecoding` | aws_appconfig_decoding.dfy | JSON flattening, `ToDictionary`, the version step, as functions |
| `AwsAppConfig` | aws_appconfig.dfy | the AppConfig source, exception context and provider classes |
| `ConfigurationBuilderExtensions` | configuration_builder_extensions.dfy | the two `Add…Configuration` extensions and their checks |
| `JwtCredentials` | jwt_credentials.dfy | `JwtCredentialsProvider` and its token cache |
| `JwtTokenGenerator` | jwt_token_generator.dfy | the generator's guards, header, claims and error order |

The providers are classes:

- Their read-only settings are `const` fields.
- `Data`, the count of `OnReload` notifications and, for AppConfig, the held version are `var` fields.
- `LoadAsync` is a method proved against `ReloadPolicy.Swap` and `ReloadPolicy.Rethrows`.
- Each provider's `GetAllKeyValuePairs` is a method proved equal to a pure specification. Lemmas characterise that specification:
  - for Lockbox, the decoding loop is proved against `DecodePayload`;
  - for AppConfig, which has no loop, the version test and decoding are proved against `FetchStep`.

Four things the providers depend on are parameters of the calls that use them:

- the remote services: the Lockbox payload service, the AppConfig service and the IAM token service;
- the JSON and PEM parsers and the signer;
- the clock;
- the operating-system platform.

A `Result` failure stands for a raised exception.

A gap in the shown source (see `src/ConfigurationBuilderExtensions.cs:65-78`):

- `AddYandexCloudLockboxConfiguration` reads `ServiceAccountId`, `ServiceAccountAuthorizedKeyId` and `PrivateKey` from the Lockbox source.
- `YcLockboxConfigurationSource`, as shown, declares none of them.
- The Lockbox provider instead requires `OauthToken`, which the builder never checks.

`YcLockbox.YcLockboxSettings` is therefore the union of both sets of properties. As a result, a source that the builder accepts can still fail in `Build`.

## Model

| member | source | states |
|---|---|---|
| `Text.ToLowerInvariant` | src/AwsAppConfig/AwsAppConfigConfigurationProvider.cs:30-33 | every character is lower-cased in place, the length is kept and no upper-case letter remains |
| `Text.TrimStart` | src/YandexCloudLockbox/YcLockboxConfigurationProvider.cs:155 | the result is a suffix of the input; every dropped character is the separator and the result does not start with it |
| `Text.Replace` | src/YandexCloudLockbox/YcLockboxConfigurationProvider.cs:158 | same length; each separator becomes `:` and every other character is kept |
| `Text.EqualsIgnoreCaseIsEquivalence` | src/YandexCloudLockbox/YcLockboxConfigurationProvider.cs:136 | the `OrdinalIgnoreCase` key comparison is reflexive, symmetric and transitive |
| `DictionaryExtensions.GetValue` | src/DictionaryExtensions.cs:14-17 | the stored value for a present key, otherwise the default; it is total (no KeyNotFoundException) |
| `DictionaryExtensions.EntriesDetermineMap` | src/DictionaryExtensions.cs:25-28 | two dictionaries have the same key/value pairs exactly when they are the same dictionary |
| `DictionaryExtensions.ContentEquals` | src/DictionaryExtensions.cs:23-29 | true exactly when both sides, null read as empty, hold the same pairs, independent of order |
| `DictionaryExtensions.ContentEqualsIsEquivalence` | src/DictionaryExtensions.cs:25-28 | reflexive, symmetric, transitive; null on either side compares like an empty dictionary |
| `DictionaryExtensions.ContentEqualsDetectsDifference` | src/DictionaryExtensions.cs:26-28 | an extra key, a missing key or a differing value makes the result false |
| `DictionaryExtensions.GetValueRespectsContentEquals` | src/DictionaryExtensions.cs:14-29 | content-equal dictionaries answer every `GetValue` alike |
| `ReloadPolicy.SwapNotifiesIffChanged` | src/YandexCloudLockbox/YcLockboxConfigurationProvider.cs:77-84 | a decoded dictionary becomes `Data`, with one `OnReload` exactly when it differs from the old `Data`; a null result changes nothing |
| `ReloadPolicy.SwapIdempotent` | src/YandexCloudLockbox/YcLockboxConfigurationProvider.cs:77-84 | loading the same content twice notifies at most once |
| `ReloadPolicy.EscalationCases` | src/YandexCloudLockbox/YcLockboxConfigurationProvider.cs:87-113 | optional swallows; with no callback the error is rethrown exactly on a non-reload; with a callback exactly when it leaves `Ignore` false |
| `ReloadPolicy.CallbackIsAuthoritative` | src/YandexCloudLockbox/YcLockboxConfigurationProvider.cs:94-112 | a callback leaving `Ignore` false rethrows even on reload; one setting it suppresses even the initial load's error |
| `YcLockboxKeys.TransformKey` | src/YandexCloudLockbox/YcLockboxConfigurationProvider.cs:151-158 | no path separator other than `:` survives in a transformed key |
| `YcLockboxKeys.TransformKeyShape` | src/YandexCloudLockbox/YcLockboxConfigurationProvider.cs:151-158 | without a matching prefix only separators are translated; with one, the key is the text after the prefix and its run of separators, translated |
| `YcLockboxKeys.FailurePersists` | src/YandexCloudLockbox/YcLockboxConfigurationProvider.cs:145-170 | once an entry fails, the whole decoding fails with that error; no later entry matters |
| `YcLockboxKeys.CollisionBreaksDistinctness` | src/YandexCloudLockbox/YcLockboxConfigurationProvider.cs:160 | an `Add` that finds its key already present up to case means two entries' keys collide |
| `YcLockboxKeys.FreshKeyExtends` | src/YandexCloudLockbox/YcLockboxConfigurationProvider.cs:160 | adding a text entry with a fresh key extends the decoded dictionary by exactly that entry |
| `YcLockboxKeys.AddEntryStep` | src/YandexCloudLockbox/YcLockboxConfigurationProvider.cs:147-169 | one loop step succeeds exactly when the entry is text and its key is new up to case, keeping the invariant |
| `YcLockboxKeys.DecodeEntriesCharacterised` | src/YandexCloudLockbox/YcLockboxConfigurationProvider.cs:136-172 | decoding succeeds iff every entry is text and no two transformed keys collide ignoring case; the result maps each transformed key to its entry's text and holds nothing else |
| `YcLockboxKeys.UnsupportedEntryFails` | src/YandexCloudLockbox/YcLockboxConfigurationProvider.cs:162-169 | any binary or unknown entry fails the whole fetch; no partial dictionary is returned |
| `YcLockboxKeys.CaseCollisionFails` | src/YandexCloudLockbox/YcLockboxConfigurationProvider.cs:136-160 | two entries whose transformed keys differ only in case fail the fetch |
| `YcLockboxKeys.TransformKeyStripsPrefix` | src/YandexCloudLockbox/YcLockboxConfigurationProvider.cs:151-158 | with Path "prefix" and separator '-', "prefix-sub-key" becomes "sub:key" |
| `YcLockboxKeys.TransformKeyIgnoresPrefixCase` | src/YandexCloudLockbox/YcLockboxConfigurationProvider.cs:153 | paths equal up to case transform every key identically |
| `YcLockboxKeys.TransformKeyKeepsOtherKeys` | src/YandexCloudLockbox/YcLockboxConfigurationProvider.cs:153-158 | a key without the prefix, or any key when Path is null, is kept with only separators translated |
| `YcLockboxKeys.TransformKeyMatchesPrefixAsText` | src/YandexCloudLockbox/YcLockboxConfigurationProvider.cs:153-155 | the prefix is matched as text: "prefixes-a" under "prefix" becomes "es:a" |
| `YcLockbox.DefaultSettings` | src/YandexCloudLockbox/YcLockboxConfigurationSource.cs:21-51 | defaults: null strings, separator '\0', not optional, 60 s load timeout, 7-day reload period, no callback |
| `YcLockbox.YcLockboxConfigurationSource.constructor` | src/YandexCloudLockbox/YcLockboxConfigurationSource.cs:21-51 | a new source holds the default settings |
| `YcLockbox.YcLockboxConfigurationSource.Configure` | src/ConfigurationBuilderExtensions.cs:63 | after the configure callback the source holds the settings it computed from the old ones |
| `YcLockbox.YcLockboxConfigurationSource.Build` | src/YandexCloudLockbox/YcLockboxConfigurationSource.cs:12-15 | a fresh provider configured from this source, with empty `Data`; or ArgumentException for a missing OauthToken |
| `YcLockbox.YcLockboxExceptionContext.constructor` | src/YandexCloudLockbox/YcLockboxExceptionContext.cs:13-28 | a new context has no provider and no exception, and `Ignore` and `Reload` false |
| `YcLockbox.YcLockboxConfigurationProvider.constructor` | src/YandexCloudLockbox/YcLockboxConfigurationProvider.cs:31-37 | the settings are copied from the source; `Data` is empty and nothing was notified |
| `YcLockbox.YcLockboxConfigurationProvider.New` | src/YandexCloudLockbox/YcLockboxConfigurationProvider.cs:17-37 | null source raises ArgumentNullException, null or empty OauthToken ArgumentException, otherwise a fresh configured provider |
| `YcLockbox.YcLockboxConfigurationProvider.OnReload` | src/YandexCloudLockbox/YcLockboxConfigurationProvider.cs:82 | observers are notified once more |
| `YcLockbox.YcLockboxConfigurationProvider.GetAllKeyValuePairs` | src/YandexCloudLockbox/YcLockboxConfigurationProvider.cs:131-173 | the loop computes exactly `DecodePayload`: null for no entries, else the decoded dictionary or the first entry's error |
| `YcLockbox.YcLockboxConfigurationProvider.Load` | src/YandexCloudLockbox/YcLockboxConfigurationProvider.cs:62-67 | the reload cycle with reload false: swap on success, rethrow per the escalation policy on failure |
| `YcLockbox.YcLockboxConfigurationProvider.LoadAsync` | src/YandexCloudLockbox/YcLockboxConfigurationProvider.cs:69-114 | on success the new `Data` and notification count are `Swap` of the old; on failure `Data` is kept, the error is rethrown iff `Rethrows`, and a context (this provider, the exception, the reload flag, the callback's `Ignore`) exists iff not optional and a callback is set |
| `YcLockbox.EmptyPayloadKeepsData` | src/YandexCloudLockbox/YcLockboxConfigurationProvider.cs:140-143 | an empty secret decodes to null, so `Data` and the notification count stay |
| `AwsAppConfigDecoding.ElementText` | src/AwsAppConfig/AwsAppConfigConfigurationProvider.cs:165 | a leaf's text: a string's value, "True"/"False", "" for null, raw text for numbers and arrays |
| `AwsAppConfigDecoding.SelectLeavesComplete` | src/AwsAppConfig/AwsAppConfigConfigurationProvider.cs:162-172 | every non-object value of the document is emitted under its member names joined by ":" |
| `AwsAppConfigDecoding.SelectLeavesSound` | src/AwsAppConfig/AwsAppConfigConfigurationProvider.cs:162-172 | every emitted pair is a non-object value of the document under its joined path |
| `AwsAppConfigDecoding.ToDictionaryCharacterised` | src/AwsAppConfig/AwsAppConfigConfigurationProvider.cs:173 | `ToDictionary` succeeds iff the keys are distinct and then holds exactly the pairs; otherwise a duplicate-key error |
| `AwsAppConfigDecoding.FlattenedComplete` | src/AwsAppConfig/AwsAppConfigConfigurationProvider.cs:169-173 | every leaf of the document is a key of the flattened configuration, with its text |
| `AwsAppConfigDecoding.FlattenedSound` | src/AwsAppConfig/AwsAppConfigConfigurationProvider.cs:169-173 | every key of the flattened configuration names a leaf with that text |
| `AwsAppConfigDecoding.GetJsonAsConfigurationCharacterised` | src/AwsAppConfig/AwsAppConfigConfigurationProvider.cs:160-175 | succeeds iff the root is an object and no two leaves share a flattened key, and then holds exactly the leaves; a non-object root raises InvalidOperationException |
| `AwsAppConfigDecoding.DeserializeData` | src/AwsAppConfig/AwsAppConfigConfigurationProvider.cs:141-158 | empty content is an empty, non-null configuration; unparsable content fails; otherwise the flattened document |
| `AwsAppConfigDecoding.FetchStepVersion` | src/AwsAppConfig/AwsAppConfigConfigurationProvider.cs:129-138 | an unchanged version gives null and keeps the version; the version moves to the response's only when decoding succeeds |
| `AwsAppConfigDecoding.FetchStepIdempotent` | src/AwsAppConfig/AwsAppConfigConfigurationProvider.cs:129-136 | after a successful step the same response is not decoded again |
| `AwsAppConfigDecoding.NestedObjectExample` | src/AwsAppConfig/AwsAppConfigConfigurationProvider.cs:162-173 | {"a":{"b":"1"},"c":"2"} flattens to {"a:b":"1","c":"2"} |
| `AwsAppConfigDecoding.FlattenedKeyCollisionExample` | src/AwsAppConfig/AwsAppConfigConfigurationProvider.cs:171-173 | a literal "a:b" key beside {"a":{"b":…}} fails the fetch |
| `AwsAppConfigDecoding.LeafKinds` | src/AwsAppConfig/AwsAppConfigConfigurationProvider.cs:164-166 | an empty nested object contributes no keys; every non-object value is a single leaf |
| `AwsAppConfig.DefaultSettings` | src/AwsAppConfig/AwsAppConfigConfigurationSource.cs:22-55 | defaults: null names, not optional, 60 s load timeout, 7-day reload period, no region, no callback |
| `AwsAppConfig.AwsAppConfigConfigurationSource.constructor` | src/AwsAppConfig/AwsAppConfigConfigurationSource.cs:22-55 | a new source holds the default settings |
| `AwsAppConfig.AwsAppConfigConfigurationSource.Configure` | src/ConfigurationBuilderExtensions.cs:25 | after the configure callback the source holds the settings it computed from the old ones |
| `AwsAppConfig.AwsAppConfigConfigurationSource.Build` | src/AwsAppConfig/AwsAppConfigConfigurationSource.cs:13-16 | a fresh provider configured from this source; NullReferenceException when a name is null |
| `AwsAppConfig.AwsAppConfigExceptionContext.constructor` | src/AwsAppConfig/AwsAppConfigExceptionContext.cs:13-28 | a new context has no provider and no exception, and `Ignore` and `Reload` false |
| `AwsAppConfig.AwsAppConfigConfigurationProvider.constructor` | src/AwsAppConfig/AwsAppConfigConfigurationProvider.cs:25-37 | names stored lower-cased, region defaulting to US East 1, the rest copied; empty `Data`, version "0" |
| `AwsAppConfig.AwsAppConfigConfigurationProvider.New` | src/AwsAppConfig/AwsAppConfigConfigurationProvider.cs:18-37 | null source raises ArgumentNullException, a null name NullReferenceException, otherwise a fresh configured provider |
| `AwsAppConfig.AwsAppConfigConfigurationProvider.Request` | src/AwsAppConfig/AwsAppConfigConfigurationProvider.cs:118-125 | the request carries the lower-cased names and the version currently held |
| `AwsAppConfig.AwsAppConfigConfigurationProvider.OnReload` | src/AwsAppConfig/AwsAppConfigConfigurationProvider.cs:82 | observers are notified once more |
| `AwsAppConfig.AwsAppConfigConfigurationProvider.GetAllKeyValuePairs` | src/AwsAppConfig/AwsAppConfigConfigurationProvider.cs:116-139 | the result and the new held version are exactly `FetchStep` of the old version and the response |
| `AwsAppConfig.AwsAppConfigConfigurationProvider.Load` | src/AwsAppConfig/AwsAppConfigConfigurationProvider.cs:62-67 | the reload cycle with reload false |
| `AwsAppConfig.AwsAppConfigConfigurationProvider.LoadAsync` | src/AwsAppConfig/AwsAppConfigConfigurationProvider.cs:69-114 | the version moves as `FetchStep` says; on success `Data` and the count are `Swap` of the old; on failure `Data` is kept, the error is rethrown iff `Rethrows`, and a context exists iff not optional and a callback is set |
| `AwsAppConfig.UnchangedVersionKeepsState` | src/AwsAppConfig/AwsAppConfigConfigurationProvider.cs:129-132 | a response with the held version decodes nothing and leaves `Data`, the count and the version unchanged |
| `AwsAppConfig.EmptyContentClearsData` | src/AwsAppConfig/AwsAppConfigConfigurationProvider.cs:143-157 | empty content with a new version replaces a non-empty `Data` by an empty map and notifies |
| `ConfigurationBuilderExtensions.ConfigurationBuilder.Add` | src/ConfigurationBuilderExtensions.cs:47 | the source is appended to the builder's sources |
| `ConfigurationBuilderExtensions.ValidateAwsSettingsReportsFirstEmpty` | src/ConfigurationBuilderExtensions.cs:27-45 | the checks pass iff all four names are non-empty; a failure is ArgumentNullException naming the first empty one in the order EnvironmentName, ApplicationName, ConfigurationName, ClientId |
| `ConfigurationBuilderExtensions.ValidateLockboxSettingsReportsFirstEmpty` | src/ConfigurationBuilderExtensions.cs:65-88 | the checks pass iff ServiceAccountId, ServiceAccountAuthorizedKeyId, PrivateKey, SecretId are non-empty and the separator is not '\0'; a failure names the first empty string, else PathSeparator |
| `ConfigurationBuilderExtensions.AddAwsAppConfigConfiguration` | src/ConfigurationBuilderExtensions.cs:20-49 | a null callback raises ArgumentNullException; the callback runs on a default source; a failed check leaves the builder untouched; otherwise exactly that source is appended and the same builder returned |
| `ConfigurationBuilderExtensions.AddYandexCloudLockboxConfiguration` | src/ConfigurationBuilderExtensions.cs:58-92 | as for AppConfig, with the Lockbox checks |
| `ConfigurationBuilderExtensions.DefaultSeparatorRejected` | src/ConfigurationBuilderExtensions.cs:85-88 | a source left with the default separator '\0' is always refused |
| `ConfigurationBuilderExtensions.DefaultsFailFirstCheck` | src/ConfigurationBuilderExtensions.cs:24-68 | a callback that sets nothing fails the first check of either extension |
| `JwtCredentials.ExpiredTokenIsReused` | src/YandexCloudLockbox/JwtCredentialsProvider.cs:37-39 | as written, an already expired cached token is reused and one with an hour left is replaced |
| `JwtCredentials.NeedsRefreshServesLiveTokens` | src/YandexCloudLockbox/JwtCredentialsProvider.cs:37-39 | with the intended test a cached token is reused only while it has more than 300 s left; it is the negation of the written test on a cached token |
| `JwtCredentials.JwtCredentialsProvider.constructor` | src/YandexCloudLockbox/JwtCredentialsProvider.cs:18-22 | the JWT and service are fixed; nothing is cached or requested |
| `JwtCredentials.JwtCredentialsProvider.GetToken` | src/YandexCloudLockbox/JwtCredentialsProvider.cs:35-48 | as written: one request carrying the construction-time JWT exactly when the written test holds, its response cached; the call returns the cached token exactly when no request was due or the request succeeded; a failed request propagates and keeps the cache |
| `JwtCredentials.JwtCredentialsProvider.GetTokenRefreshingBeforeExpiry` | src/YandexCloudLockbox/JwtCredentialsProvider.cs:35-48 | corrected: a request exactly when no token is cached or it expires within 300 s; a reused token has more than 300 s left; the cached token is returned exactly when no request was due or the request succeeded |
| `JwtTokenGenerator.NewGenerator` | src/YandexCloudLockbox/JwtTokenGenerator.cs:15-36 | ArgumentException for a null or empty serviceAccountId, then key id, then private key, in that order; the audience is not checked; the fields are kept |
| `JwtTokenGenerator.Headers` | src/YandexCloudLockbox/JwtTokenGenerator.cs:47 | the header is exactly {kid: authorized key id} |
| `JwtTokenGenerator.Payload` | src/YandexCloudLockbox/JwtTokenGenerator.cs:49-55 | exactly the claims aud, iss, iat, exp: audience, service account, now, and an expiry 3600 s after issue |
| `JwtTokenGenerator.GetEncodedJwtToken` | src/YandexCloudLockbox/JwtTokenGenerator.cs:43-90 | an error from the PEM reader propagates first; a PEM that is no RSA key raises InvalidOperationException before the platform test; a platform other than Windows or Linux raises next; otherwise the outcome of importing the key and signing the payload and header, whose failure propagates; success exactly when all four steps succeed |
| `JwtTokenGenerator.PayloadsDifferOnlyInTime` | src/YandexCloudLockbox/JwtTokenGenerator.cs:49-55 | tokens generated at different times differ only in iat and exp, which move together |

## Left out

- Timer-driven reloads (`ChangeToken.OnChange` with the reload period) are not modelled as timers. A reload is an explicit `LoadAsync` call with `reload` true.
- The load timeout and cancellation are not modelled. A timeout is one more failure of the fetch (`Failures.Timeout`).
- The remote services are parameters:
  - the Lockbox payload is passed as its list of entries, with `GetSecretAsync` returning the empty list for an empty payload;
  - the AppConfig service is a function from request to response;
  - the IAM token service is a function from request to response.
- The gRPC channel, the `Sdk` and the `OAuthCredentialsProvider` are not modelled.
- JSON parsing and stream reading are not modelled. `DeserializeData` takes the parser as a function, and an element keeps the raw text `JsonElement.ToString` would give.
- PEM reading, RSA key import and PS256 signing are parameters of `GetEncodedJwtToken`. The PEM reader returns a failure when `PemReader.ReadObject` throws on malformed text, and `None` when the object it reads is not an RSA private key. The signer returns a failure when `RSA.ImportParameters` or `JWT.Encode` throws; which keys they reject is not modelled.
- DictionaryExtensions.GetValue: the optional argument `defaultValue = default` is always passed explicitly. A call that omits it gets `default(TV)`, which is null for a reference type, and the model expresses that only by passing the default value itself.
- The clock and the platform test are parameters (`now`, `platform`).
- `_awsConfigurationVersion` and `_appConfigClient` are `static` in the source, so every AppConfig provider in a process shares one version. The model gives each provider its own `version`. Interference between providers is not modelled. In the source, a second AppConfig provider starts from the version the first one stored. If its configuration reports that same version number, the version test returns null and the second provider never loads.
- `ContentEquals` sorts both sides with a culture-sensitive `OrderBy`. The model compares the two sets of pairs. A collation under which two distinct keys compare equal, so that a stable sort keeps insertion order, is not modelled.
- `OrdinalIgnoreCase` and `ToLowerInvariant` are modelled on ASCII letters only.
- `Data` starts as the case-insensitive dictionary of `ConfigurationProvider`. Each successful swap replaces it with the provider's own result, and the two providers build that result differently:
  - Lockbox builds it with `StringComparer.OrdinalIgnoreCase` (src/YandexCloudLockbox/YcLockboxConfigurationProvider.cs:136), so its keys stay case-insensitive;
  - AppConfig builds it with the default comparer (src/AwsAppConfig/AwsAppConfigConfigurationProvider.cs:143 and :173), so after its first swap, lookups into `Data` are case-sensitive.
- The model keys `Data` by exact string, and the comparer that `Data` carries is not modelled. Lookups into `Data` are not modelled either.
- Callbacks are modelled as functions:
  - an `OnLoadException` callback is a function from the exception and the reload flag to the `Ignore` value it leaves;
  - a configure callback is a function from the old settings to the new ones.
- Callbacks that throw, or that change other state, are not modelled.
- `TimeSpan` values are whole seconds.
- A region endpoint is its system name.
- Exceptions are values of `Failures.Error`. Messages are kept only where the source fixes them.
- `IConfigurationBuilder` is modelled only by its list of sources. The builder's own `Build` is not part of this model.
- test/YcLockboxProviderTests.cs and test/AppSecretsValidator.cs need live cloud credentials and are not part of this model.

## Findings

| source | as written | input that shows it | evidently intended | confidence | as-written member | corrected member |
|---|---|---|---|---|---|---|
| src/YandexCloudLockbox/JwtCredentialsProvider.cs:37-39 | a new IAM token is requested when the cached one expires more than 300 s after now | a cached token with ExpiresAt = now - 1 is returned without a request; one with ExpiresAt = now + 3600 is replaced on every call | request a new token when none is cached or the cached one expires within 300 s (ExpiresAt <= now + 300) | high; not executed | `JwtCredentials.ExpiredTokenIsReused` | `JwtCredentials.JwtCredentialsProvider.GetTokenRefreshingBeforeExpiry` |
