# Usertune client, modelled in Dafny

This project models the `Usertune` client of the usertune.js SDK (`src/client/index.ts`).
The client fetches personalised content for a slug in a workspace. It remembers the variant
the server picked, and reports conversions against that variant. It is a small state machine
over one field, `currentVariantId`, with three operations:

- `content` validates the slug and filters the attribute map down to string, number and
  boolean values. It issues one GET to `/v1/workspace/{workspace}/{slug}/` and then stores
  `metadata.variant_id` from the response, unconditionally.
- `track` rejects an empty conversion type first, then a falsy stored variant. It then issues
  one GET to `/v1/workspace/{workspace}/track/` with `conversion_type`, `variant_id` and,
  only when supplied, `conversion_value`.
- `contentWithTracker` calls `content` and returns a closure that forwards to `track`.

Every operation is a pure function from the client, the call's arguments and the transport's
reply to a `Step`. A `Step` holds the request issued (if any), the next client, and the value
returned or the error thrown. `http.get` is not modelled. Instead, the reply it settles with
(`Delivered(body)` or `Failed(reason)`) is an input. A failed reply still counts as an issued
request, and its error propagates unchanged.

The `Session` module pairs a client with the log of issued requests. It drives sequences of
calls, which is how statements about request counts and about the tracker's late binding are
stated. The log is an ordinary field, not a ghost one.

Files:
- `wrappers.dfy`: `Option` and `Result`.
- `values.dfy`: JavaScript values, `typeof`, and plain objects as their entry sequence.
- `attributes.dfy`: `filterAttributes`.
- `usertune.dfy`: construction, `content`, `track`, `contentWithTracker`.
- `session.dfy`: the client with its request log, runs of calls, and the tracker.

Modelling choices:
- A JavaScript object is the sequence of entries `Object.entries` yields, in that order.
  Keys are distinct (`DistinctKeys`) wherever a statement depends on it.
- Falsiness follows the code. `!slug` and `!conversionType` hold for `""`.
  `!currentVariantId` holds for null and for `""` (`IsTruthy`).
- The access token is optional. `UsertuneConfig` declares `accessToken: string`
  (src/types/index.ts:8), but the constructor never checks it (src/client/index.ts:28-33).
  The test at src/client/index.test.ts:65-70 builds a client without one.
- A stored `""` variant is falsy, so `track` rejects it exactly as it rejects null
  (src/client/index.ts:90).
- The client issues only GET requests, with query parameters.

## Model

| member | source | states |
|---|---|---|
| Values.IsPrimitive | src/client/index.ts:45 | the `typeof` test passes exactly strings, numbers and booleans; null, undefined, objects, arrays, bigints, symbols and functions fail it |
| Attributes.KeepPrimitives | src/client/index.ts:42-51 | every entry of the result is an entry of the input with a primitive value, every primitive entry of the input is in the result, and the result is no longer than the input |
| Attributes.FilterAttributes | src/client/index.ts:39-52 | an absent attribute map yields `{}`; otherwise an entry is in the result exactly when it is in the input and its value is primitive |
| Attributes.FilterSelectsPrimitiveEntries | src/client/index.ts:44-49 | the result is the input's subsequence at strictly increasing positions, and those positions are exactly the ones holding primitive values: order is kept, values are unchanged, nothing else is dropped |
| Attributes.FilterPreservesDistinctKeys | src/client/index.ts:44-47 | a map with distinct keys filters to a map with distinct keys |
| Attributes.FilterLookup | src/client/index.ts:39-52 | looking up any key in the filtered map gives the caller's value when it is primitive and nothing otherwise: no key is added or renamed, and null, undefined, object and array entries are gone |
| Attributes.FilterIdempotent | src/client/index.ts:44-49 | filtering an already filtered map returns it unchanged |
| Attributes.KeepAsWritten | src/client/index.ts:46 | building the result by assignment keeps exactly the primitive entries whose key is not `__proto__` |
| Attributes.AsWrittenDropsProtoEntry | src/client/index.ts:46 | an own `__proto__` entry with a string value is dropped by the assignment but kept by the intended filter |
| Attributes.AsWrittenAgreesAwayFromProto | src/client/index.ts:44-49 | when no key is `__proto__`, the loop as written and the intended filter give the same result |
| Usertune.New | src/client/index.ts:19-25 | construction fails with the workspace error exactly when the workspace is empty; otherwise the client has that workspace and a null variant id |
| Usertune.ConstructionIgnoresOptions | src/client/index.ts:19-33 | two configurations with the same workspace construct the same client, so a missing access token, base URL, timeout or debug flag is never an error |
| Usertune.ContentUrlDeterminesSlug | src/client/index.ts:66 | within a workspace, distinct slugs give distinct content URLs |
| Usertune.TrackSlugAddressesTrackEndpoint | src/client/index.ts:94 | the unescaped slug "track" produces the tracking URL |
| Usertune.Content | src/client/index.ts:60-77 | an empty slug throws the slug error, issues nothing and changes nothing; otherwise it issues one GET to the slug's URL with the filtered attributes; on delivery it returns the response unchanged and stores its variant id, null included; on a transport error the client is unchanged and the error propagates |
| Usertune.TrackParamsShape | src/client/index.ts:95-102 | the tracking parameters have distinct keys, carry the conversion type and variant id as given, and contain `conversion_value`, with the supplied value, exactly when a value is supplied |
| Usertune.Track | src/client/index.ts:85-106 | the client never changes; an empty type throws the type error; otherwise a falsy stored variant throws the no-variant error; neither error issues a request; otherwise it issues exactly one GET to the tracking URL with the stored variant, and returns the reply or propagates its error |
| Usertune.ConversionTypeCheckedFirst | src/client/index.ts:86-92 | with no variant stored, an empty conversion type still reports the type error, not the variant error |
| Usertune.ContentWithTracker | src/client/index.ts:114-122 | it issues the same request, reaches the same client and throws the same errors as `content`, and on success returns `content`'s response |
| Session.Apply | src/client/index.ts:60-106 | a call rejected by validation leaves client and log untouched; any other call appends exactly one request to the log; track calls never change the client |
| Session.Run | src/client/index.ts:16-17 | over any run of calls the log only grows and the workspace never changes |
| Session.RunStoresLastDeliveredVariant | src/client/index.ts:73-74 | after any run, the stored variant is the one delivered by the last successful content call (null included), or the initial one if there was none |
| Session.ContentWithTrackerIssuesOneRequest | src/client/index.ts:114-115 | `contentWithTracker` issues exactly the content request when the slug is given, and nothing otherwise |
| Session.TrackerUsesVariantAtCallTime | src/client/index.ts:117-119 | calling the tracker after any further calls issues one tracking request carrying the variant of the last successful content call, not a copy taken when the tracker was made |
| Session.ContentThenTrack | src/client/index.test.ts:284-314 | `content` then `track` issues exactly two requests, the second carrying the variant the first delivered and the value supplied |
| Session.NullVariantBlocksTracking | src/client/index.test.ts:316-331 | for any slug, attributes, conversion type and value: after content whose variant is null or empty, `track` throws the no-variant error and issues no request |

## Left out

- Attributes.FilterAttributes: follows the corrected filter (`KeepPrimitives`). It differs from the assignment at src/client/index.ts:46 only on an own `__proto__` key with a primitive value, which the code as written drops (see "## Findings"). `Attributes.AsWrittenAgreesAwayFromProto` proves the two agree on every map without that key.
- Usertune.Content: builds its query parameters with `Attributes.FilterAttributes`, the corrected filter. On an attribute map with an own `__proto__` key holding a primitive, the model sends that entry and the code as written does not. On every other map the two agree (`Attributes.AsWrittenAgreesAwayFromProto`).

- The HTTP transport (`AxiosHttpClient`, `src/http`) is not part of this model. `http.get` is replaced by the reply given with each call.
- The bearer token, base URL, timeout and debug options only configure that transport, so they have no effect here.
- Promises and `await` are not modelled. Each call is one atomic step, so the last-write-wins race between overlapping `content` calls is out of scope.
- The shape of a response is taken on trust. A response without `metadata` would throw a `TypeError` after the request was issued; the response type here always has metadata.
- Response payloads (`data`, extra metadata and tracking fields) are carried as opaque entries.
- Numbers are reals. They are only carried, never computed with, so IEEE details do not matter.
- `conversionValue` is either supplied or `undefined`. An explicit `null` from untyped JavaScript would pass `!== undefined`; that case is not modelled.
- Arguments are assumed to be strings, as the TypeScript types declare. A missing workspace in untyped JavaScript is modelled as the empty string.
- The key order `Object.entries` imposes (integer-like keys first) is taken as given. The model keeps whatever order the entries arrive in.
- Error messages are given by `Usertune.Message`, which has no contract of its own.
- The `UsertuneClient` alias (src/client/index.ts:126) and the build configuration (`rollup.config.js`) have no behaviour to model.

## Findings

| source | as written | input that shows it | evidently intended | confidence | as-written member | corrected member |
|---|---|---|---|---|---|---|
| src/client/index.ts:46 | `filtered[key] = value` assigns into a plain object. For the key `__proto__`, this calls the setter inherited from `Object.prototype`, which ignores primitive values, so no own entry is created. | attributes from `JSON.parse('{"__proto__":"x"}')`, which has an own `__proto__` key with a string value | every entry whose value is a string, number or boolean is kept, whatever its key | not executed; high (follows from the ECMAScript definition of the `__proto__` accessor) | Attributes.KeepAsWritten, Attributes.AsWrittenDropsProtoEntry | Attributes.KeepPrimitives, Attributes.FilterSelectsPrimitiveEntries |
