# universal-error-normalizer, modelled in Dafny

The library takes whatever a JavaScript program caught and returns one
`NormalizedError` record. The record holds:

- a category (`type`, one of eleven);
- a human-readable message;
- optionally the HTTP status, a machine code, the offending field and details;
- a `retryable` flag;
- the origin (`source`, one of six);
- the original value.

`normalizeError` works in two steps. First it guesses the origin with an
ordered list of shape tests, unless the caller names the origin. Then it hands
the value to that origin's classifier: axios, fetch, GraphQL, REST or runtime.

The model covers:

- the detector and the dispatcher;
- the five classifiers;
- the two shared helpers, `getStatus` and `safeMessage`;
- the record builder `createError`;
- the two guards;
- the vocabulary in `types.ts`.

Caught values are modelled by `JsValue.Value`, a small model of JavaScript
values:

- `undefined`, `null`, booleans, integers, strings, arrays, and objects.
- An object's properties are an ordered list of entries, in insertion order,
  and `Object.keys` is taken to list them in that order.
- An object carries a class tag: plain literal, `Error`, `TypeError` or
  `DOMException`. The tag decides `instanceof`. It also supplies the inherited
  `message` (empty) and `name` of native errors.
- Reading a property (`Get`) returns the first own entry with that key.
  Without one, it returns the prototype's value.
- Truthiness, `||` and `typeof` are written out (`Truthy`, `Or`, `OrString`,
  `NumberOf`, `StringOf`).
- `parseInt(s, 10)` (`JsNumber.ParseInt`) reads leading white space, an
  optional sign, then the leading run of digits, on unbounded integers. The
  lemmas fix its value on every such input: padding, a plus sign, leading
  zeros and a trailing non-digit tail such as `" Not Found"` included.
- `String.prototype.toUpperCase` (`JsString.ToUpperCase`) covers ASCII, plus
  the two non-ASCII letters whose upper case is a single ASCII letter (dotless
  i, long s).

Three status tables in the source differ only in what a missing status means:

- network error for axios and fetch;
- unknown error for REST.

`HttpStatus.StatusType` is that one table, parameterised by the missing-status
category. `TransientTypes` (server error, rate limited) is the set the REST and
GraphQL retry rules accept.

The detector is written as the source's if-chain. `Dispatch.DetectionRules`
restates it as a decision list, a sequence of (test, origin) pairs with "first
match wins". A lemma proves the two agree on every input.

A record's message can be empty. `safeMessage` returns strings unchanged, so
the input `""` gives the message `""`, and a native `Error` without a message
gives its inherited `""`. The model follows the code: see
`Scenarios.RuntimeEmptyString` and `MessageExtract.NativeErrorWithoutMessage`.

`scenarios.dfy` restates inputs from the library's test files as lemmas about
`NormalizeError`. Each scenario has three parts: the origin detected, the
classifier's record, and the two combined.

## Model

| member | source | states |
|---|---|---|
| Types.ErrorTypeTagRoundTrip | src/types.ts:10-21 | Each of the eleven categories has its own string tag, and parsing the tag gives the category back. So the tags are pairwise distinct. |
| Types.ErrorSourceTagRoundTrip | src/types.ts:23-29 | Each of the six origins has its own string tag, and parsing the tag gives the origin back. |
| Types.ErrorTypesClosed | src/types.ts:10-21 | Every category is in the vocabulary, which has exactly eleven members. |
| Types.ErrorSourcesClosed | src/types.ts:23-29 | Every origin is in the vocabulary, which has exactly six members. |
| ErrorRecord.CreateError | src/createError.ts:24-48 | The record copies `type`, `message`, `status`, `code`, `field`, `details` and `original` unchanged. `retryable` defaults to false and `source` defaults to custom. |
| ErrorRecord.CreateErrorFromRecord | src/createError.ts:24-48 | Every record is what `createError` builds from its own fields, so the builder loses nothing. |
| ErrorRecord.OptionsOfCreateError | src/createError.ts:25-35 | Reading the options back from a built record returns the options with exactly the two defaults filled in. When both were given, it returns the same options. |
| Guards.GuardsOnCreatedRecord | src/guards.ts:3-9 | On a built record, `isRetryable` holds exactly when the caller passed `retryable: true`; leaving it out means not retryable. `isValidationError` holds exactly when the category is validation error. |
| Guards.GuardsReadTags | src/guards.ts:3-9 | `isRetryable` is the record's flag. `isValidationError` holds exactly when the category's tag is `"validation_error"`. |
| JsNumber.ParseInt | src/utils/getStatus.ts:21-25 | `parseInt` yields a number exactly when a digit follows the leading white space and optional sign. Otherwise it yields NaN, modelled as None. |
| JsNumber.ParseIntOfIntToString | src/utils/getStatus.ts:21-25 | Every integer written in decimal is read back by `parseInt` as the same integer, negative numbers included. |
| JsNumber.ParseIntReadsDigitRun | src/utils/getStatus.ts:21-25 | On white space, an optional sign, a digit run and a tail that does not start with a digit, `parseInt` gives the digit run's decimal value, negated exactly for a minus sign. |
| JsNumber.ParseIntOfPaddedIntToString | src/utils/getStatus.ts:21-25 | An integer's decimal form read after white space and before a non-digit tail gives that integer. |
| JsNumber.ParseIntOfPlusSign | src/utils/getStatus.ts:21-25 | A plus sign before a natural number's decimal form reads the same number, not its negation. |
| JsNumber.ParseIntOfStatusLine | src/utils/getStatus.ts:21-25 | `"404 Not Found"` reads as 404. |
| JsNumber.ParseIntOfPlusStatus | src/utils/getStatus.ts:21-25 | `"+404"` reads as 404. |
| JsNumber.ParseIntOfPaddedZeroStatus | src/utils/getStatus.ts:21-25 | `" 0404"` reads as 404. |
| JsNumber.ParseIntOfLetterStart | src/utils/getStatus.ts:21-25 | A string that starts with a letter is NaN to `parseInt`. |
| StatusExtract.GetStatus | src/utils/getStatus.ts:3-30 | A non-object has no status. A numeric top-level `status` wins over every other location. |
| StatusExtract.GetStatusPriority | src/utils/getStatus.ts:3-30 | A status comes from one of four places, each consulted only when the earlier ones gave no number: `status`, `response.status`, `statusCode`, then a `code` string parsed as an integer. There is no status exactly when none of the four gives one. |
| StatusExtract.StatusFromDecimalCode | src/utils/getStatus.ts:20-26 | A status stored only as the decimal string in `code` is recovered exactly. |
| StatusExtract.StatusFromLenientCode | src/utils/getStatus.ts:20-26 | When only `code` holds a status, written with padding, a sign, leading zeros or a trailing phrase, the status is its digit run's value, negated only for a minus sign. |
| StatusExtract.NoStatusFromWordCode | src/utils/getStatus.ts:20-26 | A word code such as `ECONNABORTED` yields no status. |
| MessageExtract.SafeMessage | src/utils/safeMessage.ts:3-17 | A string is its own message. An object's string `message` wins. Any other result is the fixed fallback text, and every non-string non-object gets that fallback. |
| MessageExtract.NativeErrorWithoutMessage | src/utils/safeMessage.ts:8-9 | A native `Error` with no `message` of its own reports the inherited empty message, not the fallback. |
| HttpStatus.StatusType | src/sources/axios.ts:15-28 | A falsy status gives the caller's missing-status category. A truthy non-number gives client error. A present status is transient (server error or rate limited) exactly when it is 429 or at least 500. |
| HttpStatus.StatusTypeMatchesTable | src/sources/rest.ts:16-29 | A non-zero numeric status maps to its named category (400, 401, 403, 404, 409, 422, 429), else to server error from 500 up, else to client error. |
| HttpStatus.StatusTableOnCommonStatuses | src/sources/fetch.ts:16-29 | The table's answers for 400 to 503 and for 418, whatever the missing-status category. |
| JsString.ToUpperCaseIdempotent | src/sources/graphql.ts:17 | Upper-casing twice is the same as upper-casing once. |
| GraphQLSource.MapGraphQLErrorCode | src/sources/graphql.ts:14-34 | No code or an empty code means unknown error. Otherwise the upper-cased code is looked up in the seven-entry table, and a code not in the table means unknown error. |
| GraphQLSource.MapCodeIgnoresCase | src/sources/graphql.ts:17 | A code and its upper-case form map to the same category. |
| GraphQLSource.GraphQLRetryable | src/sources/graphql.ts:36-45 | A GraphQL error is retryable exactly when its category is server error or rate limited. |
| GraphQLSource.ErrorCode | src/sources/graphql.ts:71-73 | The code is the error's string `extensions.code`, kept as given. There is one whenever that is a string. |
| GraphQLSource.ExtractFieldFromGraphQLError | src/sources/graphql.ts:47-61 | A string `extensions.field` is the field. Otherwise the field is the last path segment, when that is a string. There is no field exactly when neither applies. |
| GraphQLSource.NormalizeGraphQLError | src/sources/graphql.ts:63-119 | With a non-empty errors list, only the first error counts: its message (or the generic text), code and field. Otherwise a single error object with a string message is used. Otherwise the result is a non-retryable unknown error with the generic text. The category always follows the code, and the record is retryable exactly for the transient categories. |
| AxiosSource.AxiosRetryable | src/sources/axios.ts:30-45 | Retryable exactly when the status is missing, transient, or the error has the `ECONNABORTED` code or the `TimeoutError` name. |
| AxiosSource.ExtractMessageFromAxiosResponse | src/sources/axios.ts:47-76 | The body's string `message`, else its string `error`, else the string under the first key of an `errors` object. There is no message exactly when none of these is a string. |
| AxiosSource.ExtractFieldFromResponse | src/sources/axios.ts:78-100 | The first key of the body's `errors` object, whatever its value; otherwise a string `field`. |
| AxiosSource.NormalizeAxiosError | src/sources/axios.ts:102-153 | A timeout (code `ECONNABORTED`) is checked first and keeps the error's message. A request with no response is a retryable network error. A response is classified by the status table on `response.status`: the body's message comes before the error's, the body's field is used, and the record is retryable when the category is network, server or rate limited, or the name is `TimeoutError`. Anything else is a non-retryable unknown error. |
| FetchSource.FetchRetryable | src/sources/fetch.ts:31-44 | Retryable exactly when the status is missing, transient, or the error is named `TimeoutError`. |
| FetchSource.NormalizeFetchError | src/sources/fetch.ts:46-83 | A `TypeError` without a status is a retryable network failure. Otherwise an object named `AbortError` is a retryable timeout. Otherwise the record has `getStatus`'s status, the status table's category and the safe message (or "Request failed"). Its message is never empty. |
| FetchSource.StatusOnlyObjectMessage | src/sources/fetch.ts:71-72 | An object with a status and no string message gets the generic fallback text. It never gets "Request failed", because the fallback text is never empty. |
| RestSource.RestRetryable | src/sources/rest.ts:31-41 | Retryable exactly when the status is present and transient. A missing status is never retryable. |
| RestSource.RestPayload | src/sources/rest.ts:130-134 | The body read is `response.data` when the response is an object and the data is truthy. Otherwise it is the error itself. A truthy error gives a truthy body. |
| RestSource.RestMessageValue | src/sources/rest.ts:43-103 | The message as written, step by step. `null` or `undefined` gives "Request failed" and another non-object gives its safe message. Then the string `error`, `message` and `detail` fields are tried in that order. Then an `errors` array: when empty, "Validation errors occurred"; else its first entry when a string; else that entry's string `message`. Then an `errors` object: its first value when a string, else the first element of that value when it is a non-empty array. Otherwise "Request failed". The only way a non-string comes out is that array element. |
| RestSource.ExtractMessageFromRestError | src/sources/rest.ts:43-103 | The corrected message, always a string. It agrees with the source whenever the source yields a string, and is "Request failed" where the source would yield a non-string. Otherwise it is the fallback or a string found in the body: `error`, `message`, `detail`, the empty-list text, the first list entry or its `message`, or the first field's text or first array element. |
| RestSource.ExtractFieldFromRestError | src/sources/rest.ts:105-125 | A non-object body has no field. Otherwise the field is the first key of an `errors` object. When `errors` has no key (it is not an object, or an empty one), the field is a string `field`. |
| RestSource.NormalizeRestError | src/sources/rest.ts:127-150 | The status comes from `getStatus`, and the category from the status table with unknown error for a missing status. The record is retryable exactly for the transient categories, so never without a status. Message and field are read from the body `RestPayload` chooses, and the message is the corrected one (`ExtractMessageFromRestError`). |
| RestSource.NonStringFieldErrorLeaks | src/sources/rest.ts:95-97 | As written, an `errors` object whose first field is `[42]` yields the number 42 as the message. |
| RestSource.NonStringFieldErrorFallsBack | src/sources/rest.ts:101-102 | The corrected extraction gives "Request failed" for the same body. |
| RuntimeSource.NormalizeRuntimeError | src/sources/runtime.ts:14-23 | Always a non-retryable unknown error with the safe message, runtime origin, and no status, code, field or details. |
| Dispatch.DetectErrorSource | src/normalizeError.ts:18-66 | The guess is never custom. It is axios exactly when the axios flag is set. An errors array means GraphQL otherwise. It is runtime exactly when no shape test matches, so every non-object is runtime. |
| Dispatch.DetectIsDecisionList | src/normalizeError.ts:18-66 | For every input, the detector's if-chain and the nine-rule decision list give the same origin. |
| Dispatch.NormalizeError | src/normalizeError.ts:68-86 | The record always keeps the input and never says custom. A named origin other than custom is honoured whatever the shape. Custom goes to the runtime classifier. Without a named origin, the record is exactly the one the detected origin's classifier builds, so its origin is the detected one. |
| Dispatch.OverrideSkipsDetection | src/normalizeError.ts:69 | With a named origin, the result is that origin's classifier applied to the input, so detection plays no part. |
| Dispatch.DefaultRetryableIgnored | src/types.ts:43-46 | The `defaultRetryable` option never changes the result. |
| Dispatch.RenormalizeOriginal | src/normalizeError.ts:68-86 | Every record keeps the input itself as `original`, so normalizing it again with the same options gives the same record. This follows from `original` alone and is not a stability result about classification. |
| Scenarios.AxiosNetworkError | tests/axios.test.ts:5-20 | An axios request with no response gives a retryable network error with the error's own message. |
| Scenarios.AxiosTimeout | tests/axios.test.ts:22-37 | An `ECONNABORTED` axios error gives a retryable timeout with the error's own message. |
| Scenarios.AxiosValidationField | tests/axios.test.ts:59-82 | An axios 422 whose body has an `errors` object gives a validation error whose message and field come from that object. |
| Scenarios.FetchTypeError | tests/fetch.test.ts:5-16 | `new TypeError('Failed to fetch')` gives a fetch network error with the fixed text. |
| Scenarios.FetchAbort | tests/fetch.test.ts:18-29 | An `AbortError` DOMException gives a fetch timeout with the fixed text. |
| Scenarios.FetchStatusOnly | tests/fetch.test.ts:31-43 | `{status: 404, statusText}` gives a non-retryable not-found record with the generic fallback message. |
| Scenarios.FetchRateLimited | tests/fetch.test.ts:77-89 | `{status: 429, message}` gives a retryable rate-limited fetch record. |
| Scenarios.GraphQLValidation | tests/graphql.test.ts:28-51 | A `VALIDATION_ERROR` code with `extensions.field` gives a validation error carrying that code and field. |
| Scenarios.GraphQLFieldFromPath | tests/graphql.test.ts:53-76 | Without `extensions.field`, the last path segment is the field. |
| Scenarios.GraphQLEmptyErrors | tests/graphql.test.ts:185-198 | An empty errors list is still GraphQL, with the generic text. |
| Scenarios.RestValidationObject | tests/rest.test.ts:68-91 | A REST 422 whose body has a two-field `errors` object gives the first field and its message. |
| Scenarios.RestErrorsArray | tests/rest.test.ts:93-112 | An `errors` array gives its first string and no field. |
| Scenarios.RestPlainErrorBody | tests/rest.test.ts:179-192 | `{error: "..."}` is detected as REST, and is an unknown, non-retryable error with that message. |
| Scenarios.RestEmptyErrorsArray | tests/rest.test.ts:194-213 | An empty `errors` array gives "Validation errors occurred". |
| Scenarios.RestNullData | tests/rest.test.ts:215-232 | `data: null` makes the error itself the body, which gives "Request failed". |
| Scenarios.RuntimeNativeError | tests/runtime.test.ts:5-16 | A native `Error` is a runtime unknown error carrying its message. |
| Scenarios.RuntimeNull | tests/runtime.test.ts:44-55 | `null` is a runtime unknown error with the generic fallback message. |
| Scenarios.RuntimeEmptyString | src/utils/safeMessage.ts:4-6 | The empty string is its own message, so a record's message can be empty. |
| Scenarios.CustomOverrideOnAxiosShape | src/normalizeError.ts:82-84 | A custom override sends even an axios-flagged error to the runtime classifier, and the record says runtime. |

## Left out

- `isObject` (`src/utils/isObject.js`) is not part of this model. `IsObject` takes it to accept objects of every class and to reject arrays, `null` and primitives.
- `Object.keys` is taken to report keys in insertion order. JavaScript lists integer-like keys first, in ascending order, so for `{b: "x", "0": "y"}` the first key is `"0"`, not `"b"`. The model's `FirstKey`, and with it the first field read from an `errors` object (src/sources/axios.ts:87-89, src/sources/rest.ts:85-89 and 113-115), follows insertion order.
- Objects are finite lists of own entries plus a class tag. Prototype chains, getters, symbols and non-enumerable properties are not modelled. `instanceof` is read from the class tag.
- Numbers are integers. Floating point, `NaN` and `Infinity` are left out. `parseInt` is exact on integers and ignores the precision limit beyond 2^53.
- Strings are sequences of Unicode characters, not UTF-16 code units. `toUpperCase` maps ASCII letters and the two letters whose upper case is one ASCII letter; every other character is left unchanged. Multi-letter expansions (`ß` to `SS`, the ligatures to `FF`, `FI`, `FL`, `ST`) are left out, because no code in the GraphQL table contains SS, FF, FI, FL or ST.
- The `original` field holds the input value. Reference identity (`toEqual` versus `toBe`) is not modelled.
- `options.source` is restricted to the six origins. An arbitrary string from an untyped caller, which the source would route to runtime, is not modelled.
- `src/index.ts` only re-exports, and the test files (run by vitest) are not modelled beyond the scenarios restated as lemmas.
- MessageExtract.SafeMessage: for a native `Error` whose own `message` is not a string, JavaScript returns that non-string value through the `instanceof Error` branch. The model returns the fallback text, because the result type is a string.
- AxiosSource.NormalizeAxiosError: a `response.status` that is not a number is recorded as absent. A numeric string status is not coerced by `>= 500` and is classified as a client error.
- RestSource.NormalizeRestError: records the corrected message. For an `errors` object whose first value is an array starting with a non-string, the source records that non-string value (see Findings) and the model records "Request failed".
- HttpStatus.StatusType: a truthy status that is not a number is classified as a client error. JavaScript would coerce a numeric string such as `"503"` in `>= 500`.

## Findings

| source | as written | input that shows it | evidently intended | confidence | as-written member | corrected member |
|---|---|---|---|---|---|---|
| src/sources/rest.ts:95-96 | For an `errors` object whose first field is a non-empty array, the array's first element is returned as the message without checking that it is a string. | `{errors: {email: [42]}}` gives message `42`, a number, in a field typed `string`. | Only a string element is a message. Otherwise fall through to "Request failed". | medium, not executed | RestSource.RestMessageValue | RestSource.ExtractMessageFromRestError |
