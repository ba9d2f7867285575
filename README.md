# Batch resource status updater — Dafny model

This project models the decision logic of `user_update_demo.js`, a tool that
drives a list of remote resources to a target status through a generic HTTP API.
For each identifier it queries the resource. It reads the current status from
the first of several candidate fields. If the resource is already at the target
it skips it; otherwise it sends an update with retries. Between items it waits
for a random pacing delay, and at the end it returns a summary of the run.

The model works over JavaScript values (`Undefined | Null | Bool | Num | Str |
Arr | Obj`) with JavaScript truthiness. It has one module per component:

- `JsValues` (js_values.dfy): values, truthiness, `||`, property reads, and the
  string conversion of a template literal. It also gives the own-property view
  that the `in` operator sees: an array has index keys plus `length`, and a
  primitive has none, so `in` throws on it.
- `Configuration` (configuration.dfy): the configuration record. It is built
  from the environment entries, with the source's `|| default` fallbacks. The
  entries arrive as raw strings, except the numeric ones, which arrive already
  parsed; `STATUS_FIELDS` is split at commas here. It also holds `getTargetStatus`.
- `Logging` (logging.dfy): `getI18nString` and the level filter of `log`.
- `StatusFields` (status_fields.dfy): the read path (`getStatusValue`), the
  write path (`getStatusFieldName`), how the two relate, and
  `hasTargetStatus`.
- `Requests` (requests.dfy): `getApiUrl`, the query and update URLs,
  `generateHeaders`, and the update payload.
- `Fetcher` (fetcher.dfy): `getResourceInfo` from the decoded response body to
  a record or null.
- `Updater` (updater.dfy): `updateResourceStatus` with its retry chain, as a
  loop over scripted attempt outcomes.
- `Batch` (batch.dfy): `processResourceStatus` and the `processAllResources`
  loop, with counters, results and pacing.

Network requests are oracle outcomes given in advance. The query of an item is
a `FetchOutcome`. The update attempts of an item are a script of booleans:
attempt `i` succeeds exactly when `script[i]` holds. The code keeps retrying
while `maxRetries >= 1`, whatever happens. So when a script runs out during
retries, the outcome is `Retrying`: the source has not returned yet. The batch
then stops with `completed = false`.

Where the code's own text points at a different intent than its behaviour,
the model follows the behaviour:

- The retry log label at user_update_demo.js:293 counts attempts as
  `retryCount + 1` of `maxRetries + 1`, and the wait at line 298 is
  `1000 * retryCount`, so growing waits and a bounded number of attempts are
  evidently intended. But the counter is stored on the error just caught, and
  every attempt throws a fresh error, so the counter is 0 on every failure.
  Every wait is therefore 1000 ms, and with `maxRetries >= 1` a permanently
  failing update is retried without end (`Updater.FailingUpdateNeverStops`).
  A configured `0` becomes `2`, because `parseInt(...) || 2` maps 0 to the
  default.
- The pacing test at line 375 is evidently meant as "not the last item", but it
  compares the identifier's first position, `indexOf(identifier)`, with
  `length - 1`. So every item but the last is followed by a delay, and so is
  the last item when its identifier already occurred earlier
  (`Batch.PausesAfterEveryButLast`).
- The comment at line 45 calls `minDelay`/`maxDelay` a delay range. The
  formula at line 377 never reaches `maxDelay`, and when `maxDelay <= minDelay`
  it gives a value between `maxDelay` and `minDelay`
  (`Batch.OffsetGivesDelayInRange`).

Two further points on what the code does:

- The list is taken from the first of the four keys whose value is truthy, not
  the first that is present; an empty array is truthy, so an empty `items`
  hides every other key (`Fetcher.EmptyItemsShadowsOtherKeys`).
- The write path (`getStatusFieldName`) checks key presence only, while the
  read path (`getStatusValue`) also skips `undefined` values, so the two may
  pick different fields (`StatusFields.FieldNameVersusValue`).

## Model

| member | source | states |
|---|---|---|
| `JsValues.RecordView` | user_update_demo.js:153-165 | a list element is usable as a record exactly when it is an object or an array; an object shows its own properties; an array shows each index `i` as the key `String(i)` holding element `i`, plus `length`, and no other key |
| `Configuration.EnvOr` | user_update_demo.js:34-56 | an environment entry with its default: a set, non-empty entry is used; an unset or empty one gives the default |
| `Configuration.ParsedOr` | user_update_demo.js:46-52 | a parsed number with its default: a non-zero parsed number is used; a missing one or 0 gives the default, so a non-zero default never becomes 0 |
| `Configuration.TargetStatus` | user_update_demo.js:187-189 | the target is never empty, and it is `statusMap.active` whenever that entry is non-empty |
| `Configuration.FromEnv` | user_update_demo.js:21-57 | a set STATUS_FIELDS, split at commas, replaces the default candidates, otherwise the five defaults apply; the candidate list is never empty; every endpoint, the search parameter, the delays, timeout, retry limit, auth type, token, log level, language and update method come from their entries with their defaults; retries, delays and timeout are never 0; a configured retry limit of 0 becomes 2; the auth header is on unless the entry is exactly "false"; the target is `ACTIVE_RESOURCE` |
| `JsValues.Split` | user_update_demo.js:23 | `split(',')` always gives at least one piece, no piece contains a comma, and joining the pieces with commas gives the entry back |
| `Configuration.EmptyStatusFieldsReplacesDefaults` | user_update_demo.js:23 | a set but empty STATUS_FIELDS still replaces the defaults, with the empty field name as the only candidate |
| `Logging.I18nString` | user_update_demo.js:313-316 | the text is the language table's non-empty entry for the key, or else the key itself; never empty for a non-empty key |
| `Logging.ShouldLog` | user_update_demo.js:333-335 | errors always pass; the "error" level passes only errors; the "info" level hides exactly debug messages; any other level passes everything |
| `StatusFields.StatusValue` | user_update_demo.js:173-181 | the value read is never `undefined` |
| `StatusFields.StatusValueReadsFirstDefined` | user_update_demo.js:173-181 | the value read is the one of the earliest candidate that is a key with a non-`undefined` value, and null exactly when there is none or that value is null |
| `StatusFields.StatusValueAt` | user_update_demo.js:175-178 | a defined but falsy value (`false`, `0`, `""`, null) at the earliest defined candidate is what is read |
| `StatusFields.StatusFieldName` | user_update_demo.js:244-252 | the field written is always a candidate or `"status"` |
| `StatusFields.StatusFieldNameIsFirstPresent` | user_update_demo.js:244-252 | the field written is the earliest candidate that is a key, even when its value is `undefined`, else `"status"` |
| `StatusFields.FieldNameVersusValue` | user_update_demo.js:244-252 | the field written is never later than the field read; if it is earlier, its value is `undefined`; with no candidate key, the read gives null and the write gives `"status"`; with no `undefined` value, both use the same field |
| `StatusFields.HasTargetStatus` | user_update_demo.js:196-208 | true only for a truthy status; for an array, true iff the target string is an element; otherwise true iff the status is the (non-empty) target string, so no number, boolean or object matches |
| `StatusFields.MissingStatusIsNotTarget` | user_update_demo.js:196-199 | a record with no candidate key is never at the target, although its update would write `"status"` |
| `StatusFields.HasTargetStatusAt` | user_update_demo.js:198-207 | at the target iff the earliest defined candidate holds the target string or an array containing it |
| `StatusFields.ArrayRecordHasNoStatus` | user_update_demo.js:153-156 | a record that is an array has no default candidate field: its status reads null and its update field is `"status"` |
| `Requests.ApiUrl` | user_update_demo.js:215-217 | the URL is the base followed by the named endpoint's path (`resource`, `query`, `update`, or `base` itself); an unknown endpoint name adds nothing to the base |
| `Requests.QueryUrl` | user_update_demo.js:129-131 | the query URL is the resource URL, `?`, the parameter name and `=`, then the encoded identifier, then `&limit=1` |
| `Requests.QueryUrlRoundTrip` | user_update_demo.js:129-131 | the encoded identifier can be read back unchanged from the query URL |
| `Requests.UpdateUrl` | user_update_demo.js:261 | the update URL is the resource URL, `/`, and the id as a template literal converts it |
| `Requests.MissingIdUpdatesUndefined` | user_update_demo.js:261 | a record without an id is updated at `.../undefined` |
| `Requests.GenerateHeaders` | user_update_demo.js:223-237 | the headers are exactly the two JSON headers, plus `Authorization: {authType} {token}` when it is enabled |
| `Requests.UpdatePayload` | user_update_demo.js:268-275 | the key set is exactly {id, status field, updatedAt, metadata}; a later key of the literal overwrites an earlier one; metadata is the record's metadata if truthy, else `{}`; no other field of the record is carried over |
| `Requests.DefaultPayloadCarriesTarget` | user_update_demo.js:265-275 | with the default candidates, the update carries the target under the resolved field, keeps the id, and drops every other field |
| `Requests.UpdateRequest` | user_update_demo.js:259-283 | an update attempt uses `UPDATE_METHOD` (default `PATCH`), the URL `{base}{resource}/{id}`, the generated headers, and a body whose keys are exactly id, the resolved status field, updatedAt and metadata: the target under the status field, the record's id under id (unless the status field is `id`), the attempt's timestamp under updatedAt, and the record's metadata if truthy, else `{}` |
| `Requests.QueryAndUpdateShareResourceUrl` | user_update_demo.js:129-131 | the query URL and the update URL of a record both begin with `{base}{resource}`, followed by `?` and `/` respectively |
| `Fetcher.ItemsList` | user_update_demo.js:147 | the list is the value of the earliest of `items`, `data`, `resources`, `results` that is truthy, else `[]`; it is always truthy |
| `Fetcher.GetResourceInfo` | user_update_demo.js:127-166 | a failed request, a null body or an empty list gives null; otherwise the result is the record view of the list's first element, which is null exactly when that element is not an object or array |
| `Fetcher.ListBodyRoundTrip` | user_update_demo.js:147-153 | a body listing records under any alternate key gives back the first record; an empty list gives null |
| `Fetcher.EmptyItemsShadowsOtherKeys` | user_update_demo.js:147-151 | an empty array under `items` wins over every other key and means not found |
| `Fetcher.FalsyItemsFallsThrough` | user_update_demo.js:147-153 | a falsy `items` falls through to the list under `data` |
| `Updater.UpdateResourceStatus` | user_update_demo.js:259-306 | with retries on, the update succeeds at the first scripted success after that many attempts, or is still retrying when the script ends; with `maxRetries <= 0`, one attempt decides; each attempt sends the same request; every backoff is 1000 ms; one backoff follows each failure that is retried |
| `Updater.FailingUpdateNeverStops` | user_update_demo.js:291-305 | with `maxRetries >= 1`, any number of scripted failures are all attempted and the update is still retrying |
| `Updater.DefaultRetriesExceedThreeAttempts` | user_update_demo.js:291-305 | with the default of two retries, four failures mean four attempts, not three, and no end |
| `Batch.ProcessResourceStatus` | user_update_demo.js:99-120 | not found gives false with no update request and no wait; a record already at the target gives true with no update request and no wait; otherwise the update's outcome decides, its requests are the update requests for the fetched record, and one 1000 ms wait follows each retried failure |
| `Batch.IndexOf` | user_update_demo.js:375 | the first position holding the identifier, or -1 exactly when it is absent |
| `Batch.Pace` | user_update_demo.js:375-380 | a delay follows item i exactly when the identifier's first position is before the last position; the delay is in the range the formula yields |
| `Batch.ProcessAllResources` | user_update_demo.js:350-392 | one result per finished item, in input order, with its identifier and outcome; success counts the true outcomes and success + failed is the number of results; a run completes exactly when every item finishes, and otherwise stops at the first item still retrying; total is the number of identifiers |
| `Batch.PausesAfterEveryButLast` | user_update_demo.js:375 | every item but the last is followed by a delay; the last is too exactly when its identifier occurs earlier |
| `Batch.DistinctIdsPauseBetweenItems` | user_update_demo.js:375 | with distinct identifiers, delays follow exactly the first n-1 items |
| `Batch.RepeatedLastIdPausesAfterEnd` | user_update_demo.js:375 | for the list ["A", "A"], both items are followed by a delay |
| `Batch.OffsetGivesDelayInRange` | user_update_demo.js:377 | every offset the random formula yields gives a delay in range; a proper range never reaches `maxDelay`; an empty or inverted one gives at most `minDelay` |
| `Batch.AlreadyActiveNeedsNoUpdate` | user_update_demo.js:104-111 | a listed record whose `status` is the target succeeds whatever the update would do |
| `Batch.PendingStateIsUpdatedUnderState` | user_update_demo.js:265-271 | a record with `state: "PENDING"` is not at the target, and its update writes the target under `state` |
| `Batch.ArrayStatusContainingTarget` | user_update_demo.js:203-204 | an array-valued status that contains the target counts as at the target |

## Left out

- Network I/O: `fetch`, `AbortSignal.timeout`, response `.ok` and `.json()`. Each query is a `FetchOutcome` and each update attempt is one scripted boolean.
- Sleeping (`setTimeout`): each wait is recorded as a number of milliseconds.
- `Math.random`: the pacing offset is chosen nondeterministically among the integers that `Math.floor(Math.random() * span)` can produce.
- Clocks (`Date.now`, `toISOString`): the update timestamp is an opaque string `now`. Result entries do not carry timestamps or durations.
- Updater.UpdateResourceStatus: every attempt sends the same request with the same `now`, while the source builds a fresh timestamp for each attempt, because clocks are not modelled.
- Console output, `logMsg`, the messages written at each step, the status display placeholder, and the startup banner: output only. The level filter and message lookup are kept.
- The literal texts of the message tables: `Logging.I18nString` takes the tables as a parameter.
- Integer parsing (`parseInt`): numeric entries arrive already parsed, and `None` stands for `NaN`.
- `JSON.stringify` and `encodeURIComponent`: foreign library calls. The payload is the object before serialisation, and the query URL takes the identifier already encoded.
- The prototype chain: `in` and property reads see only own properties, so for example `"toString" in {}` is false here, and `getApiUrl` of an inherited name such as `"toString"` adds nothing to the base (the source only ever passes `"resource"`).
- Numbers are integers: `NaN`, fractions and `-0` are not modelled. String lengths count characters, not UTF-16 code units.
- JsValues.TemplateString: writes an integer in exact decimal, while JavaScript numbers are doubles. Integers beyond 2^53 lose precision, and from 1e21 on they are written in exponent notation. So the update URL of such an id differs from the source's, because doubles are not modelled.
- JsValues.TemplateString: writes every object as `[object Object]` and never throws. In the source, an object whose own `toString` is not callable makes the conversion throw. That happens first in the status display at line 160, inside the `try` of `getResourceInfo`, which then returns null, so the update URL at line 261 is never built for such a record. Such an item is false in the source with no update sent, while the model fetches and updates it, because own methods on JSON objects are not modelled.
- A run that never ends: the model cannot loop forever. An item whose update is still retrying when its script ends is `Pending`, and the batch returns `completed = false`, where the source never returns.
- Updater.RetryOutcome: an empty script gives `Retrying` with no attempt, also when `maxRetries <= 0`. An empty script means the first attempt's outcome is not given, so the model has nothing to decide it with; in the source that attempt is made and decides the item.
- The outer `catch` of `processResourceStatus`: in the source it is reached only when `encodeURIComponent` throws a `URIError` on a lone surrogate (line 129, outside the `try` of `getResourceInfo`), and the item is then false. The model takes the identifier already encoded, so that catch is never reached here.
