# CronJob entity of the sandboxjs client

This project models the cron-job entity of sandboxjs, a client library for a
remote serverless code-execution platform. A `CronJob` is the client-side
record of a scheduled remote task. The library builds one from the descriptor
the platform returns. The record exposes the URL that invokes the task and
delegates removal and history paging to the `Sandbox` (the client session)
that created it.

Modules:

- `Js` (`js.dfy`): the JavaScript values a descriptor and a request carry
  (`undefined`, `null`, booleans, safe-integer numbers and strings), objects
  as maps from property name to value, truthiness, the `String(v)` conversion
  that `+` applies, and `JsRecord`, a plain object held by reference.
- `Defaults` (`defaults.dfy`): lodash's `defaultsDeep` for flat objects. A
  property takes its default only when the caller left it `undefined`, and the
  object is filled in place.
- `Sandboxes` (`sandbox.dfy`): a stub for the collaborating `Sandbox`. It has a
  mutable base `url`. It records every `removeCronJob` and `getCronJobHistory`
  request it receives, and answers each one through `platform`, a function of
  the request and of every earlier request.
- `CronJobs` (`cron_job.dfy`): the `CronJob` class, its constructor, the `url`
  accessor, `remove` and `getHistory`, and the lemmas about them.

Inputs the library takes from code this model cannot see are parameters:

- The token decoder (`Jwt.decode`) is a function passed to the constructor.
- The platform's answers are the sandbox's `platform` function.
- Callbacks, decoded claims and reply payloads are abstract types.

The code adds `https://` to `cluster_url` unconditionally, so a value that
already carries the scheme gets a second one; `WithSchemeTwice` proves it. The
code checks neither the token's format nor that a name is present: a missing
name or container reads as `undefined`, and the URL then contains the text
`undefined`.

## Model

| member | source | states |
|---|---|---|
| `CronJobs.CronJob.constructor` | lib/cronJob.js:11-43 | Every descriptor property is copied. `claims` is the decoder's value for the descriptor's token. `sandbox` is the given sandbox. Copies named `claims`, `sandbox` or `url` are replaced. `cluster_url` becomes `https://` followed by the descriptor's value, and is present even when the descriptor had none. |
| `CronJobs.CronJob.Url` | lib/cronJob.js:37-41 | The URL is read from the sandbox's current base URL and the job's current container and name. It starts with `<sandbox.url>/api/run/`. When the container has no `/`, it parses back to exactly the job's container and name, never anything from the token. |
| `CronJobs.RunUrlRoundTrip` | lib/cronJob.js:40 | When the container has no `/`, parsing a run URL under its base gives back the rendered container and name it was built from. |
| `CronJobs.RunUrlParsed` | lib/cronJob.js:40 | Any URL that parses under a base is exactly the run URL rebuilt from the parsed container and name. The parse is the inverse of the construction. |
| `CronJobs.RunUrlDistinguishesJobs` | lib/cronJob.js:40 | When neither container has `/`, two jobs have the same URL under one base if and only if their containers and their names render the same. So for such containers, changing the container or the name changes the next URL read. |
| `CronJobs.RunUrlFollowsBase` | lib/cronJob.js:37-41 | Two different sandbox base URLs give two different job URLs. The URL is not stored, so reassigning `sandbox.url` changes the next value read. |
| `CronJobs.WithScheme` | lib/cronJob.js:32 | The new `cluster_url` is a string that starts with `https://`. Removing that prefix gives back the old value as `+` renders it. |
| `CronJobs.WithSchemeTwice` | lib/cronJob.js:32 | The prefix is unconditional. A value that already carries the scheme gets it twice, so the operation is not idempotent. |
| `CronJobs.CronJob.Remove` | lib/cronJob.js:53-60 | Exactly one `removeCronJob` request is added to the sandbox's log, with exactly `{container, name}` from the job. The job itself does not change, including its token and claims. The sandbox's promise is returned unchanged. When a callback is given, the same outcome is delivered to it, and otherwise nothing is delivered. |
| `CronJobs.CronJob.GetHistory` | lib/cronJob.js:71-89 | Exactly one `getCronJobHistory` request is logged: the defaults filled into the caller's options. A caller's options object is filled in place and is what the sandbox receives. A function in the options slot replaces the callback argument and means no options. The promise is returned unchanged and delivered to the callback in effect, if any. |
| `CronJobs.HistoryDefaultsLookup` | lib/cronJob.js:79-84 | The defaults are the job's container, the job's name, offset 0 and limit 10, with distinct keys. Nothing else has a default. |
| `CronJobs.HistoryRequestSpec` | lib/cronJob.js:79-84 | The request holds the caller's properties plus the four paging ones. Each of `container`, `name`, `offset` and `limit` keeps the caller's value unless that value is `undefined`; then it falls back to the job's container, the job's name, 0 or 10. Every other caller property is passed through untouched. |
| `CronJobs.HistoryRequestWithoutOptions` | lib/cronJob.js:77-84 | With an empty options object the request is exactly `{container, name, offset: 0, limit: 10}`. |
| `CronJobs.HistoryRequestWithLimit` | lib/cronJob.js:79-84 | Options `{limit: n}` yield exactly `{container, name, offset: 0, limit: n}`. |
| `CronJobs.HistoryRequestForOtherJob` | lib/cronJob.js:79-84 | A caller's `container` and `name` override the job's own. Offset and limit are still defaulted. |
| `CronJobs.NoOptionsShapesAgree` | lib/cronJob.js:72-77 | `getHistory()`, a falsy options argument and a function as first argument all send `{container, name, offset: 0, limit: 10}`. |
| `Defaults.FilledAt` | lib/cronJob.js:79-84 | After filling, a property exists if the caller had it or it has a default. The caller's value wins unless it is `undefined`, and `null` counts as a value. A property that has no default is unchanged. |
| `Defaults.FilledIdempotent` | lib/cronJob.js:79-84 | Filling an already filled object with the same defaults changes nothing. |
| `Defaults.DefaultsDeep` | lib/cronJob.js:79 | The target object is filled in place, one default at a time, and returned. Its new properties are those `Filled` gives for its old ones. |
| `Js.DecimalRoundTrip` | lib/cronJob.js:40 | A numeric container or name, a safe integer (magnitude at most 2^53 - 1, so below 10^21), is rendered as decimal digits, and those digits read back as the same number. |

## Left out

- `Jwt.decode` (lib/cronJob.js:22) belongs to a foreign library. The model passes it to the constructor as a total function of the token value, so any exception it might throw is not modelled.
- Promises and `nodeify` (lib/cronJob.js:59, 88) are modelled as a settled outcome and an optional delivery to the callback. Scheduling, asynchrony and Bluebird's own rules are not modelled. Those rules include spreading an array result over the callback's arguments and wrapping a falsy rejection reason in an `Error`.
- The callback argument is either absent or a function. A truthy value that is not a function, which Bluebird ignores, is not modelled.
- A truthy primitive given as `getHistory`'s options (a number, `true` or a non-empty string) is modelled as an empty options object. The wrapper object that lodash builds around it is not modelled, and neither are a string wrapper's indexed character properties.
- Descriptor and option values are scalars. Nested objects and arrays, and the deep merge lodash would apply to them, are not modelled.
- Numbers are safe integers, of magnitude at most 2^53 - 1. Fractions, `NaN`, infinities, `-0`, integers beyond 2^53 and magnitudes of 10^21 or more (which `String` renders in exponent form) are not modelled.
- Property keys are ordinary map keys. Keys with special meaning to JavaScript objects (`__proto__`) and inherited properties are not modelled.
- The network behaviour of the Sandbox's `removeCronJob` and `getCronJobHistory` is not part of this model. The platform's answers are the `platform` parameter, so platform-side errors, such as history requested for a removed job, are whatever that function returns.
- test/execution.js holds integration tests against a live cluster, and they exercise the `Webtask` type. The `Webtask` type and the `Sandbox` source are not part of this model.
- CronJobs.CronJob.Url: the contract pins the whole URL down only for a container without `/`. Otherwise it states only the `<sandbox.url>/api/run/` prefix, because a `/` inside the container makes the path ambiguous.
