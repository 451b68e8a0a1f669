# Development configuration validator and health reporter

A Dafny model of the two serverless request handlers of the Newzeekysocial
deployment glue:

- **ConfigValidator** (`netlify/functions/dev-config.js`) answers a CORS
  preflight with an empty 200, refuses to run when `NODE_ENV` is exactly
  `"production"` (403), and otherwise classifies six required Firebase
  variables and five optional service keys as set or unset, flags template
  placeholders (`your_`, `REPLACE_ME`) in the required ones, counts what is
  missing, reports the Flutter and Netlify build settings, and returns 200
  (`"healthy"`) when no required variable is missing and 400
  (`"configuration-issues"`) otherwise.
- **HealthReporter** (`netlify/functions/dev-health.js`) answers a preflight
  with a fixed message, otherwise builds a fixed-shape snapshot of
  sentinel-defaulted strings and exact-`"true"` flags labelled
  `"development"`/`"healthy"`, and converts a fault during assembly into a 500
  error body.

Both handlers are pure functions here: `Handle(method, env, now)` and
`Handle(method, env, context, now)`. The process environment is a
`map<string, string>`; a name that is not a key is undefined, and JavaScript
truthiness (`!!v`, `v || d`) treats the empty string like undefined
(`Env.IsSet`, `Env.OrDefault`). Strict comparisons (`=== 'true'`,
`=== 'production'`) are `Env.Equals`. Reports are datatypes; the two check
tables are sequences of `(name, check)` pairs in insertion order, and
`ConfigValidator.Lookup` models reading a property of such an object.

Files:

- `env.dfy` — module `Env`: environment reads, truthiness, `includes`, decimal
  rendering of a count.
- `config_validator.dfy` — module `ConfigValidator`: the validator's data model
  and handler.
- `config_properties.dfy` — module `ConfigProperties`: lemmas about the validator.
- `health_reporter.dfy` — module `HealthReporter`: the reporter's data model and
  handler.
- `health_properties.dfy` — module `HealthProperties`: lemmas about the reporter.

Two behaviours of the code worth stating up front:

- A placeholder value still counts as configured, so it never changes
  `requiredMissing`, the verdict or the status code
  (`ConfigProperties.PlaceholderDoesNotChangeVerdict`).
- The validator has no fault path; its only status codes are 200, 400 and 403.

## Model

| member | source | states |
|---|---|---|
| Env.OrDefault | netlify/functions/dev-health.js:30-36 | `process.env[name] \|\| d` yields the variable's value when it is set and non-empty, and the fallback when it is absent or empty |
| Env.SameReadingSameResults | netlify/functions/dev-config.js:92-103 | every kind of read the handlers make (fallback or strict comparison with a non-empty literal) gives the same answer in two environments that agree on set-ness and value |
| Env.EmptyReadsAsUnset | netlify/functions/dev-config.js:61 | a variable holding the empty text is read as unset |
| Env.ContainsIffOccurs | netlify/functions/dev-config.js:65 | the left-to-right `includes` search succeeds exactly when the marker occurs at some position of the value |
| Env.NatToString | netlify/functions/dev-config.js:113 | the rendered count is a non-empty run of decimal digits with no leading zero unless the count is 0 |
| Env.ParseNatToString | netlify/functions/dev-config.js:113 | reading back the rendered count gives the count (round trip) |
| Env.LeadingDigitsOfNumeral | netlify/functions/dev-config.js:113 | the leading digit run of a numeral followed by a non-digit is exactly that numeral |
| ConfigValidator.CountUnset | netlify/functions/dev-config.js:68-72 | the missing count is at most the number of names, is 0 exactly when every name is set, and equals the number of names exactly when none is set |
| ConfigValidator.CheckRequired | netlify/functions/dev-config.js:61-66 | `configured` holds exactly when the variable is set; `hasValue` always equals `configured`; an unset variable is always a placeholder |
| ConfigValidator.CheckOptional | netlify/functions/dev-config.js:77-81 | `configured` holds exactly when the variable is set; `hasValue` always equals `configured` |
| ConfigValidator.CheckRequiredVars | netlify/functions/dev-config.js:60-73 | one entry per required name in table order, each the check of that name; `requiredMissing` grows by the unset count and `totalConfigured` by the rest; `optionalMissing` is untouched |
| ConfigValidator.CheckOptionalVars | netlify/functions/dev-config.js:76-88 | one entry per optional name in table order; `optionalMissing` grows by the unset count and `totalConfigured` by the rest; `requiredMissing` is untouched |
| ConfigValidator.Lookup | netlify/functions/dev-config.js:62 | reading a name from the built object is undefined exactly when no entry carries that name |
| ConfigValidator.Flutter | netlify/functions/dev-config.js:91-96 | build mode and renderer are the variables' values or `"not-set"` when unset or empty; the debug and source-map flags hold exactly on the text `"true"` |
| ConfigValidator.Netlify | netlify/functions/dev-config.js:99-104 | `siteId` holds exactly when the site id is set; `isDev` exactly on `"true"`; branch and build id default to `"not-set"` |
| ConfigValidator.Validate | netlify/functions/dev-config.js:43-113 | the report carries the capture time, `NODE_ENV` or `"unknown"` as its environment, all six required and five optional entries in order, the `flutter` and `netlify` blocks of the environment, counts equal to the unset counts of each table summing with `totalConfigured` to 11, status `"healthy"` exactly when nothing required is missing (`"configuration-issues"` otherwise), and the message for that count |
| ConfigValidator.Handle | netlify/functions/dev-config.js:13-119 | `OPTIONS` gives 200 with an empty body whatever the environment; otherwise `NODE_ENV === 'production'` gives 403 with the fixed error; otherwise the body is the validation report of the environment, whose `requiredMissing` is the unset count, with 200 exactly when it is 0 and 400 otherwise; the status code is always 200, 400 or 403 |
| ConfigProperties.LookupFindsEntry | netlify/functions/dev-config.js:62 | in an object built from entries with distinct names, reading an entry's name finds that entry |
| ConfigProperties.TablesAreDistinct | netlify/functions/dev-config.js:26-41 | neither name table repeats a name |
| ConfigProperties.RequiredNameIsNoOtherName | netlify/functions/dev-config.js:26-41 | no required name is an optional name or one of the settings variables the validator reads |
| ConfigProperties.RequiredEntriesDescribeEnvironment | netlify/functions/dev-config.js:60-73 | `validation.required[name]` is the check of `name`; `hasValue == configured`; `placeholder` holds exactly when the variable is unset or `your_` or `REPLACE_ME` occurs in its value |
| ConfigProperties.OptionalEntriesDescribeEnvironment | netlify/functions/dev-config.js:76-88 | `validation.optional[name]` is the check of `name`, with `hasValue == configured` |
| ConfigProperties.SiteIdAgreesWithOptionalEntry | netlify/functions/dev-config.js:100 | `netlify.siteId` equals the `configured` flag of the optional `NETLIFY_SITE_ID` entry |
| ConfigProperties.SummaryPartition | netlify/functions/dev-config.js:52-88 | `requiredMissing <= 6`, `optionalMissing <= 5`, and the three counts sum to 11 |
| ConfigProperties.VerdictIffAllRequiredSet | netlify/functions/dev-config.js:107-110 | past both gates the status is 200 exactly when every required variable is set and 400 exactly when one is unset, with the matching status text |
| ConfigProperties.CountUnsetDependsOnlyOnSetness | netlify/functions/dev-config.js:68-72 | the missing count depends only on which names are set, not on their values |
| ConfigProperties.SetnessDeterminesVerdict | netlify/functions/dev-config.js:59-113 | environments that agree on which listed names are set get the same summary, status and message |
| ConfigProperties.NewValueKeepsSetness | netlify/functions/dev-config.js:61 | giving a set required variable another non-empty value keeps every listed name set or unset as it was |
| ConfigProperties.NewValueLeavesOtherRequiredEntries | netlify/functions/dev-config.js:60-66 | a new value for one required variable leaves every other required entry unchanged |
| ConfigProperties.NewValueLeavesOptionalEntries | netlify/functions/dev-config.js:76-81 | a new value for a required variable leaves the optional table unchanged |
| ConfigProperties.NewValueLeavesSettings | netlify/functions/dev-config.js:45-104 | a new value for a required variable leaves the environment name and both settings blocks unchanged |
| ConfigProperties.PlaceholderDoesNotChangeVerdict | netlify/functions/dev-config.js:65-72 | giving a set required variable any non-empty value, placeholder or not, changes at most that entry's placeholder flag: every other entry, the optional table, both settings blocks, the environment name, the counts, the status, the message and the status code are unchanged |
| ConfigProperties.PlaceholderExample | netlify/functions/dev-config.js:61-66 | the value `"your_api_key"` is configured, has a value, and is flagged as a placeholder |
| ConfigProperties.MissingApiKeyExample | netlify/functions/dev-config.js:59-113 | with only `FIREBASE_API_KEY` unset the status is 400, one required variable is missing, and its entry is not configured |
| ConfigProperties.MessageReportsCount | netlify/functions/dev-config.js:111-113 | the message is the all-set sentence when nothing is missing; otherwise its leading numeral reads back as `requiredMissing`, followed by the fixed suffix |
| ConfigProperties.RequiredLoopFrame | netlify/functions/dev-config.js:60-73 | the required-name loop gives equal results in environments that read those names the same |
| ConfigProperties.OptionalLoopFrame | netlify/functions/dev-config.js:76-88 | the optional-name loop gives equal results in environments that read those names the same |
| ConfigProperties.FlutterFrame | netlify/functions/dev-config.js:91-96 | the `flutter` block is equal in two environments that read its four variables the same |
| ConfigProperties.NetlifyFrame | netlify/functions/dev-config.js:99-104 | the `netlify` block is equal in two environments that read its four variables the same |
| ConfigProperties.ReportFrame | netlify/functions/dev-config.js:43-113 | the report is equal in two environments that read the 19 read variables the same |
| ConfigProperties.ResponseDependsOnlyOnReadVars | netlify/functions/dev-config.js:13-119 | the response depends only on how the 19 read variables are set; other variables never matter |
| ConfigProperties.EmptyValueActsAsUnset | netlify/functions/dev-config.js:61 | setting any variable to the empty text gives the same response as removing it |
| ConfigProperties.OnlyTimestampVaries | netlify/functions/dev-config.js:43-44 | two calls with the same method and environment differ at most in the report's timestamp |
| HealthReporter.DeploymentBlock | netlify/functions/dev-health.js:28-32 | `netlifyContext`, `region` and `buildId` are the supplied values when truthy and `"unknown"`, `"unknown"`, `"local"` otherwise |
| HealthReporter.ConfigBlock | netlify/functions/dev-health.js:33-37 | `nodeEnv`, `flutterBuildMode` and `firebaseProjectId` are the variables' values when set and `"unknown"`, `"unknown"`, `"not-configured"` otherwise |
| HealthReporter.FeaturesBlock | netlify/functions/dev-health.js:38-42 | each of `debugMode`, `sourceMaps`, `devTools` holds exactly when its variable is the exact text `"true"` |
| HealthReporter.Assemble | netlify/functions/dev-health.js:23-43 | the guarded block faults exactly when there is no context object; otherwise the report is `"healthy"`, labelled `"development"`, stamped with the capture time, and holds the deployment, config and features blocks of the context and environment |
| HealthReporter.Handle | netlify/functions/dev-health.js:15-62 | `OPTIONS` gives 200 with the preflight message; the only codes are 200 and 500; 500 happens exactly when a non-preflight call has no context, and its body has status `"error"`, environment `"development"` and the capture time; a non-preflight call with a context returns the assembled report, labelled `"healthy"`/`"development"` |
| HealthProperties.SentinelsWhenNothingSet | netlify/functions/dev-health.js:24-43 | with nothing set and no client context, the report holds exactly the sentinels and false flags |
| HealthProperties.NodeEnvNeverGates | netlify/functions/dev-health.js:24-34 | whatever `NODE_ENV` holds, the status code is unchanged and the report stays `"healthy"`/`"development"`; only `config.nodeEnv` echoes it (the value, or `"unknown"` when empty), every other report field is unchanged, and a preflight or fault response is identical |
| HealthProperties.ResponseDependsOnlyOnReadVars | netlify/functions/dev-health.js:23-49 | the response depends only on how the eight read variables are set; other variables never matter |
| HealthProperties.EmptyValueActsAsUnset | netlify/functions/dev-health.js:30-41 | setting any variable to the empty text gives the same response as removing it |
| HealthProperties.OnlyTimestampVaries | netlify/functions/dev-health.js:27 | two calls with the same method, environment and context differ at most in the timestamp |

## Left out

- `scripts/build-flutter.js`, `scripts/build-all.js` and `scripts/verify-structure.js`: subprocess calls, file-existence checks, working-directory changes, process exit and console output, with no logic beyond running steps in order.
- JSON serialization (`JSON.stringify`, two-space pretty printing): bodies are datatypes, not text.
- The clock (`new Date().toISOString()`): the capture time is the parameter `now`. The fault body reads the clock a second time in the source; the model uses the same `now` for it.
- `console.error` logging in the fault path, and `async`/promise semantics: the handlers are modelled as plain functions.
- The fault description: the source reports the caught error's `message`. The only fault the model can produce is reading `clientContext` of a missing context, and its description is the fixed constant `HealthReporter.MissingContextFault`, worded as V8 reports it for an undefined context. A null context would make V8 say "null" instead of "undefined"; the model does not tell the two apart (`None` covers both) and always uses the undefined wording. Other runtime faults are not modelled.
- `context.clientContext` is an object on the hosting platform; it is modelled as an optional opaque string whose truthiness decides between it and `"unknown"`.
- Response headers are carried as fixed constant lists; nothing is proved about their contents beyond being those constants.
- Strings are sequences of Unicode scalar values, not UTF-16 code units. The substring search and the exact comparisons give the same answers either way for the ASCII markers and literals involved.
- A JavaScript object keyed by a name that appears twice in a table would keep only one entry; the two tables have distinct names (`ConfigProperties.TablesAreDistinct`), so the model keeps one entry per table position.
