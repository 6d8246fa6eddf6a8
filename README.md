# check_api_status — a Dafny model of the endpoint monitor's core

check_api_status polls a set of HTTP endpoints and compares each response's
status code with an expected one. It reports the result in a terminal status
table and through desktop notifications. An endpoint may declare a
dependency. The dependency is a second request whose JSON response is read
by dotted paths (such as `auth.token`), and the values found are handed on
to the endpoint's own request.

This project models four parts of that core:

- **Configuration types** (`yarn.dfy`, module `Yarn`). These are the
  two-variant `ConfigMethod` and its text rendering, plus `Request`,
  `Depends`, `Api` and `ApisConfig`. The request inside `Yarn.Depends` is
  a plain `Request`, which has no `depends_on` field (yarn.rs:26-39), so
  dependencies are one level deep by construction of the types.
- **Dependency resolution** (`requester.dfy`, module `Requester`).
  - It chooses the method and body of a request.
  - It looks up a dotted path in the parsed response (`GetField`, proved
    against the reference lookup `Lookup` and the nested value `Reach`).
  - It builds the header and body entry lists, one entry per declared
    field.
  - On a transport failure it returns an empty result and may emit a
    notification.
  - Supporting modules: `json.dfy` (the JSON value and its key index),
    `strings.dfy` (splitting a path on '.' and joining it back), `http.dfy`
    (the shape of an outbound call), `notify.dfy` (a notification event).
- **Status table** (`app_state.dfy`, module `AppState`). `App` is a class
  with the configuration and a row list. Its methods replace the row list,
  or append one waiting row per endpoint.
- **Standalone monitor** (`monitor.dfy`, module `Monitor`). This covers the
  method and body choice of `api_config`, and the classification done by
  `verify_api`. That classification yields a logged label and at most one
  notification.

The terminal UI, e-mail, sending notifications, HTTP transport, response
parsing, scheduling and configuration loading are outside the model. They
enter only as inputs: the outcome of a call, a parsed JSON response, and a
JSON serialiser passed in as a function (`render`).

Some choices follow the code rather than a cleaner design:

- `Api` has an `interval` field. app.rs:53 reads `config.1.interval`, but
  the `Api` struct in src/utils/yarn.rs:42-51 does not declare it.
- A row's name is the endpoint's own `name` field, not its key in the
  configuration (app.rs:45).
- The status text is spelled "WAINTING", as in the program.
- The dependency entry lists hold an entry for every declared field. A
  field that is absent gets an empty map, so the lists stay aligned with
  the declarations (request.rs:93-98).
- `verify_api` in main.rs sends a failure notification on every error,
  whatever `gnome_notify` says. It never reads that flag.
- main.rs declares its own `ConfigMethod`. It has the same two variants as
  the one in utils/yarn.rs, so the model uses one type for both.

## Model

| member | source | states |
|---|---|---|
| Json.Index | src/request.rs:52 | indexing by a key gives the key's value when the value is an object holding it, and Null otherwise, never an error |
| Strings.Split | src/request.rs:89 | splitting on '.' gives at least one piece, one more than the number of dots, and no piece contains a dot |
| Strings.JoinSplit | src/request.rs:89 | joining the pieces of a split with '.' gives the original path back |
| Strings.SplitJoin | src/request.rs:89 | splitting a join of dot-free pieces gives those pieces back |
| Strings.SplitPiece | src/request.rs:89-90 | a path without a dot splits into one piece, itself |
| Yarn.ToString | src/utils/yarn.rs:16-23 | GET renders as "GET" and POST as "POST" |
| Yarn.ToStringInjective | src/utils/yarn.rs:16-23 | two methods render the same exactly when they are the same method |
| Yarn.FromString | src/utils/yarn.rs:7-14 | only the two names "GET" and "POST" read back as a method |
| Yarn.ParseRendering | src/utils/yarn.rs:7-23 | reading back a method's rendering gives that method, and a name that reads back as a method is that method's rendering |
| Yarn.ApisConfig.Get | src/utils/yarn.rs:54-56 | a key is found exactly when some entry has that key |
| Yarn.GetFindsEntry | src/utils/yarn.rs:54-56 | with distinct keys, looking up an entry's key finds that entry's endpoint |
| Http.MethodBytes | src/request.rs:21-25 | the method sent is "POST" exactly for POST and "GET" for anything else |
| Http.VerbIsRendering | src/request.rs:21-25 | the method sent equals the configured method's rendering |
| Requester.RequestApi | src/request.rs:13-49 | the call is POST exactly when the request says POST, otherwise GET; it has a body exactly when one is given; URL and headers are passed through |
| Requester.GetField | src/request.rs:51-59 | the lookup from segment `start` on equals the reference lookup of the remaining segments |
| Requester.Extract | src/request.rs:89-91 | extracting a dotted path equals the reference lookup of its '.'-separated segments |
| Requester.LookupNull | src/request.rs:51-59 | once Null, the lookup stays Null for the rest of the path |
| Requester.LookupResolved | src/request.rs:51-59 | when every prefix leads to an object holding the next key, the lookup returns the nested value |
| Requester.LookupUnresolved | src/request.rs:51-59 | when some key is missing or some intermediate value is not an object, the lookup returns Null and raises nothing |
| Requester.OneSegment | src/request.rs:52-56 | a path with one segment is a direct key lookup |
| Requester.ExtractNested | src/request.rs:51-59 | a dotted path of keys extracts the nested value when it resolves, and Null when it does not |
| Requester.FieldEntry | src/request.rs:93-96 | an entry is empty exactly when the extracted value is Null; otherwise it maps only the full dotted path to the rendered value |
| Requester.EntryOfNestedPath | src/request.rs:93-96 | an entry holds the rendered nested value exactly when the path resolves to a non-Null value, and is empty otherwise |
| Requester.NestedTokenFound | src/request.rs:88-98 | the path "auth.token" in {"auth":{"token":"abc123"}} gives the entry "auth.token" mapped to the rendered "abc123" |
| Requester.MissingKeyEmpty | src/request.rs:93-98 | a path through a key the response lacks gives an empty entry |
| Requester.ExtractEntries | src/request.rs:88-99 | one entry per declared path, in declaration order, pushed even when the field is absent |
| Requester.DependencyCall | src/request.rs:62-72 | the dependency is called with its own URL, method and body, and with its own headers (none when it declares none) |
| Requester.GetDependsResult | src/request.rs:61-138 | the call made is the dependency call; on a response, the result has exactly the keys "depends_body" and "depends_headers", holding aligned entry lists, and nothing is notified; on a transport failure, the result is empty and one error notification is emitted exactly when system notifications are on |
| AppState.WaitingRows | src/app.rs:42-57 | one row per endpoint in iteration order, with ids 0..n-1, status "WAINTING", and name, url, rendered method and interval taken from the endpoint |
| AppState.RelistRepeatsIds | src/app.rs:43-51 | ids come from the enumeration index, not offset by existing rows, so listing twice repeats them |
| AppState.App.constructor | src/app.rs:31-36 | the configuration is stored unchanged and the table starts empty |
| AppState.App.AppendSatus2 | src/app.rs:38-40 | the table is replaced wholesale by the argument and the configuration is untouched |
| AppState.App.FormatApiInfos | src/app.rs:42-57 | the table becomes the old table followed by the waiting rows of the configuration; the configuration is unchanged |
| AppState.ListTwice | src/app.rs:42-57 | a fresh application listed twice holds the waiting rows twice over |
| Monitor.ApiConfig | src/main.rs:61-97 | the call is POST exactly when the request says POST, otherwise GET; it carries the body exactly when the body is not Null |
| Monitor.VerifyApiAsWritten | src/main.rs:99-130 | as written: at most one notification, and a transport error notifies one failure |
| Monitor.TransportErrorLoggedOk | src/main.rs:102-113 | as written, a transport error is logged as OK while a failure is notified |
| Monitor.VerifyApi | src/main.rs:99-130 | OK exactly when a response came back with the expected status; ERROR always notifies one failure; OK notifies one success exactly when the notify type is not "ERROR"; never more than one notification |
| Monitor.CorrectionOnlyRelabels | src/main.rs:99-130 | the corrected classification emits the same notifications as the code as written, and differs only in labelling a transport error ERROR instead of OK |
| Monitor.VerifyConfig | src/main.rs:138-148 | one scheduled job under the corrected classification: it makes the endpoint's call, labels it OK exactly on the expected status, and emits the same notifications as the code as written (one failure on ERROR, one success on OK unless the notify type is "ERROR") |

## Left out

- HTTP transport is not modelled: building the client, parsing the URL and sending the request (request.rs:18-46, main.rs:62-96). The result of a call is an input: `DependencyResponse` or `Outcome`.
- Reading the response text and parsing it as JSON is not modelled (request.rs:76-84). Both panic on failure. The model starts from the parsed value.
- JSON rendering is the parameter `render`. `Value::to_string` and `serde_json::to_string` give the same text for a value, so one function stands for both. Its exact bytes are not modelled.
- JSON numbers are integers. Floating-point numbers are not modelled.
- Header validation is not modelled: `HeaderName::from_lowercase(..).unwrap()` and the header-value parse (request.rs:64-71, main.rs:74-79). Both belong to the HTTP library and panic on bad input. Headers are passed as a plain map.
- Placeholder substitution into the endpoint's request is not part of this model. No code for it is among the modelled files.
- HashMap iteration order is not modelled. `ApisConfig.requests` is a sequence of (key, endpoint) pairs, which fixes one order. `Valid()` states that keys are distinct.
- Scheduling and concurrency are not modelled: the cron `JobScheduler`, its tick loop with `sleep` (main.rs:132-157), and parsing cron expressions. `VerifyConfig` models one job's body with the corrected classification.
- Configuration loading and the command line are not modelled (main.rs:159-198).
- Showing notifications, and the panic of `.unwrap()` when showing one fails, are not modelled. A notification is an event (name, icon, message). `send_notify` prefixes the summary with "API: "; that formatting is not modelled.
- The log lines of `verify_api` are modelled only by their label (OK or ERROR). The status code or error text they print is not.
- The terminal UI (ui.rs) and e-mail (email.rs) are not part of this model.
- Monitor.VerifyConfig: uses the corrected classification, so it labels a transport error ERROR where the job as written logs OK (main.rs:105, see Findings); its notifications are those of the code as written.
- HTTP status codes are `nat`. The 16-bit range of `u16` is not enforced.

## Findings

| source | as written | input that shows it | evidently intended | confidence | as-written member | corrected member |
|---|---|---|---|---|---|---|
| src/main.rs:102-113 | the transport-error branch prints "{name}: OK -> {error}" before notifying a failure and returning | any call that fails to connect, e.g. `TransportError` with any expected status | the log line reports ERROR for a failed call, as the failure notification does | high; not executed | Monitor.TransportErrorLoggedOk | Monitor.VerifyApi, used by Monitor.VerifyConfig |
