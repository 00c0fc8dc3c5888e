# Task ingestion server

A model of the webhook server of a personal kanban board. The server receives
tasks pushed by another process over HTTP and appends them to a received-task
log file, `received-tasks.json`, whose shape is `{ tasks: [...] }`. It also lists
that log and answers a health probe. The log file is its only state. The model
has four modules:

- `JsonValue` (`json_value.dfy`): parsed JSON values and `Option`.
- `WebhookServer` (`webhook_server.dfy`): the state and the handler.
  - `LogFile` is the state of the log file on disk: missing, unreadable,
    malformed, or stored with a parsed document.
  - `Startup` is the start-up step.
  - `Tag` is the stamping of `receivedAt` and `processed`.
  - `PushTask` is `data.tasks.push`.
  - `Accept` is the read-modify-write of `POST /task`.
  - `LogLineThrows` (with `Unprintable`) says when the log line printed after
    the write throws.
  - `Serve` is the whole request handler as a function, route by route in the
    server's order.
  - The class `Server` holds the log file as a mutable field. Its constructor
    is start-up. Its `Handle` method follows the handler step by step and is
    proved equal to `Serve`.
- `WebhookProperties` (`webhook_properties.dfy`): what each route promises, and
  what holds over any run of requests. The main result is that the log only grows.
  The entries already stored stay, and exactly the tagged bodies of the written
  submissions follow them, in order. A log file that cannot be read is never
  written.
- `WebhookFindings` (`webhook_findings.dfy`): the one place where the answer to
  `POST /task` disagrees with what was stored (see "## Findings").

Some of the server's behaviour is not what a reader of its routes might expect.
The model follows the code in each case:

- One might expect a 5xx when the stored log cannot be read or parsed during
  `POST /task`. The server answers 400, the same as for a bad body.
- One might expect a body that is not an object to be rejected. A body that
  parses to a number, string, boolean or array (`5`, `"x"`, `true`, `[1]`) is
  accepted with 200. The file has no `"use strict"`, so JavaScript silently
  drops the two property writes on a primitive value. On an array,
  `JSON.stringify` does not write named properties. Either way the value is
  appended as sent, without `receivedAt` or `processed`. A `null` body throws
  and gets 400.
- `GET /tasks` returns the stored document whatever its shape, even one without
  a `tasks` array. `POST /task` fails with 400 on such a document.
- The log line `Task received: ${task.title}` is printed after the write, inside
  the same `try`. When the title cannot be converted to a string, the task is
  stored and the answer is still 400. This happens when the title is an object
  with its own `toString` member, or an array holding such a value.

## Model

| member | source | states |
|---|---|---|
| `WebhookServer.Startup` | webhook-server.js:13-16 | after start-up the file exists; an absent file becomes a log with no entries; an existing file is kept as it is, readable or not |
| `WebhookServer.Server.constructor` | webhook-server.js:13-16 | the server starts on the start-up state, and its log is empty when the file was absent |
| `WebhookServer.Tag` | webhook-server.js:46-48 | an object body gets exactly the extra keys `receivedAt` and `processed`, set to `now` and `false` even if the client sent them, and keeps every other member; `null` fails; any other value is kept unchanged |
| `WebhookServer.PushTask` | webhook-server.js:50-51 | succeeds if and only if the document's `tasks` is an array; the entry goes at the end of that array and the document's other members are kept |
| `WebhookServer.Accept` | webhook-server.js:39-54 | the file is written if and only if the body parses to something other than `null` and the stored log holds a task array; the written log is the old log plus the tagged body |
| `WebhookServer.LogLineThrows` | webhook-server.js:56 | the log line throws only for an object task with a `title`; a title that is an object throws exactly when it has its own `toString` key, whatever its `valueOf`; a string, number, boolean or `null` title prints; an array title throws exactly when some element, at any depth, would throw, which is how `Unprintable` is defined rather than a clause of this contract |
| `WebhookProperties.TitleConversionExamples` | webhook-server.js:56 | a title `{"valueOf": 1}` prints; a title `[1, [{"toString": "x"}]]` throws; a string title and a missing title print |
| `WebhookServer.Serve` | webhook-server.js:18-92 | only `POST /task` changes the file; every response has one of the statuses 200, 204, 400, 404, 500; the three cross-origin headers are on every response |
| `WebhookServer.Server.Handle` | webhook-server.js:18-92 | the new file and the response are those of `Serve`; the file changes only on `POST /task`, and then the log is the old log plus the tagged body; a 200 to `POST /task` always comes with a write |
| `WebhookProperties.PreflightAnswered` | webhook-server.js:24-29 | any `OPTIONS` request, whatever its URL, gets 204 with no body and the file unchanged |
| `WebhookProperties.PostAppendsTaggedTask` | webhook-server.js:39-63 | `POST /task` with an object body on a readable log appends one entry at the end; the old entries and the document's other members are kept; the entry is the body with `receivedAt = now` and `processed = false`; the answer is 200 with `success: true`, or 400 with `success: false` when the log line throws on the title |
| `WebhookProperties.PostOutcome` | webhook-server.js:39-66 | `POST /task` writes the file if and only if the body parses to something other than `null` and the log holds a task array; it answers 200 if and only if, in addition, the log line prints; every other answer is 400 with `success: false` |
| `WebhookProperties.ListingIsVerbatim` | webhook-server.js:69-80 | `GET /tasks` never changes the file; it returns the stored document verbatim with 200, or 500 when the file cannot be read or parsed |
| `WebhookProperties.HealthAlwaysOk` | webhook-server.js:82-87 | `GET /health` always gets 200 with `status: 'ok'` and the current time, and the file unchanged |
| `WebhookProperties.UnroutedIsNotFound` | webhook-server.js:25-91 | a request matching none of the four exact method and URL tests gets 404 and leaves the file alone |
| `WebhookProperties.NearMissesAreNotFound` | webhook-server.js:32-91 | `/task?x=1`, `PUT /task` and `HEAD /health` all get 404 |
| `WebhookProperties.Run` | webhook-server.js:18-92 | a run of the handler over a sequence of requests gives one response per request |
| `WebhookProperties.StepAppends` | webhook-server.js:39-66 | one request on a readable log keeps it a readable log and appends the tagged body exactly when it is a `POST /task` with a non-null body; such a submission is answered 200 exactly when its log line prints |
| `WebhookProperties.LogOnlyGrows` | webhook-server.js:39-66 | over any run from a readable log, the final log is the initial entries in order, followed by the tagged bodies of every `POST /task` with a non-null body, in the order their bodies were read; each submission is answered 200 exactly when its body is not `null` and its log line prints |
| `WebhookProperties.BrokenLogIsNeverWritten` | webhook-server.js:39-66 | over any run from a log file that is missing, unreadable, malformed or has no task array, the file is never written and every `POST /task` gets 400 |
| `WebhookProperties.FirstSubmissionIsListed` | webhook-server.js:14-80 | after start-up on an absent file, `POST /task` with `{"title": "Fix login bug"}` gets 200 and leaves a log of exactly that task, tagged; the next `GET /tasks` returns that document |
| `WebhookFindings.StoredButRejected` | webhook-server.js:54-63 | a body whose title has its own `toString` member is stored and answered 400 `Invalid task data`; sending it again stores it a second time |
| `WebhookFindings.ServeCommitted` | webhook-server.js:39-66 | with the write as the commit point, `POST /task` changes the file if and only if it answers 200; a 200 appends exactly the tagged body; every other route is as in `Serve` |

## Findings

| source | as written | input that shows it | evidently intended | confidence | as-written member | corrected member |
|---|---|---|---|---|---|---|
| webhook-server.js:54-63 | the log line at :56 runs after the write at :54 inside the same `try`; if it throws, :60-63 answer 400 `Invalid task data` for a task already stored | `POST /task` with body `{"title": {"toString": 0}}` on the start-up log: stored, answered 400; a retry stores it again | the answer says success exactly when the task was stored | medium (not executed; rests on JavaScript's string conversion of objects without a callable `toString`) | `WebhookFindings.StoredButRejected` | `WebhookFindings.ServeCommitted` |

`ServeCommitted` is the corrected handler, with its intended property proved.
`Serve`, `Handle` and the properties keep the program as written, since they
model what the server does.

## Left out

- The board page and its sync engine (loading from and saving to the remote document store, local cache fallback, sync status) are in `index.html`. index.html is not part of this model.
- `test-validation.js` and `final-check.js` only search the text of `index.html` for strings. They have no logic to model.
- HTTP plumbing is not modelled: `http.createServer`, `server.listen` on port 3456, and how headers and bodies are written. A response is modelled as its status, its headers and the JSON object it carries. Requests that Node's HTTP parser refuses before the handler runs, such as a lower-case method, are not modelled; the routing lemmas are about the handler.
- Reading the request body is not modelled. Chunks are accumulated into one string until the `end` event. A request is modelled with that body already parsed: `Request.body` is the result of `JSON.parse`, and `None` where it throws. JSON text, its parsing and its printing are left out. The stored file is modelled as the parsed document it holds.
- JSON objects are maps, so key order and duplicate keys are not modelled. The special `__proto__` key is not modelled either.
- Numbers are finite reals, not IEEE doubles; the server only copies them. Non-finite numbers and negative zero do not survive the write: a body `{"n": 1e400}` parses to Infinity and is stored as `{"n": null}`, and `-0` is stored as `0`. The model does not represent these values.
- The clock (`new Date().toISOString()`) is the `now` parameter. The same value is used for the stamp and for the health timestamp.
- Console output is not modelled. Of the log line after the write, only whether it throws is modelled (`LogLineThrows`).
- `writeFileSync` is modelled as an atomic replacement that succeeds. A failed or partial write, such as a full disk, is not modelled. In the source, a failed write at webhook-server.js:54 ends in 400, and a partial one can leave a file that no longer parses. A failed write at webhook-server.js:15 is uncaught: the process exits and the server never starts.
- Other processes changing the log file between requests are not modelled.
- Each read-modify-write is synchronous, so two of them never interleave. They do not run in arrival order. `POST /task` returns after registering its listeners, and its read-modify-write runs when its body has been read. Other requests, including POSTs with shorter bodies, can be handled first. A run's event is a request at the moment its body has been read, and appends follow that order.
- A request that never ends and socket errors are not modelled.
