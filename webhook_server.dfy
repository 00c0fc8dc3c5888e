/** The task ingestion server: an HTTP handler that appends submitted tasks to the
    received-task log file `received-tasks.json` (shape `{tasks: [...]}`), lists
    the log, and answers a health probe. The log file is the only state. */
module WebhookServer {
  import opened JsonValue

  const TasksKey := "tasks"
  const ReceivedAtKey := "receivedAt"
  const ProcessedKey := "processed"

  const TaskReceived := "Task received!"
  const InvalidTaskData := "Invalid task data"
  const FailedToReadTasks := "Failed to read tasks"
  const NotFound := "Not found"
  const HealthOk := "ok"

  /** What `received-tasks.json` holds on disk. `Unreadable` is a file that exists
      but cannot be read; `Malformed` is one whose text JSON.parse rejects;
      `Stored` is one whose text parses to `doc`. */
  datatype LogFile = Missing | Unreadable | Malformed | Stored(doc: Json)

  /** A request as the handler sees it once the body has been read to its end:
      `body` is what JSON.parse makes of the accumulated text, None when it throws. */
  datatype Request = Request(verb: string, url: string, body: Option<Json>)

  /** The JSON object written as the response body, or none at all. */
  datatype Payload =
    | NoContent
    | Ack(success: bool, message: string)
    | Listing(doc: Json)
    | Health(status: string, timestamp: string)
    | Failure(error: string)

  datatype Response = Response(status: int, headers: map<string, string>, payload: Payload)

  /** The new state of the log file and the answer sent for one request. */
  datatype Outcome = Outcome(file: LogFile, response: Response)

  /** The cross-origin headers set on every response before any routing. */
  const CorsHeaders: map<string, string> := map[
    "Access-Control-Allow-Origin" := "*",
    "Access-Control-Allow-Methods" := "POST, GET, OPTIONS",
    "Access-Control-Allow-Headers" := "Content-Type"]

  /** The empty log written at start-up: `{ tasks: [] }`. */
  const EmptyLog: Json := JObj(map[TasksKey := JArr([])])

  function JsonReply(status: int, payload: Payload): Response
  {
    Response(status, CorsHeaders["Content-Type" := "application/json"], payload)
  }

  /** The answer to a pre-flight request: 204 with no body and no content type. */
  const Preflight: Response := Response(204, CorsHeaders, NoContent)

  /** The task list of a log document: `doc.tasks` when it is an array. */
  function TaskList(doc: Json): Option<seq<Json>>
  {
    if doc.JObj? && TasksKey in doc.fields && doc.fields[TasksKey].JArr?
    then Some(doc.fields[TasksKey].items)
    else None
  }

  /** The entries of the log held in a file, None when the file cannot be read,
      does not parse, or has no task array. */
  function Entries(file: LogFile): Option<seq<Json>>
  {
    if file.Stored? then TaskList(file.doc) else None
  }

  /** `JSON.parse(fs.readFileSync(TASKS_FILE))`: None where either call throws. */
  function ReadLog(file: LogFile): Option<Json>
  {
    if file.Stored? then Some(file.doc) else None
  }

  /** The state after start-up: an absent log file is created holding the empty
      log; a file that exists, readable or not, is left as it is. */
  function Startup(disk: LogFile): (f: LogFile)
    ensures f.Missing? == false
    ensures disk.Missing? ==> Entries(f) == Some([])
    ensures !disk.Missing? ==> f == disk
  {
    if disk.Missing? then Stored(EmptyLog) else disk
  }

  /** `task.receivedAt = now; task.processed = false` on the parsed body. On an
      object both members are set, whatever the client sent in them. Setting a
      property of null throws (None). On the other values JavaScript in sloppy
      mode ignores the writes, or, for an array, keeps them as named properties
      that JSON.stringify drops: the value is stored as it came. */
  function Tag(task: Json, now: string): (r: Option<Json>)
    ensures r.None? <==> task.JNull?
    ensures task.JObj? ==> r.Some? && r.value.JObj?
    ensures task.JObj? ==> r.value.fields.Keys == task.fields.Keys + {ReceivedAtKey, ProcessedKey}
    ensures task.JObj? ==> r.value.fields[ReceivedAtKey] == JStr(now)
    ensures task.JObj? ==> r.value.fields[ProcessedKey] == JBool(false)
    ensures task.JObj? ==> forall k :: k in task.fields && k != ReceivedAtKey && k != ProcessedKey ==>
                                   r.value.fields[k] == task.fields[k]
    ensures !task.JObj? && !task.JNull? ==> r == Some(task)
  {
    match task
    case JNull => None
    case JObj(fields) => Some(JObj(fields[ReceivedAtKey := JStr(now)][ProcessedKey := JBool(false)]))
    case _ => Some(task)
  }

  /** `data.tasks.push(entry)`: throws (None) unless `data.tasks` is an array. The
      entry goes at the end; every other member of the document is kept. */
  function PushTask(doc: Json, entry: Json): (r: Option<Json>)
    ensures r.Some? <==> TaskList(doc).Some?
    ensures r.Some? ==> TaskList(r.value) == Some(TaskList(doc).value + [entry])
    ensures r.Some? ==> r.value.JObj? && r.value.fields.Keys == doc.fields.Keys
    ensures r.Some? ==> forall k :: k in doc.fields && k != TasksKey ==> r.value.fields[k] == doc.fields[k]
  {
    match TaskList(doc)
    case None => None
    case Some(tasks) => Some(JObj(doc.fields[TasksKey := JArr(tasks + [entry])]))
  }

  /** Whether converting `v` to a string throws, as the template literal of the
      log line does. A parsed object has no callable `toString` or `valueOf` of its
      own: with an own `toString` member the conversion finds nothing callable
      that gives a primitive, and throws a TypeError; without one it inherits
      `Object.prototype.toString`. An array is converted by `join`, which converts
      every element. Every other parsed value converts without throwing. */
  predicate Unprintable(v: Json)
    decreases v
  {
    match v
    case JObj(fields) => "toString" in fields
    case JArr(items) => exists i :: 0 <= i < |items| && Unprintable(items[i])
    case _ => false
  }

  /** Whether the log line `Task received: ${task.title}`, printed after the write,
      throws. Only an object can have a `title`; on anything else it is undefined. */
  predicate LogLineThrows(task: Json): (r: bool)
    ensures r ==> task.JObj? && "title" in task.fields
    ensures task.JObj? && "title" in task.fields && task.fields["title"].JObj? ==>
              (r <==> "toString" in task.fields["title"].fields)
    ensures task.JObj? && "title" in task.fields && task.fields["title"] in {JNull, JBool(false), JBool(true)} ==> !r
    ensures task.JObj? && "title" in task.fields && (task.fields["title"].JStr? || task.fields["title"].JNum?) ==> !r
  {
    task.JObj? && "title" in task.fields && Unprintable(task.fields["title"])
  }

  /** How far the try block of `POST /task` gets: it throws before the write
      (`Failed`), or it writes `file`, whose new last entry is `entry`. */
  datatype Submission = Failed | Written(file: LogFile, entry: Json)

  /** The read-modify-write of `POST /task`: parse the body, read the stored log,
      tag the task, push it, write the whole document back. The write happens
      exactly when the body is not null and the stored log holds a task array. */
  function Accept(file: LogFile, body: Option<Json>, now: string): (r: Submission)
    ensures r.Written? <==> body.Some? && !body.value.JNull? && Entries(file).Some?
    ensures r.Written? ==> Tag(body.value, now) == Some(r.entry)
    ensures r.Written? ==> Entries(r.file) == Some(Entries(file).value + [r.entry])
  {
    if body.None? then Failed
    else match ReadLog(file)
      case None => Failed
      case Some(data) =>
        match Tag(body.value, now)
        case None => Failed
        case Some(entry) =>
          match PushTask(data, entry)
          case None => Failed
          case Some(written) => Written(Stored(written), entry)
  }

  /** The request handler, route by route in the order the server tests them.
      After the write, `POST /task` prints a log line inside the same try block;
      when that throws, the catch block answers 400 although the task is stored. */
  function Serve(file: LogFile, req: Request, now: string): (o: Outcome)
    ensures o.file != file ==> req.verb == "POST" && req.url == "/task"
    ensures o.response.status in {200, 204, 400, 404, 500}
    ensures forall name :: name in CorsHeaders ==>
              name in o.response.headers && o.response.headers[name] == CorsHeaders[name]
  {
    if req.verb == "OPTIONS" then
      Outcome(file, Preflight)
    else if req.verb == "POST" && req.url == "/task" then
      match Accept(file, req.body, now)
      case Failed => Outcome(file, JsonReply(400, Ack(false, InvalidTaskData)))
      case Written(written, entry) =>
        if LogLineThrows(entry) then Outcome(written, JsonReply(400, Ack(false, InvalidTaskData)))
        else Outcome(written, JsonReply(200, Ack(true, TaskReceived)))
    else if req.verb == "GET" && req.url == "/tasks" then
      match ReadLog(file)
      case Some(data) => Outcome(file, JsonReply(200, Listing(data)))
      case None => Outcome(file, JsonReply(500, Failure(FailedToReadTasks)))
    else if req.verb == "GET" && req.url == "/health" then
      Outcome(file, JsonReply(200, Health(HealthOk, now)))
    else
      Outcome(file, JsonReply(404, Failure(NotFound)))
  }

  /** The running server: its only state is the log file on disk. */
  class Server {
    var file: LogFile

    /** The received-task log, when the file holds one. */
    function Log(): Option<seq<Json>>
      reads this
    {
      Entries(file)
    }

    /** Start-up: create the log file with an empty task list when it is absent. */
    constructor (disk: LogFile)
      ensures file == Startup(disk)
      ensures disk.Missing? ==> Log() == Some([])
    {
      if disk.Missing? {
        file := Stored(EmptyLog);
      } else {
        file := disk;
      }
    }

    /** Handle one request received at time `now`: the handler written as the
        source runs it, statement by statement. It is proved equal to `Serve`, and
        every property of the handler is proved once, about `Serve`. */
    method Handle(req: Request, now: string) returns (res: Response)
      modifies this
      ensures Outcome(file, res) == Serve(old(file), req, now)
      ensures file != old(file) ==>
                req.verb == "POST" && req.url == "/task" && req.body.Some? && old(Log()).Some? &&
                Tag(req.body.value, now).Some? &&
                Log() == Some(old(Log()).value + [Tag(req.body.value, now).value])
      ensures req.verb == "POST" && req.url == "/task" && res.status == 200 ==> file != old(file)
    {
      if req.verb == "OPTIONS" {
        return Preflight;
      }

      if req.verb == "POST" && req.url == "/task" {
        // The catch block's answer, unless every step below succeeds.
        res := JsonReply(400, Ack(false, InvalidTaskData));
        if req.body.None? {
          return;
        }
        var data := ReadLog(file);
        if data.None? {
          return;
        }
        var entry := Tag(req.body.value, now);
        if entry.None? {
          return;
        }
        var written := PushTask(data.value, entry.value);
        if written.None? {
          return;
        }
        file := Stored(written.value);
        if LogLineThrows(entry.value) {
          return;
        }
        res := JsonReply(200, Ack(true, TaskReceived));
        return;
      }

      if req.verb == "GET" && req.url == "/tasks" {
        var data := ReadLog(file);
        if data.Some? {
          res := JsonReply(200, Listing(data.value));
        } else {
          res := JsonReply(500, Failure(FailedToReadTasks));
        }
        return;
      }

      if req.verb == "GET" && req.url == "/health" {
        return JsonReply(200, Health(HealthOk, now));
      }

      res := JsonReply(404, Failure(NotFound));
    }
  }
}
