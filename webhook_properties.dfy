/** What the ingestion server promises, stated about its handler `Serve`: one
    answer per route, the log written only by `POST /task`, and, over any run of
    requests, a log that only ever grows by the tagged submissions. */
module WebhookProperties {
  import opened JsonValue
  import opened WebhookServer

  predicate IsPostTask(req: Request)
  {
    req.verb == "POST" && req.url == "/task"
  }

  /** The routes the handler answers, in the order it tests them; anything else is 404. */
  predicate IsRouted(req: Request)
  {
    req.verb == "OPTIONS" || IsPostTask(req) ||
    (req.verb == "GET" && (req.url == "/tasks" || req.url == "/health"))
  }

  // ---------------------------------------------------------------------------
  // One request at a time

  /** Any OPTIONS request, whatever its URL, is a pre-flight: 204, no body, log untouched. */
  lemma PreflightAnswered(file: LogFile, req: Request, now: string)
    requires req.verb == "OPTIONS"
    ensures Serve(file, req, now).file == file
    ensures Serve(file, req, now).response.status == 204
    ensures Serve(file, req, now).response.payload == NoContent
  {
  }

  /** `POST /task` with an object body and a readable log: the log gains exactly
      one entry, at the end, which is the submitted object with `receivedAt = now`
      and `processed = false` and every other member as sent. The entries already
      there, and the document's other members, are kept. The answer is 200 with
      `success: true`, unless the log line printed after the write throws on the
      task's `title`: then it is 400 with `success: false`, and the task is stored
      all the same. */
  lemma PostAppendsTaggedTask(file: LogFile, req: Request, now: string)
    requires IsPostTask(req)
    requires req.body.Some? && req.body.value.JObj?
    requires Entries(file).Some?
    ensures var o := Serve(file, req, now);
      o.response == if LogLineThrows(req.body.value) then JsonReply(400, Ack(false, InvalidTaskData))
                    else JsonReply(200, Ack(true, TaskReceived))
    ensures var o := Serve(file, req, now);
      && o.file.Stored? && Entries(o.file).Some?
      && |Entries(o.file).value| == |Entries(file).value| + 1
      && Entries(o.file).value[..|Entries(file).value|] == Entries(file).value
    ensures var o := Serve(file, req, now);
      var sent, entry := req.body.value.fields, Entries(o.file).value[|Entries(file).value|];
      && entry.JObj?
      && entry.fields.Keys == sent.Keys + {ReceivedAtKey, ProcessedKey}
      && entry.fields[ReceivedAtKey] == JStr(now)
      && entry.fields[ProcessedKey] == JBool(false)
      && (forall k :: k in sent && k != ReceivedAtKey && k != ProcessedKey ==> entry.fields[k] == sent[k])
    ensures var o := Serve(file, req, now);
      forall k :: k in file.doc.fields && k != TasksKey ==> k in o.file.doc.fields && o.file.doc.fields[k] == file.doc.fields[k]
  {
    var o := Serve(file, req, now);
    var entry := Tag(req.body.value, now).value;
    assert "title" != ReceivedAtKey && "title" != ProcessedKey;
    assert LogLineThrows(entry) == LogLineThrows(req.body.value);
    assert Entries(o.file) == Some(Entries(file).value + [entry]);
  }

  /** `POST /task` writes the file exactly when the body parses to something other
      than null and the stored log can be read and holds a task array. It answers
      200 exactly when, besides, the log line after the write prints. Every other
      answer is 400 with `success: false`; a failure of the body or of the stored
      log comes before the write and leaves the file as it was. */
  lemma PostOutcome(file: LogFile, req: Request, now: string)
    requires IsPostTask(req)
    ensures Serve(file, req, now).file != file <==>
              req.body.Some? && !req.body.value.JNull? && Entries(file).Some?
    ensures Serve(file, req, now).response.status == 200 <==>
              req.body.Some? && !req.body.value.JNull? && Entries(file).Some? && !LogLineThrows(req.body.value)
    ensures Serve(file, req, now).response.status == 200 ==>
              Serve(file, req, now).response.payload == Ack(true, TaskReceived)
    ensures Serve(file, req, now).response.status != 200 ==>
              Serve(file, req, now).response == JsonReply(400, Ack(false, InvalidTaskData))
  {
    var r := Accept(file, req.body, now);
    if r.Written? {
      assert |Entries(r.file).value| == |Entries(file).value| + 1;
      assert "title" != ReceivedAtKey && "title" != ProcessedKey;
      assert LogLineThrows(r.entry) == LogLineThrows(req.body.value);
    }
  }

  /** `GET /tasks` never writes; it answers 200 with the stored document verbatim,
      whatever its shape, or 500 when the file cannot be read or parsed. */
  lemma ListingIsVerbatim(file: LogFile, req: Request, now: string)
    requires req.verb == "GET" && req.url == "/tasks"
    ensures Serve(file, req, now).file == file
    ensures file.Stored? ==> Serve(file, req, now).response == JsonReply(200, Listing(file.doc))
    ensures !file.Stored? ==> Serve(file, req, now).response == JsonReply(500, Failure(FailedToReadTasks))
  {
  }

  /** `GET /health` always answers 200 with `status: 'ok'` and the current time. */
  lemma HealthAlwaysOk(file: LogFile, req: Request, now: string)
    requires req.verb == "GET" && req.url == "/health"
    ensures Serve(file, req, now) == Outcome(file, JsonReply(200, Health(HealthOk, now)))
  {
  }

  /** Routing compares method and URL exactly: every other request is 404 and
      leaves the log alone. */
  lemma UnroutedIsNotFound(file: LogFile, req: Request, now: string)
    requires !IsRouted(req)
    ensures Serve(file, req, now) == Outcome(file, JsonReply(404, Failure(NotFound)))
  {
  }

  /** A query string or another method does not reach the task route. */
  lemma NearMissesAreNotFound(file: LogFile, body: Option<Json>, now: string)
    ensures Serve(file, Request("POST", "/task?x=1", body), now).response.status == 404
    ensures Serve(file, Request("PUT", "/task", body), now).response.status == 404
    ensures Serve(file, Request("HEAD", "/health", body), now).response.status == 404
  {
  }

  /** When the log line throws: a title object with its own `valueOf` but no own
      `toString` prints, a `toString` member nested in arrays throws, and a string
      title or a missing one prints. */
  lemma TitleConversionExamples()
    ensures !LogLineThrows(JObj(map["title" := JObj(map["valueOf" := JNum(1.0)])]))
    ensures LogLineThrows(JObj(map["title" := JArr([JNum(1.0), JArr([JObj(map["toString" := JStr("x")])])])]))
    ensures !LogLineThrows(JObj(map["title" := JStr("Fix login bug")]))
    ensures !LogLineThrows(JObj(map["id" := JNum(7.0)]))
  {
    var inner := JArr([JObj(map["toString" := JStr("x")])]);
    assert Unprintable(inner.items[0]);
    assert Unprintable(inner);
    var title := JArr([JNum(1.0), inner]);
    assert title.items[1] == inner;
    assert Unprintable(title);
    assert "valueOf" != "toString";
  }

  // ---------------------------------------------------------------------------
  // Runs of requests

  /** A request at the moment the handler acts on it, with the time the server's
      clock reads then. For `POST /task` that moment is the end of its body, not
      its arrival: the read-modify-write runs in the `end` callback, so requests
      whose bodies finish first are handled first, and appends follow that order. */
  datatype Event = Event(request: Request, now: string)

  datatype Trace = Trace(file: LogFile, responses: seq<Response>)

  /** The server handling `events` one after the other, starting from `file`. */
  function Run(file: LogFile, events: seq<Event>): (t: Trace)
    ensures |t.responses| == |events|
    decreases |events|
  {
    if events == [] then Trace(file, [])
    else
      var o := Serve(file, events[0].request, events[0].now);
      var rest := Run(o.file, events[1..]);
      Trace(rest.file, [o.response] + rest.responses)
  }

  /** The record a `POST /task` event would append: the body, tagged at `now`. */
  function Submitted(e: Event): Option<Json>
  {
    if e.request.body.Some? then Tag(e.request.body.value, e.now) else None
  }

  /** Whether a submission to a readable log is answered 200: its body parses to
      something other than null and its log line prints. */
  predicate Acknowledged(e: Event)
  {
    e.request.body.Some? && !e.request.body.value.JNull? && !LogLineThrows(e.request.body.value)
  }

  /** What one event appends to a readable log: the tagged submission of a
      `POST /task` whose body is not null, else nothing. */
  function Appended(e: Event): seq<Json>
  {
    if IsPostTask(e.request) && Submitted(e).Some? then [Submitted(e).value] else []
  }

  /** The records a run is expected to append, in the order of the events. */
  function Received(events: seq<Event>): seq<Json>
    decreases |events|
  {
    if events == [] then [] else Appended(events[0]) + Received(events[1..])
  }

  /** One step keeps a task log a task log and adds to it what `Appended` says; a
      submission is answered 200 exactly when it is acknowledged. */
  lemma StepAppends(file: LogFile, e: Event)
    requires Entries(file).Some?
    ensures var o := Serve(file, e.request, e.now);
      Entries(o.file) == Some(Entries(file).value + Appended(e))
    ensures IsPostTask(e.request) ==>
              (Serve(file, e.request, e.now).response.status == 200 <==> Acknowledged(e))
  {
    var o := Serve(file, e.request, e.now);
    if IsPostTask(e.request) {
      PostOutcome(file, e.request, e.now);
    }
    if IsPostTask(e.request) && Submitted(e).Some? {
      var r := Accept(file, e.request.body, e.now);
      assert r.Written? && o.file == r.file;
    } else {
      assert o.file == file;
      assert Entries(file).value + [] == Entries(file).value;
    }
  }

  /** The log is append-only: over any run from a readable log, the entries already
      stored stay, in order, and exactly the tagged bodies of the submissions whose
      body is not null follow them, in the order their bodies were read. Each
      submission is answered 200 exactly when it is acknowledged: a task whose log
      line throws is stored and answered 400. */
  lemma {:induction false} LogOnlyGrows(file: LogFile, events: seq<Event>)
    requires Entries(file).Some?
    ensures Entries(Run(file, events).file) == Some(Entries(file).value + Received(events))
    ensures forall i :: 0 <= i < |events| && IsPostTask(events[i].request) ==>
              (Run(file, events).responses[i].status == 200 <==> Acknowledged(events[i]))
    decreases |events|
  {
    if events != [] {
      var e := events[0];
      var o := Serve(file, e.request, e.now);
      StepAppends(file, e);
      LogOnlyGrows(o.file, events[1..]);
      var t := Run(file, events);
      var rest := Run(o.file, events[1..]);
      assert Entries(file).value + Appended(e) + Received(events[1..])
          == Entries(file).value + (Appended(e) + Received(events[1..]));
      forall i | 0 <= i < |events| && IsPostTask(events[i].request)
        ensures t.responses[i].status == 200 <==> Acknowledged(events[i])
      {
        if i > 0 {
          assert events[i] == events[1..][i - 1];
          assert t.responses[i] == rest.responses[i - 1];
        }
      }
    } else {
      assert Entries(file).value + [] == Entries(file).value;
    }
  }

  /** A log file that is missing, unreadable, malformed or without a task array is
      never written: every `POST /task` of the run gets 400 and nothing is appended. */
  lemma {:induction false} BrokenLogIsNeverWritten(file: LogFile, events: seq<Event>)
    requires Entries(file).None?
    ensures Run(file, events).file == file
    ensures forall i :: 0 <= i < |events| && IsPostTask(events[i].request) ==>
              Run(file, events).responses[i].status == 400
    decreases |events|
  {
    if events != [] {
      var e := events[0];
      var o := Serve(file, e.request, e.now);
      if IsPostTask(e.request) {
        PostOutcome(file, e.request, e.now);
      }
      BrokenLogIsNeverWritten(file, events[1..]);
      var t := Run(file, events);
      forall i | 0 <= i < |events| && IsPostTask(events[i].request)
        ensures t.responses[i].status == 400
      {
        if i > 0 {
          assert events[i] == events[1..][i - 1];
        }
      }
    }
  }

  /** Start-up followed by one submission: `POST /task` with `{"title": "Fix login
      bug"}` on a server whose log file was absent leaves a log of exactly that
      task, tagged, and the next `GET /tasks` lists that document. */
  lemma FirstSubmissionIsListed(now: string, later: string)
    ensures var title := map["title" := JStr("Fix login bug")];
      var posted := Serve(Startup(Missing), Request("POST", "/task", Some(JObj(title))), now);
      var listed := Serve(posted.file, Request("GET", "/tasks", None), later);
      && posted.response.status == 200
      && Entries(posted.file) == Some([JObj(title[ReceivedAtKey := JStr(now)][ProcessedKey := JBool(false)])])
      && listed.response == JsonReply(200, Listing(posted.file.doc))
  {
    var title := map["title" := JStr("Fix login bug")];
    var posted := Serve(Startup(Missing), Request("POST", "/task", Some(JObj(title))), now);
    var entry := JObj(title[ReceivedAtKey := JStr(now)][ProcessedKey := JBool(false)]);
    assert Entries(Startup(Missing)) == Some([]);
    assert !LogLineThrows(JObj(title));
    PostAppendsTaggedTask(Startup(Missing), Request("POST", "/task", Some(JObj(title))), now);
    assert Tag(JObj(title), now) == Some(entry);
    assert Entries(posted.file) == Some([] + [entry]);
  }
}
