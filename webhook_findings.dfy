/** The log line of `POST /task` runs after the write and inside the same try
    block, so a task whose `title` cannot be turned into a string is stored and
    then answered with 400 `Invalid task data`. This module shows that on the
    handler as written, and proves the intended agreement between the answer and
    the write on a handler whose write is the commit point. */
module WebhookFindings {
  import opened JsonValue
  import opened WebhookServer
  import opened WebhookProperties

  /** A submission whose title has an own `toString` member. */
  const Awkward: Json := JObj(map["title" := JObj(map["toString" := JNum(0.0)])])

  const AwkwardPost: Request := Request("POST", "/task", Some(Awkward))

  /** As written: the submission is stored and answered 400; the client, told the
      data was invalid, sends it again and it is stored a second time. */
  lemma StoredButRejected(now: string, retry: string)
    ensures var first := Serve(Startup(Missing), AwkwardPost, now);
      && first.response == JsonReply(400, Ack(false, InvalidTaskData))
      && Entries(first.file) == Some([Tag(Awkward, now).value])
    ensures var first := Serve(Startup(Missing), AwkwardPost, now);
      var second := Serve(first.file, AwkwardPost, retry);
      second.response == JsonReply(400, Ack(false, InvalidTaskData))
    ensures var first := Serve(Startup(Missing), AwkwardPost, now);
      var second := Serve(first.file, AwkwardPost, retry);
      Entries(second.file) == Some([Tag(Awkward, now).value, Tag(Awkward, retry).value])
  {
    assert Unprintable(JObj(map["toString" := JNum(0.0)]));
    assert LogLineThrows(Awkward);
    assert Entries(Startup(Missing)) == Some([]);
    var first := Serve(Startup(Missing), AwkwardPost, now);
    PostAppendsTaggedTask(Startup(Missing), AwkwardPost, now);
    assert Entries(first.file) == Some([] + [Tag(Awkward, now).value]);
    var second := Serve(first.file, AwkwardPost, retry);
    PostAppendsTaggedTask(first.file, AwkwardPost, retry);
    assert Entries(second.file).value[..1] == [Tag(Awkward, now).value];
    assert [Tag(Awkward, now).value] + [Tag(Awkward, retry).value] == [Tag(Awkward, now).value, Tag(Awkward, retry).value];
    assert Entries(second.file) == Some([Tag(Awkward, now).value] + [Tag(Awkward, retry).value]);
  }

  /** The handler with the write as the commit point: once the task is written the
      answer is 200, whatever the log line does. Every other route is unchanged. */
  function ServeCommitted(file: LogFile, req: Request, now: string): (o: Outcome)
    ensures IsPostTask(req) ==> (o.file != file <==> o.response.status == 200)
    ensures IsPostTask(req) && o.response.status == 200 ==>
              req.body.Some? && Entries(file).Some? && Tag(req.body.value, now).Some? &&
              Entries(o.file) == Some(Entries(file).value + [Tag(req.body.value, now).value])
    ensures IsPostTask(req) && o.response.status != 200 ==>
              o == Outcome(file, JsonReply(400, Ack(false, InvalidTaskData)))
    ensures !IsPostTask(req) ==> o == Serve(file, req, now)
  {
    if IsPostTask(req) then
      match Accept(file, req.body, now)
      case Failed => Outcome(file, JsonReply(400, Ack(false, InvalidTaskData)))
      case Written(written, _) =>
        assert |Entries(written).value| == |Entries(file).value| + 1;
        Outcome(written, JsonReply(200, Ack(true, TaskReceived)))
    else Serve(file, req, now)
  }
}
