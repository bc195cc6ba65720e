/** What the gateway concludes from an upstream reply to a model call. */
module Outcome {
  import opened Httpx
  import opened Strings
  import opened Json

  datatype TaskStatus = CREATED | RUNNING | SUCCEEDED | FAILED | CANCELLED

  /** A stored token count; the tables refuse negative ones. */
  type Count = x: int64 | 0 <= x

  datatype Usage = Usage(prompt: Count, completion: Count, total: Count)

  const NO_USAGE := Usage(0, 0, 0)

  /** The arguments with which a call of `finish` settles a task. */
  datatype Finishing = Finishing(status: TaskStatus, provider: Option<string>, result: Option<Json>,
                                 usage: Usage, cause: Option<Code>)

  // ---------- reading usage ----------

  /** Decoding a JSON integer into a 64-bit field: absent and null leave it zero. */
  function IntField(o: Object, name: string): Option<int64> {
    if name !in o || o[name] == Null then Some(0)
    else if o[name].Num? then
      match ParseInt(o[name].text)
      case Some(n) => Some(n as int64)
      case None => None
    else None
  }

  function ExtractUsage(raw: Json): Result<Usage> {
    var bad := Err(Error(502, UPSTREAM_INVALID_RESPONSE));
    var top: Object := if raw.Obj? then raw.fields else map[];
    var usage: Object := if "usage" in top && top["usage"].Obj? then top["usage"].fields else map[];
    if !(raw.Obj? || raw.Null?) || ("usage" in top && !top["usage"].Obj? && !top["usage"].Null?) then bad
    else
      match (IntField(usage, "prompt_tokens"), IntField(usage, "completion_tokens"), IntField(usage, "total_tokens"),
             IntField(usage, "input_tokens"), IntField(usage, "output_tokens"))
      case (Some(p), Some(c), Some(t), Some(i), Some(o)) =>
        var prompt := if p == 0 then i else p;
        var completion := if c == 0 then o else c;
        if prompt < 0 || completion < 0 || t < 0 then bad else Ok(Usage(prompt, completion, t))
      case _ => bad
  }

  // ---------- settling a request ----------

  /** How forwarding a stream ended. */
  datatype StreamEnd =
    | NotSse
    | ClientGone(cause: Code)
    | Ended(usage: Usage, failure: Option<Code>)

  datatype Reply =
    | CallFailed(cause: Code)
    | Stream(end: StreamEnd)
    | ReadFailed(cause: Code)
    | Body(json: Option<Json>, contentType: string, audio: string, text: string)

  /** The status of a task whose call broke off: cancelled when the client went away. */
  function Terminal(cancelled: bool): TaskStatus {
    if cancelled then CANCELLED else FAILED
  }

  function StrField(v: Json, name: string): Option<string> {
    if v.Null? || (v.Obj? && (name !in v.fields || v.fields[name].Null?)) then Some("")
    else if v.Obj? && v.fields[name].Str? then Some(v.fields[name].s)
    else None
  }

  /** httpx.Identifier */
  predicate Identifier(s: string) {
    && 1 <= |s| <= 128
    && forall i :: 0 <= i < |s| ==>
         'A' <= s[i] <= 'Z' || 'a' <= s[i] <= 'z' || IsDigit(s[i]) || s[i] in {'.', '_', ':', '-'}
  }

  /** Up to 128 letters, digits, dots, underscores, colons and hyphens, and at least one. */
  lemma {:induction false} IdentifierIff(s: string)
    ensures Identifier(s) <==>
      && s != "" && |s| <= 128
      && forall c :: c in s ==>
           || 'A' <= c <= 'Z' || 'a' <= c <= 'z' || '0' <= c <= '9'
           || c == '.' || c == '_' || c == ':' || c == '-'
  {
    assert forall i | 0 <= i < |s| :: s[i] in s;
  }

  function UsageJson(u: Usage): Json {
    Obj(map["prompt_tokens" := Num(Itoa(u.prompt as int)), "completion_tokens" := Num(Itoa(u.completion as int)),
            "total_tokens" := Num(Itoa(u.total as int))])
  }

  function SettleStream(end: StreamEnd, cancelled: bool): Finishing {
    match end
    case NotSse => Finishing(FAILED, None, None, NO_USAGE, Some(UPSTREAM_INVALID_RESPONSE))
    case ClientGone(cause) => Finishing(CANCELLED, None, None, NO_USAGE, Some(cause))
    case Ended(u, failure) =>
      Finishing(if failure.Some? then Terminal(cancelled) else SUCCEEDED, None,
                Some(Obj(map["streamed" := Bool(true), "usage" := UsageJson(u)])), u, failure)
  }

  function SettleVideo(raw: Json, usage: Usage): Finishing {
    match (StrField(raw, "task_id"), StrField(raw, "status"))
    case (Some(id), Some(status)) =>
      if !Identifier(id) then Finishing(FAILED, None, None, usage, Some(UPSTREAM_INVALID_RESPONSE))
      else if status == "queued" || status == "in_progress" then
        Finishing(RUNNING, Some(id), Some(raw), usage, None)
      else if status == "completed" then Finishing(SUCCEEDED, Some(id), Some(raw), usage, None)
      else if status == "failed" then Finishing(FAILED, Some(id), Some(raw), usage, Some(UPSTREAM_ERROR))
      else Finishing(FAILED, Some(id), Some(raw), usage, Some(UPSTREAM_INVALID_RESPONSE))
    case _ => Finishing(FAILED, None, None, usage, Some(UPSTREAM_INVALID_RESPONSE))
  }

  /** The tail of `Create`, from the model call on. `textual` is a transcription that answers in text. */
  function Settle(taskType: string, textual: bool, reply: Reply, cancelled: bool): Finishing {
    match reply
    case CallFailed(cause) => Finishing(Terminal(cancelled), None, None, NO_USAGE, Some(cause))
    case Stream(end) => SettleStream(end, cancelled)
    case ReadFailed(cause) => Finishing(Terminal(cancelled), None, None, NO_USAGE, Some(cause))
    case Body(json, contentType, audio, text) =>
      if taskType == "speech" then
        Finishing(SUCCEEDED, None, Some(Obj(map["content_type" := Str(contentType), "audio_base64" := Str(audio)])),
                  NO_USAGE, None)
      else if taskType == "transcription" && textual then
        Finishing(SUCCEEDED, None, Some(Obj(map["text" := Str(text)])), NO_USAGE, None)
      else if json.None? then Finishing(FAILED, None, None, NO_USAGE, Some(UPSTREAM_INVALID_RESPONSE))
      else
        match ExtractUsage(json.value)
        case Err(e) => Finishing(FAILED, None, None, NO_USAGE, Some(e.code))
        case Ok(usage) =>
          if json.value.Obj? && "error" in json.value.fields && json.value.fields["error"] != Null then
            Finishing(FAILED, None, None, usage, Some(UPSTREAM_ERROR))
          else if taskType == "video" then SettleVideo(json.value, usage)
          else Finishing(SUCCEEDED, None, json, usage, None)
  }

  /** What `Get` writes after asking the provider about a running video; None when it writes nothing. */
  function SettlePoll(provider: string, raw: Json): Option<Finishing> {
    match (StrField(raw, "task_id"), StrField(raw, "status"))
    case (Some(id), Some(status)) =>
      if id != provider then None
      else if status == "completed" then Some(Finishing(SUCCEEDED, Some(provider), Some(raw), NO_USAGE, None))
      else if status == "failed" then
        Some(Finishing(FAILED, Some(provider), None, NO_USAGE, Some(UPSTREAM_ERROR)))
      else None
    case _ => None
  }

  /** A task is settled with an error code exactly when it failed or was cancelled, and only a
      video whose provider task is known may stay running. */
  ghost predicate Proper(f: Finishing) {
    && !f.status.CREATED?
    && (f.cause.Some? <==> f.status.FAILED? || f.status.CANCELLED?)
    && (f.status.RUNNING? ==> f.provider.Some?)
  }

  lemma {:induction false} FieldRoundTrip(o: Object, name: string, n: int64)
    requires name in o && o[name] == Num(Itoa(n as int))
    ensures IntField(o, name) == Some(n)
  {
    ParsePrinted(n as int);
  }

  lemma {:induction false} ReadFromFields(raw: Object, o: Object, p: int64, c: int64, t: int64, i: int64, u: int64)
    requires "usage" in raw && raw["usage"] == Obj(o)
    requires IntField(o, "prompt_tokens") == Some(p) && IntField(o, "completion_tokens") == Some(c)
    requires IntField(o, "total_tokens") == Some(t)
    requires IntField(o, "input_tokens") == Some(i) && IntField(o, "output_tokens") == Some(u)
    ensures ExtractUsage(Obj(raw)) ==
      var prompt, completion := if p == 0 then i else p, if c == 0 then u else c;
      if prompt < 0 || completion < 0 || t < 0 then Err(Error(502, UPSTREAM_INVALID_RESPONSE))
      else Ok(Usage(prompt, completion, t))
  {
  }

  /** Counts are read as they are written, and a negative one makes the usage unreadable. */
  lemma {:induction false} CountsAreRead(raw: Object, o: Object, p: int64, c: int64, t: int64)
    requires "usage" in raw && raw["usage"] == Obj(o)
    requires o.Keys == {"prompt_tokens", "completion_tokens", "total_tokens"}
    requires o["prompt_tokens"] == Num(Itoa(p as int)) && o["completion_tokens"] == Num(Itoa(c as int))
    requires o["total_tokens"] == Num(Itoa(t as int))
    ensures ExtractUsage(Obj(raw)) ==
      if p < 0 || c < 0 || t < 0 then Err(Error(502, UPSTREAM_INVALID_RESPONSE)) else Ok(Usage(p, c, t))
  {
    FieldRoundTrip(o, "prompt_tokens", p);
    FieldRoundTrip(o, "completion_tokens", c);
    FieldRoundTrip(o, "total_tokens", t);
    ReadFromFields(raw, o, p, c, t, 0, 0);
  }

  /** Usage that is stored with a stream is read back as itself. */
  lemma {:induction false} UsageRoundTrip(u: Usage)
    ensures ExtractUsage(Obj(map["streamed" := Bool(true), "usage" := UsageJson(u)])) == Ok(u)
  {
    var raw: Object := map["streamed" := Bool(true), "usage" := UsageJson(u)];
    CountsAreRead(raw, UsageJson(u).fields, u.prompt, u.completion, u.total);
  }

  /** Replies that count input and output tokens instead are read the same way. */
  lemma {:induction false} OtherUsageNames(raw: Object, o: Object, i: Count, u: Count)
    requires "usage" in raw && raw["usage"] == Obj(o) && o.Keys == {"input_tokens", "output_tokens"}
    requires o["input_tokens"] == Num(Itoa(i as int)) && o["output_tokens"] == Num(Itoa(u as int))
    ensures ExtractUsage(Obj(raw)) == Ok(Usage(i, u, 0))
  {
    FieldRoundTrip(o, "input_tokens", i);
    FieldRoundTrip(o, "output_tokens", u);
    ReadFromFields(raw, o, 0, 0, 0, i, u);
  }

  /** A reply in JSON counts as a success exactly when it is valid, its usage can be read, it carries no
      error, and, for a video, it names its provider task and says that it is completed. */
  lemma {:induction false} SucceedsIff(taskType: string, textual: bool, reply: Reply, cancelled: bool)
    requires reply.Body? && taskType != "speech" && !(taskType == "transcription" && textual)
    ensures var json := reply.json;
            Settle(taskType, textual, reply, cancelled).status == SUCCEEDED <==>
            && json.Some? && ExtractUsage(json.value).Ok?
            && !(json.value.Obj? && "error" in json.value.fields && json.value.fields["error"] != Null)
            && (taskType == "video" ==>
                  && StrField(json.value, "status") == Some("completed")
                  && StrField(json.value, "task_id").Some? && Identifier(StrField(json.value, "task_id").value))
  {
    if reply.json.Some? && ExtractUsage(reply.json.value).Ok? {
      VideoSucceedsIff(reply.json.value, ExtractUsage(reply.json.value).value);
    }
  }

  lemma {:induction false} VideoSucceedsIff(raw: Json, usage: Usage)
    ensures SettleVideo(raw, usage).status == SUCCEEDED <==>
            && StrField(raw, "status") == Some("completed")
            && StrField(raw, "task_id").Some? && Identifier(StrField(raw, "task_id").value)
  {
  }

  /** What is written for a call that broke off or whose reply is not read as JSON. */
  lemma {:induction false} SettledWithoutJson(taskType: string, textual: bool, cause: Code, cancelled: bool, u: Usage,
                                              contentType: string, audio: string, text: string, json: Option<Json>)
    ensures Settle(taskType, textual, CallFailed(cause), cancelled)
         == Settle(taskType, textual, ReadFailed(cause), cancelled)
         == Settle(taskType, textual, Stream(Ended(NO_USAGE, Some(cause))), cancelled).(result := None)
         == Finishing(if cancelled then CANCELLED else FAILED, None, None, Usage(0, 0, 0), Some(cause))
    ensures Settle(taskType, textual, Stream(NotSse), cancelled)
         == Finishing(FAILED, None, None, Usage(0, 0, 0), Some(UPSTREAM_INVALID_RESPONSE))
    ensures Settle(taskType, textual, Stream(ClientGone(cause)), cancelled)
         == Finishing(CANCELLED, None, None, Usage(0, 0, 0), Some(cause))
    ensures Settle("speech", textual, Body(json, contentType, audio, text), cancelled)
         == Finishing(SUCCEEDED, None,
                      Some(Obj(map["content_type" := Str(contentType), "audio_base64" := Str(audio)])),
                      Usage(0, 0, 0), None)
    ensures Settle("transcription", true, Body(json, contentType, audio, text), cancelled)
         == Finishing(SUCCEEDED, None, Some(Obj(map["text" := Str(text)])), Usage(0, 0, 0), None)
  {
  }

  /** A stream keeps its usage however it ended, and the result says that it was streamed. */
  lemma {:induction false} StreamSettledAs(u: Usage, failure: Option<Code>, cancelled: bool)
    ensures var f := SettleStream(Ended(u, failure), cancelled);
      && f.status == (if failure.None? then SUCCEEDED else if cancelled then CANCELLED else FAILED)
      && f.usage == u && f.cause == failure && f.provider.None?
      && f.result.Some? && f.result.value.Obj? && f.result.value.fields.Keys == {"streamed", "usage"}
      && f.result.value.fields["streamed"] == Bool(true) && ExtractUsage(f.result.value) == Ok(u)
  {
    UsageRoundTrip(u);
  }

  /** A reply in JSON: nothing is kept of one that is invalid or has no readable usage; one with an error
      keeps its usage; any other, unless it is a video, is kept whole. */
  lemma {:induction false} JsonSettledAs(taskType: string, textual: bool, reply: Reply, cancelled: bool)
    requires reply.Body? && taskType != "speech" && !(taskType == "transcription" && textual)
    ensures reply.json.None? ==>
      Settle(taskType, textual, reply, cancelled)
      == Finishing(FAILED, None, None, Usage(0, 0, 0), Some(UPSTREAM_INVALID_RESPONSE))
    ensures reply.json.Some? && ExtractUsage(reply.json.value).Err? ==>
      Settle(taskType, textual, reply, cancelled)
      == Finishing(FAILED, None, None, Usage(0, 0, 0), Some(UPSTREAM_INVALID_RESPONSE))
    ensures reply.json.Some? && ExtractUsage(reply.json.value).Ok? ==>
      var raw, usage := reply.json.value, ExtractUsage(reply.json.value).value;
      var f := Settle(taskType, textual, reply, cancelled);
      && (raw.Obj? && "error" in raw.fields && raw.fields["error"] != Null ==>
            f == Finishing(FAILED, None, None, usage, Some(UPSTREAM_ERROR)))
      && (!(raw.Obj? && "error" in raw.fields && raw.fields["error"] != Null) && taskType != "video" ==>
            f == Finishing(SUCCEEDED, None, Some(raw), usage, None))
      && (!(raw.Obj? && "error" in raw.fields && raw.fields["error"] != Null) && taskType == "video" ==>
            f == SettleVideo(raw, usage))
  {
  }

  /** A video that names its provider task: queued or in progress it stays RUNNING, and its provider task,
      reply and usage are kept in every case. A reply that names none is not kept. */
  lemma {:induction false} VideoSettledAs(fields: Object, id: string, status: string, usage: Usage)
    requires "task_id" in fields && fields["task_id"] == Str(id)
    requires "status" in fields && fields["status"] == Str(status)
    ensures var f, raw := SettleVideo(Obj(fields), usage), Obj(fields);
      if !Identifier(id) then f == Finishing(FAILED, None, None, usage, Some(UPSTREAM_INVALID_RESPONSE))
      else
        && f.provider == Some(id) && f.result == Some(raw) && f.usage == usage
        && (status == "queued" || status == "in_progress" ==> f.status == RUNNING && f.cause.None?)
        && (status == "completed" ==> f.status == SUCCEEDED && f.cause.None?)
        && (status == "failed" ==> f.status == FAILED && f.cause == Some(UPSTREAM_ERROR))
        && (status !in {"queued", "in_progress", "completed", "failed"} ==>
              f.status == FAILED && f.cause == Some(UPSTREAM_INVALID_RESPONSE))
  {
  }

  /** A poll writes a success with the whole reply, or a failure without it; a video that is still under
      way, a status unknown, and a reply about another provider task write nothing. */
  lemma {:induction false} PollSettledAs(provider: string, fields: Object, id: string, status: string)
    requires "task_id" in fields && fields["task_id"] == Str(id)
    requires "status" in fields && fields["status"] == Str(status)
    ensures SettlePoll(provider, Obj(fields)) ==
      if id == provider && status == "completed" then
        Some(Finishing(SUCCEEDED, Some(provider), Some(Obj(fields)), Usage(0, 0, 0), None))
      else if id == provider && status == "failed" then
        Some(Finishing(FAILED, Some(provider), None, Usage(0, 0, 0), Some(UPSTREAM_ERROR)))
      else None
  {
  }

  lemma {:induction false} VideoProper(raw: Json, usage: Usage)
    ensures Proper(SettleVideo(raw, usage))
  {
  }

  lemma {:induction false} PollProper(provider: string, raw: Json)
    ensures SettlePoll(provider, raw).Some? ==>
              Proper(SettlePoll(provider, raw).value) && !SettlePoll(provider, raw).value.status.RUNNING?
  {
  }

  lemma {:induction false} SettlesProperly(taskType: string, textual: bool, reply: Reply, cancelled: bool)
    ensures Proper(Settle(taskType, textual, reply, cancelled))
    ensures Settle(taskType, textual, reply, cancelled).status.RUNNING? ==> taskType == "video"
  {
    if reply.Body? && reply.json.Some? && ExtractUsage(reply.json.value).Ok? {
      VideoProper(reply.json.value, ExtractUsage(reply.json.value).value);
    }
  }
}
