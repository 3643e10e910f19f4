/** The two API endpoints the front end calls (api/views.py): the upload
    endpoint `FullAnalysisView.post`, which checks the form and hands the
    document to the background task, and the status endpoint
    `TaskStatusView.get`, which reports a task's state. Base64 encoding,
    the Celery queue and the Celery result store are outside the model: the
    encoder is a parameter, the queued call is returned as a value, and the
    stored task state is an input. */
module Views {
  import opened Json
  import opened Py
  import Js
  import JobControl

  const MissingFieldsMessage: string := "Missing required fields: document, doc_type_id, model_id"
  const HttpOk: nat := 200
  const HttpAccepted: nat := 202
  const HttpBadRequest: nat := 400
  /** The Celery task state Celery's `failed()` tests for. */
  const FailureState: string := "FAILURE"

  /** An uploaded file. Django's `File` is false when its name is empty. */
  datatype Upload = Upload(name: string, contentType: string, content: seq<bv8>)

  datatype Response = Response(status: nat, body: Json)

  /** The arguments of `process_document_analysis.delay(...)`. */
  datatype TaskCall = TaskCall(contentB64: string, fileName: string, contentType: string,
                               ragText: string, docTypeId: string, modelId: string)

  /** `request.data.get(key)` of a form: the field's text, or None. */
  function FormField(data: map<string, string>, key: string): Json {
    if key in data then JStr(data[key]) else JNull
  }

  predicate FileTruthy(file: Option<Upload>) {
    file.Some? && file.value.name != ""
  }

  /** `FullAnalysisView.post`: the response, and the Celery task it queued, if
      any. `taskId` is the id the queue gives the new task. */
  function Post(file: Option<Upload>, data: map<string, string>, b64: seq<bv8> -> string, taskId: string)
    : (r: (Response, Option<TaskCall>))
    ensures r.1.Some? <==> r.0.status == HttpAccepted
    ensures r.0.status == HttpAccepted || r.0 == Response(HttpBadRequest, Obj1("error", JStr(MissingFieldsMessage)))
  {
    var docType := FormField(data, "doc_type_id");
    var model := FormField(data, "model_id");
    if !(FileTruthy(file) && Truthy(docType) && Truthy(model)) then
      (Response(HttpBadRequest, Obj1("error", JStr(MissingFieldsMessage))), None)
    else
      var ragText := if "ragText" in data then data["ragText"] else "";
      var call := TaskCall(b64(file.value.content), file.value.name, file.value.contentType, ragText, docType.s, model.s);
      (Response(HttpAccepted, Obj1("task_id", JStr(taskId))), Some(call))
  }

  /** What the result store holds as a task's `info` (which Celery also
      returns as `result`): a JSON value, or the exception the Celery task raised. */
  datatype Info = Stored(value: Json) | Exception(exc: Exc)

  /** The body of a status reply, before it is serialised. */
  datatype StatusBody =
    | FailedBody(state: string, error: Json)
    | OtherBody(state: string, result: Info)

  /** `TaskStatusView.get` for a task in state `state`. `dictRepr` renders a
      dict nested in a list by `str`. */
  function TaskStatus(state: string, info: Info, dictRepr: map<string, Json> -> string): (r: (nat, StatusBody))
    ensures r.0 == HttpOk
    ensures r.1.FailedBody? <==> state == FailureState
    ensures r.1.state == state
    ensures r.1.FailedBody? ==> (r.1.error.JObj? <==> info.Stored? && info.value.JObj?)
    ensures r.1.OtherBody? ==> r.1.result == info
  {
    if state == FailureState then
      var error := match info
        case Stored(v) => if v.JObj? then v else JStr(Str(v, dictRepr))
        case Exception(e) => JStr(e.message);
      (HttpOk, FailedBody(state, error))
    else (HttpOk, OtherBody(state, info))
  }

  /** The JSON the front end receives; `None` when the result is an exception,
      which cannot be serialised. */
  function Rendered(body: StatusBody): (r: Option<Json>)
    ensures r.Some? ==> r.value.JObj? && "status" in r.value.fields
    ensures r.Some? && body.FailedBody? ==> r.value.fields.Keys == {"status", "error"}
    ensures r.Some? && body.OtherBody? ==> r.value.fields.Keys == {"status", "result"}
  {
    match body
    case FailedBody(s, e) => Some(JObj(map["status" := JStr(s), "error" := e]))
    case OtherBody(s, Stored(v)) => Some(JObj(map["status" := JStr(s), "result" := v]))
    case OtherBody(_, Exception(_)) => None
  }

  // ---------------------------------------------------------------------
  // Properties

  /** An upload is refused with 400 exactly when the file, the document type
      or the model is missing or empty; nothing is queued then. */
  lemma PostRefused(file: Option<Upload>, data: map<string, string>, b64: seq<bv8> -> string, taskId: string)
    ensures var r := Post(file, data, b64, taskId);
            (r.0.status == HttpBadRequest
             <==> !FileTruthy(file) || "doc_type_id" !in data || data["doc_type_id"] == ""
                  || "model_id" !in data || data["model_id"] == "")
  {
  }

  /** A complete upload answers 202 with only the `task_id`, and queues the
      document with the form's fields, the context defaulting to empty. */
  lemma PostAccepted(file: Upload, data: map<string, string>, b64: seq<bv8> -> string, taskId: string)
    requires file.name != "" && "doc_type_id" in data && data["doc_type_id"] != ""
    requires "model_id" in data && data["model_id"] != ""
    ensures var r := Post(Some(file), data, b64, taskId);
            && r.0 == Response(HttpAccepted, Obj1("task_id", JStr(taskId)))
            && r.1 == Some(TaskCall(b64(file.content), file.name, file.contentType,
                                    if "ragText" in data then data["ragText"] else "",
                                    data["doc_type_id"], data["model_id"]))
  {
  }

  /** A failed task whose stored error is the meta dict the Celery task wrote
      reports that dict; one whose stored error is the raised exception
      reports its text. */
  lemma FailureError(meta: map<string, Json>, e: Exc, dictRepr: map<string, Json> -> string)
    ensures TaskStatus(FailureState, Stored(JObj(meta)), dictRepr).1.error == JObj(meta)
    ensures TaskStatus(FailureState, Exception(e), dictRepr).1.error == JStr(e.message)
  {
  }

  /** End to end: the status reply of a task that succeeded puts its result
      on the screen at the next tick, and the polling stops. */
  lemma SuccessReachesScreen(s: JobControl.Ui, id: nat, result: Json, dictRepr: map<string, Json> -> string,
                             stringify: Json -> string)
    requires JobControl.Inv(s) && id in s.intervals
    ensures var reply := Rendered(TaskStatus("SUCCESS", Stored(result), dictRepr).1);
            && reply.Some?
            && JobControl.PollTick(s, id, JobControl.Reply(reply.value), stringify)
               == s.(analysis := result, isLoading := false, taskId := JNull, intervals := map[])
  {
    var data := JObj(map["status" := JStr("SUCCESS"), "result" := result]);
    JobControl.SuccessSpellings();
    JobControl.TickSuccess(s, id, data, stringify);
  }

  /** End to end: when the stored error of a failed task is the exception
      itself, the front end finds no `exc_message` in the reply's string and
      shows the serialised string instead. */
  lemma RaisedFailureShownSerialised(s: JobControl.Ui, id: nat, e: Exc, dictRepr: map<string, Json> -> string,
                                     stringify: Json -> string)
    requires JobControl.Inv(s) && id in s.intervals
    ensures var reply := Rendered(TaskStatus(FailureState, Exception(e), dictRepr).1);
            && reply.Some?
            && JobControl.PollTick(s, id, JobControl.Reply(reply.value), stringify)
               == s.(error := Some(JobControl.FailurePrefix + stringify(JStr(e.message))),
                     isLoading := false, taskId := JNull, intervals := map[])
  {
    var data := JObj(map["status" := JStr(FailureState), "error" := JStr(e.message)]);
    assert Js.Upper(FailureState) == FailureState;
    JobControl.TickFailure(s, id, data, stringify);
  }
}
