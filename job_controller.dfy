/** The analysis job controller of the front end: the form handlers,
    `handleSubmit` and the polling effect of the FullAnalyzer component
    (gemini-frontend/src/components/FullAnalyzer.js; Test.js holds the same
    code). React state updates and the effect that owns the `setInterval`
    timer are modelled as discrete events; each event ends with React's commit,
    which re-runs the polling effect when `taskId` or `vaultToken` changed. */
module JobControl {
  import opened Json
  import Js

  const NoFileMessage := "Please select a document to analyze."
  const UploadingMessage := "Uploading document..."
  const SubmittedMessage := "Document submitted. Processing in background..."
  const StartFailedMessage := "Failed to start analysis."
  const PollFailedMessage := "Polling failed: Could not check task status."
  const FailurePrefix := "Analysis failed: "

  /** A live `setInterval` timer: the `taskId` and token its callback closed
      over. */
  datatype Poller = Poller(task: Json, token: string)

  /** The multipart form `handleSubmit` posts; `FormData.append` turns each
      selection into its string form. */
  datatype Request = Request(document: string, ragText: string, docTypeId: string, modelId: string, token: string)

  /** How the submission fetch settled: it threw (network failure, body not
      JSON) with a message, or it answered with `response.ok` and a body. */
  datatype SubmitOutcome = Rejected(message: string) | Answered(ok: bool, data: Json)

  /** How one status query settled: it threw, or it answered with a body. */
  datatype PollOutcome = QueryFailed | Reply(data: Json)

  /** The component state. `intervals` holds the timers that are live, by
      timer id; `intervalRef` is `intervalRef.current`; `nextInterval` is the
      id the next `setInterval` call returns (ids are never reused);
      `submitting` says that a `handleSubmit` call is suspended at its upload
      request, whose settling is still to come. */
  datatype Ui = Ui(
    documentFile: Option<string>,
    ragText: string,
    selectedDocType: Json,
    selectedModel: Json,
    vaultToken: string,
    analysis: Json,
    isLoading: bool,
    loadingMessage: string,
    error: Option<string>,
    taskId: Json,
    intervals: map<nat, Poller>,
    intervalRef: Option<nat>,
    nextInterval: nat,
    submitting: bool)

  function Init(token: string): Ui {
    Ui(None, "", JStr(""), JStr(""), token, JNull, false, "", None, JNull, map[], None, 0, false)
  }

  /** The controller's invariant: every live timer is the one `intervalRef`
      names and polls the current task with the current token, ids below
      `nextInterval`; a timer is live exactly when `taskId` is truthy. */
  predicate Inv(s: Ui) {
    && (forall id :: id in s.intervals ==>
          id < s.nextInterval && s.intervalRef == Some(id) && s.intervals[id] == Poller(s.taskId, s.vaultToken))
    && (Js.Truthy(s.taskId) <==> s.intervals != map[])
  }

  /** `clearInterval(intervalRef.current)`. */
  function ClearLive(s: Ui): Ui {
    if s.intervalRef.Some? then s.(intervals := s.intervals - {s.intervalRef.value}) else s
  }

  /** React's commit after an event: when `taskId` or `vaultToken` differs
      from the previous render's, the cleanup returned by the previous effect
      run (present only when that run saw a truthy `taskId`) clears the timer,
      and the effect runs again: it clears the timer when `taskId` is falsy
      and otherwise starts a new one. */
  function Commit(prevTask: Json, prevToken: string, s: Ui): Ui {
    if s.taskId == prevTask && s.vaultToken == prevToken then s
    else
      Restart(if Js.Truthy(prevTask) then ClearLive(s) else s)
  }

  /** The effect's body after the previous cleanup: with a task id, a new
      timer polling for it; without one, `clearInterval` again. */
  function Restart(s: Ui): Ui {
    if !Js.Truthy(s.taskId) then ClearLive(s)
    else s.(intervals := s.intervals[s.nextInterval := Poller(s.taskId, s.vaultToken)],
            intervalRef := Some(s.nextInterval),
            nextInterval := s.nextInterval + 1)
  }

  /** The synchronous part of `handleSubmit`, up to the upload request. */
  function SubmitStart(s: Ui): (Ui, Option<Request>) {
    if s.documentFile.None? then (s.(error := Some(NoFileMessage)), None)
    else
      var t := s.(isLoading := true, loadingMessage := UploadingMessage, error := None,
                  analysis := JNull, taskId := JNull, submitting := true);
      (Commit(s.taskId, s.vaultToken, t),
       Some(Request(s.documentFile.value, s.ragText, Js.Text(s.selectedDocType), Js.Text(s.selectedModel), s.vaultToken)))
  }

  /** The part of `handleSubmit` after the upload request settled. */
  function SubmitSettle(s0: Ui, o: SubmitOutcome): Ui {
    var s := s0.(submitting := false);
    match o
    case Rejected(m) => s.(error := Some(m), isLoading := false)
    case Answered(ok, data) =>
      if !ok then
        if Js.Nullish(data) then s.(error := Some(Js.ReadError(data, "error")), isLoading := false)
        else
          var e := Js.Get(data, "error");
          s.(error := Some(if Js.Truthy(e) then Js.Text(e) else StartFailedMessage), isLoading := false)
      else
        var t := s.(loadingMessage := SubmittedMessage);
        if Js.Nullish(data) then t.(error := Some(Js.ReadError(data, "task_id")), isLoading := false)
        else Commit(s.taskId, s.vaultToken, t.(taskId := Js.Get(data, "task_id")))
  }

  /** The text after "Analysis failed: ": `error?.exc_message` when truthy,
      otherwise `JSON.stringify(error)` (which gives `undefined` for an
      absent error). JSON serialisation is a parameter. */
  function FailureDetail(err: Json, stringify: Json -> string): Json {
    var m := Js.GetOpt(err, "exc_message");
    if Js.Truthy(m) then m else if err.JUndefined? then JUndefined else JStr(stringify(err))
  }

  /** A terminal tick: clear the timer, apply `update`, clear `isLoading` and
      `taskId`, and commit. */
  function Terminal(s: Ui, update: Ui -> Ui): Ui {
    Commit(s.taskId, s.vaultToken, update(ClearLive(s)).(isLoading := false, taskId := JNull))
  }

  /** One firing of the timer `id`, together with the status reply it
      awaits: a timer that was cleared never fires, so its tick changes
      nothing. */
  function PollTick(s: Ui, id: nat, o: PollOutcome, stringify: Json -> string): Ui {
    if id !in s.intervals then s
    else match o
      case QueryFailed => Terminal(s, (t: Ui) => t.(error := Some(PollFailedMessage)))
      case Reply(data) =>
        if Js.Nullish(data) then Terminal(s, (t: Ui) => t.(error := Some(PollFailedMessage)))
        else
          var status := Js.Get(data, "status");
          if !Js.Truthy(status) then s
          // a truthy status that is not a string has no toUpperCase: the call throws
          else if !status.JStr? then Terminal(s, (t: Ui) => t.(error := Some(PollFailedMessage)))
          else if Js.Upper(status.s) == "SUCCESS" then Terminal(s, (t: Ui) => t.(analysis := Js.Get(data, "result")))
          else if Js.Upper(status.s) == "FAILURE" then
            Terminal(s, (t: Ui) => t.(error := Some(FailurePrefix + Js.Text(FailureDetail(Js.Get(data, "error"), stringify)))))
          else s
  }

  /** The submit button is disabled while loading and until both a document
      type and a model are selected. */
  predicate SubmitEnabled(s: Ui) {
    !s.isLoading && Js.Truthy(s.selectedDocType) && Js.Truthy(s.selectedModel)
  }

  /** The events the component reacts to; `Submit` is a press of the submit
      button, `Settle` the settling of the upload request of the suspended
      `handleSubmit` call. */
  datatype Event =
    | ChooseFile(file: Option<string>)
    | EditContext(text: string)
    | ChooseDocType(docType: Json)
    | ChooseModel(model: Json)
    | TokenChanged(token: string)
    | Submit
    | Settle(outcome: SubmitOutcome)
    | Tick(id: nat, poll: PollOutcome)

  function Step(s: Ui, e: Event, stringify: Json -> string): Ui {
    match e
    case ChooseFile(f) => s.(documentFile := f)
    case EditContext(t) => s.(ragText := t)
    case ChooseDocType(d) => s.(selectedDocType := d)
    case ChooseModel(m) => s.(selectedModel := m)
    case TokenChanged(t) => Commit(s.taskId, s.vaultToken, s.(vaultToken := t))
    case Submit => if SubmitEnabled(s) then SubmitStart(s).0 else s
    case Settle(o) => if s.submitting then SubmitSettle(s, o) else s
    case Tick(id, o) => PollTick(s, id, o, stringify)
  }

  function Run(s: Ui, events: seq<Event>, stringify: Json -> string): Ui
    decreases |events|
  {
    if events == [] then s else Run(Step(s, events[0], stringify), events[1..], stringify)
  }

  // ---------------------------------------------------------------------
  // The timer discipline

  lemma CommitInv(prev: Ui, s: Ui)
    requires Inv(prev)
    requires s.nextInterval == prev.nextInterval && s.intervalRef == prev.intervalRef
    requires s.intervals == prev.intervals || s.intervals == map[]
    requires s.taskId == prev.taskId && s.vaultToken == prev.vaultToken ==> s.intervals == prev.intervals
    ensures Inv(Commit(prev.taskId, prev.vaultToken, s))
    ensures Commit(prev.taskId, prev.vaultToken, s).nextInterval >= s.nextInterval
  {
    if !(s.taskId == prev.taskId && s.vaultToken == prev.vaultToken) {
      var cleaned := if Js.Truthy(prev.taskId) then ClearLive(s) else s;
      assert cleaned.intervals == map[] by {
        if s.intervals != map[] {
          var id :| id in s.intervals;
          assert s.intervalRef == Some(id);
          forall k | k in s.intervals ensures k == id {
            assert s.intervalRef == Some(k);
          }
          assert s.intervals.Keys == {id};
        }
      }
    }
  }

  /** Every event keeps the invariant. */
  lemma StepInv(s: Ui, e: Event, stringify: Json -> string)
    requires Inv(s)
    ensures Inv(Step(s, e, stringify))
  {
    match e
    case TokenChanged(t) => CommitInv(s, s.(vaultToken := t));
    case Submit =>
      if SubmitEnabled(s) && s.documentFile.Some? {
        CommitInv(s, s.(isLoading := true, loadingMessage := UploadingMessage, error := None,
                        analysis := JNull, taskId := JNull, submitting := true));
      }
    case Settle(o) => if s.submitting { SettleInv(s, o); }
    case Tick(id, o) => TickInv(s, id, o, stringify);
    case _ =>
  }

  lemma SettleInv(s: Ui, o: SubmitOutcome)
    requires Inv(s)
    ensures Inv(SubmitSettle(s, o))
  {
    if o.Answered? && o.ok && !Js.Nullish(o.data) {
      CommitInv(s, s.(loadingMessage := SubmittedMessage, taskId := Js.Get(o.data, "task_id"), submitting := false));
    }
  }

  lemma TerminalInv(s: Ui, id: nat, update: Ui -> Ui)
    requires Inv(s) && id in s.intervals
    requires forall t: Ui :: update(t).intervals == t.intervals && update(t).intervalRef == t.intervalRef
                             && update(t).nextInterval == t.nextInterval
    ensures Inv(Terminal(s, update))
  {
    var u := update(ClearLive(s)).(isLoading := false, taskId := JNull);
    assert s.intervals.Keys == {id} by {
      forall k | k in s.intervals ensures k == id {
        assert s.intervalRef == Some(k);
      }
    }
    assert u.intervals == map[];
    CommitInv(s, u);
  }

  lemma TickInv(s: Ui, id: nat, o: PollOutcome, stringify: Json -> string)
    requires Inv(s)
    ensures Inv(PollTick(s, id, o, stringify))
  {
    if id in s.intervals {
      match o
      case QueryFailed => TerminalInv(s, id, (t: Ui) => t.(error := Some(PollFailedMessage)));
      case Reply(data) =>
        TerminalInv(s, id, (t: Ui) => t.(error := Some(PollFailedMessage)));
        TerminalInv(s, id, (t: Ui) => t.(analysis := Js.Get(data, "result")));
        TerminalInv(s, id, (t: Ui) => t.(error := Some(FailurePrefix + Js.Text(FailureDetail(Js.Get(data, "error"), stringify)))));
    }
  }

  /** From the initial state, every sequence of events keeps the invariant. */
  lemma {:induction false} RunInv(s: Ui, events: seq<Event>, stringify: Json -> string)
    requires Inv(s)
    ensures Inv(Run(s, events, stringify))
    decreases |events|
  {
    if events != [] {
      StepInv(s, events[0], stringify);
      RunInv(Step(s, events[0], stringify), events[1..], stringify);
    }
  }

  /** At most one timer is ever live, and one is live exactly while a task id
      is being polled. */
  lemma AtMostOneInterval(token: string, events: seq<Event>, stringify: Json -> string)
    ensures var s := Run(Init(token), events, stringify);
            |s.intervals| <= 1 && (|s.intervals| == 1 <==> Js.Truthy(s.taskId))
  {
    var s := Run(Init(token), events, stringify);
    RunInv(Init(token), events, stringify);
    if s.intervals != map[] {
      var id :| id in s.intervals;
      assert s.intervals.Keys == {id} by {
        forall k | k in s.intervals ensures k == id {
          assert s.intervalRef == Some(k);
        }
      }
      assert |s.intervals| == |s.intervals.Keys| == 1;
    }
  }

  /** A step never brings back a timer id it did not create just now. */
  lemma StepFreshIds(s: Ui, e: Event, stringify: Json -> string)
    ensures Step(s, e, stringify).nextInterval >= s.nextInterval
    ensures forall k :: k in Step(s, e, stringify).intervals ==> k in s.intervals || k >= s.nextInterval
  {
    match e
    case TokenChanged(t) => CommitFreshIds(s.taskId, s.vaultToken, s.(vaultToken := t));
    case Submit =>
      if SubmitEnabled(s) && s.documentFile.Some? {
        CommitFreshIds(s.taskId, s.vaultToken, s.(isLoading := true, loadingMessage := UploadingMessage,
                                                  error := None, analysis := JNull, taskId := JNull, submitting := true));
      }
    case Settle(o) =>
      if s.submitting && o.Answered? && o.ok && !Js.Nullish(o.data) {
        CommitFreshIds(s.taskId, s.vaultToken, s.(loadingMessage := SubmittedMessage, taskId := Js.Get(o.data, "task_id"),
                                                  submitting := false));
      }
    case Tick(id, o) =>
      if id in s.intervals {
        TerminalFreshIds(s, (t: Ui) => t.(error := Some(PollFailedMessage)));
        if o.Reply? {
          TerminalFreshIds(s, (t: Ui) => t.(analysis := Js.Get(o.data, "result")));
          TerminalFreshIds(s, (t: Ui) => t.(error := Some(FailurePrefix + Js.Text(FailureDetail(Js.Get(o.data, "error"), stringify)))));
        }
      }
    case _ =>
  }

  lemma CommitFreshIds(prevTask: Json, prevToken: string, s: Ui)
    ensures Commit(prevTask, prevToken, s).nextInterval >= s.nextInterval
    ensures forall k :: k in Commit(prevTask, prevToken, s).intervals ==> k in s.intervals || k >= s.nextInterval
  {
  }

  lemma TerminalFreshIds(s: Ui, update: Ui -> Ui)
    requires forall t: Ui :: update(t).intervals == t.intervals && update(t).nextInterval == t.nextInterval
    ensures Terminal(s, update).nextInterval >= s.nextInterval
    ensures forall k :: k in Terminal(s, update).intervals ==> k in s.intervals || k >= s.nextInterval
  {
    CommitFreshIds(s.taskId, s.vaultToken, update(ClearLive(s)).(isLoading := false, taskId := JNull));
  }

  /** In the model a cleared timer stays cleared whatever events follow: no
      later step brings its id back. (A status reply is applied in the step
      its timer fires, so a reply still in flight when the timer is cleared
      is not part of the model.) */
  lemma {:induction false} ClearedStaysCleared(s: Ui, id: nat, events: seq<Event>, stringify: Json -> string)
    requires id !in s.intervals && id < s.nextInterval
    ensures id !in Run(s, events, stringify).intervals
    ensures Run(s, events, stringify).nextInterval >= s.nextInterval
    decreases |events|
  {
    if events != [] {
      StepFreshIds(s, events[0], stringify);
      ClearedStaysCleared(Step(s, events[0], stringify), id, events[1..], stringify);
    }
  }

  // ---------------------------------------------------------------------
  // The phases of a job

  /** The phases the page goes through: while a submission is suspended the
      page is loading and has no task id, and while a task id is polled the
      page is loading. */
  predicate Phase(s: Ui) {
    && (s.submitting ==> s.isLoading && !Js.Truthy(s.taskId))
    && (Js.Truthy(s.taskId) ==> s.isLoading)
  }

  /** Every event keeps the phases. */
  lemma StepPhase(s: Ui, e: Event, stringify: Json -> string)
    requires Inv(s) && Phase(s)
    ensures Phase(Step(s, e, stringify))
  {
    match e
    case Tick(id, o) =>
      if id in s.intervals {
        LiveIsRef(s, id);
      }
    case _ =>
  }

  lemma {:induction false} RunPhase(s: Ui, events: seq<Event>, stringify: Json -> string)
    requires Inv(s) && Phase(s)
    ensures Inv(Run(s, events, stringify)) && Phase(Run(s, events, stringify))
    decreases |events|
  {
    if events != [] {
      StepInv(s, events[0], stringify);
      StepPhase(s, events[0], stringify);
      RunPhase(Step(s, events[0], stringify), events[1..], stringify);
    }
  }

  /** Whatever events came before, while a job is polled the page is loading,
      so the submit button is disabled: pressing it changes nothing and the
      timer polling the job stays live. */
  lemma ResubmitStopsOldPolling(token: string, events: seq<Event>, stringify: Json -> string)
    ensures var s := Run(Init(token), events, stringify);
            s.intervals != map[] ==> s.isLoading && Step(s, Submit, stringify) == s
  {
    RunPhase(Init(token), events, stringify);
  }

  // ---------------------------------------------------------------------
  // Submission

  /** Submitting with no file only sets the error message; no request is
      made and nothing else changes. */
  lemma SubmitWithoutFile(s: Ui)
    requires s.documentFile.None?
    ensures SubmitStart(s) == (s.(error := Some(NoFileMessage)), None)
  {
  }

  /** An accepted submission shows the loading state, clears the error, the
      previous analysis and the `taskId` (stopping any timer), and posts the
      file, the context text, both selections and the token. */
  lemma SubmitResetsState(s: Ui)
    requires Inv(s) && s.documentFile.Some?
    ensures var (t, req) := SubmitStart(s);
            && t == s.(isLoading := true, loadingMessage := UploadingMessage, error := None, analysis := JNull,
                       taskId := JNull, intervals := map[], submitting := true)
            && req == Some(Request(s.documentFile.value, s.ragText, Js.Text(s.selectedDocType),
                                   Js.Text(s.selectedModel), s.vaultToken))
  {
    if Js.Truthy(s.taskId) {
      var id :| id in s.intervals;
      assert s.intervals.Keys == {id} by {
        forall k | k in s.intervals ensures k == id {
          assert s.intervalRef == Some(k);
        }
      }
    }
  }

  /** A non-ok answer shows the server's `error` (in its string form) or
      "Failed to start analysis." and ends the loading state. */
  lemma SubmitRejected(s: Ui, data: Json)
    requires data.JObj?
    ensures var e := Js.Get(data, "error");
            SubmitSettle(s, Answered(false, data))
            == s.(error := Some(if Js.Truthy(e) then Js.Text(e) else StartFailedMessage), isLoading := false,
                  submitting := false)
  {
  }

  /** An ok answer with a task id starts exactly one timer, polling that id. */
  lemma SubmitAcceptedStartsPolling(s: Ui, data: Json)
    requires Inv(s) && s.taskId == JNull && data.JObj? && Js.Truthy(Js.Get(data, "task_id"))
    ensures var t := SubmitSettle(s, Answered(true, data));
            && t.taskId == Js.Get(data, "task_id")
            && t.loadingMessage == SubmittedMessage
            && t.intervals == map[s.nextInterval := Poller(t.taskId, s.vaultToken)]
            && t.intervalRef == Some(s.nextInterval)
  {
  }

  /** An ok answer without a task id never starts polling, and the loading
      state stays on. */
  lemma SubmitAcceptedWithoutTaskId(s: Ui, data: Json)
    requires Inv(s) && s.taskId == JNull && s.isLoading && data.JObj? && "task_id" !in data.fields
    ensures var t := SubmitSettle(s, Answered(true, data));
            t.isLoading && t.intervals == map[] && t.taskId == JUndefined
  {
  }

  /** The submit button is disabled while a job is loading and until both a
      document type and a model are chosen: pressing it then changes nothing.
      Otherwise the press runs `handleSubmit`. */
  lemma NoSubmitWhileLoading(s: Ui, stringify: Json -> string)
    ensures s.isLoading || !Js.Truthy(s.selectedDocType) || !Js.Truthy(s.selectedModel) ==> Step(s, Submit, stringify) == s
    ensures !s.isLoading && Js.Truthy(s.selectedDocType) && Js.Truthy(s.selectedModel) ==>
              Step(s, Submit, stringify) == SubmitStart(s).0
  {
  }

  /** Submitting with no file after a result arrived shows the error next to
      the previous result, which stays on screen. */
  lemma NoFileKeepsPreviousResult(s: Ui, stringify: Json -> string)
    requires SubmitEnabled(s) && s.documentFile.None? && Js.Truthy(s.analysis)
    ensures var t := Step(s, Submit, stringify);
            t.error == Some(NoFileMessage) && t.analysis == s.analysis
  {
  }

  // ---------------------------------------------------------------------
  // Poll ticks

  lemma LiveIsRef(s: Ui, id: nat)
    requires Inv(s) && id in s.intervals
    ensures s.intervals.Keys == {id} && s.intervalRef == Some(id) && Js.Truthy(s.taskId)
  {
    forall k | k in s.intervals ensures k == id {
      assert s.intervalRef == Some(k);
    }
  }

  /** A SUCCESS status, in any letter case, stores `result` as the analysis,
      ends the loading state and clears the `taskId` and the timer; nothing
      else changes. */
  lemma TickSuccess(s: Ui, id: nat, data: Json, stringify: Json -> string)
    requires Inv(s) && id in s.intervals
    requires data.JObj? && Js.Get(data, "status").JStr? && Js.Upper(Js.Get(data, "status").s) == "SUCCESS"
    ensures PollTick(s, id, Reply(data), stringify)
            == s.(analysis := Js.Get(data, "result"), isLoading := false, taskId := JNull, intervals := map[])
  {
    LiveIsRef(s, id);
  }

  /** A FAILURE status shows "Analysis failed: " followed by `exc_message`,
      or by the serialised error object when that is missing, and ends
      polling; the analysis is left as it was. */
  lemma TickFailure(s: Ui, id: nat, data: Json, stringify: Json -> string)
    requires Inv(s) && id in s.intervals
    requires data.JObj? && Js.Get(data, "status").JStr? && Js.Upper(Js.Get(data, "status").s) == "FAILURE"
    ensures var err := Js.Get(data, "error");
            var m := Js.GetOpt(err, "exc_message");
            var detail := if Js.Truthy(m) then Js.Text(m) else if err.JUndefined? then "undefined" else stringify(err);
            PollTick(s, id, Reply(data), stringify)
            == s.(error := Some(FailurePrefix + detail), isLoading := false, taskId := JNull, intervals := map[])
  {
    LiveIsRef(s, id);
  }

  /** A missing, empty or non-terminal status changes nothing. */
  lemma TickPending(s: Ui, id: nat, data: Json, stringify: Json -> string)
    requires data.JObj?
    requires var st := Js.Get(data, "status");
             !Js.Truthy(st) || (st.JStr? && Js.Upper(st.s) != "SUCCESS" && Js.Upper(st.s) != "FAILURE")
    ensures PollTick(s, id, Reply(data), stringify) == s
  {
  }

  /** A status query that throws ends polling with the fixed message. */
  lemma TickQueryFailed(s: Ui, id: nat, stringify: Json -> string)
    requires Inv(s) && id in s.intervals
    ensures PollTick(s, id, QueryFailed, stringify)
            == s.(error := Some(PollFailedMessage), isLoading := false, taskId := JNull, intervals := map[])
  {
    LiveIsRef(s, id);
  }

  /** Statuses that differ only in letter case have the same effect. */
  lemma StatusCaseInsensitive(s: Ui, id: nat, m: map<string, Json>, a: string, b: string, stringify: Json -> string)
    requires Js.Upper(a) == Js.Upper(b) && a != "" && b != ""
    ensures PollTick(s, id, Reply(JObj(m["status" := JStr(a)])), stringify)
            == PollTick(s, id, Reply(JObj(m["status" := JStr(b)])), stringify)
  {
    var da, db := JObj(m["status" := JStr(a)]), JObj(m["status" := JStr(b)]);
    assert Js.Get(da, "result") == Js.Get(db, "result");
    assert Js.Get(da, "error") == Js.Get(db, "error");
  }

  /** "success", "Success" and "SUCCESS" all read as SUCCESS. */
  lemma SuccessSpellings()
    ensures Js.Upper("success") == Js.Upper("Success") == Js.Upper("SUCCESS") == "SUCCESS"
  {
  }

  /** A status reply that keeps the job polling: an object whose status is
      missing, empty, or a string other than SUCCESS and FAILURE in any
      letter case. */
  predicate Pending(data: Json) {
    && data.JObj?
    && var st := Js.Get(data, "status");
       !Js.Truthy(st) || (st.JStr? && Js.Upper(st.s) != "SUCCESS" && Js.Upper(st.s) != "FAILURE")
  }

  /** A status reply that ends the job with its result. */
  predicate Succeeded(data: Json) {
    data.JObj? && Js.Get(data, "status").JStr? && Js.Upper(Js.Get(data, "status").s) == "SUCCESS"
  }

  /** One firing of the timer `id` per reply, in order. */
  function Ticks(id: nat, replies: seq<Json>): (r: seq<Event>)
    ensures |r| == |replies|
    ensures forall i :: 0 <= i < |replies| ==> r[i] == Tick(id, Reply(replies[i]))
  {
    seq(|replies|, i requires 0 <= i < |replies| => Tick(id, Reply(replies[i])))
  }

  /** The document type, the model and the file are chosen; nothing else
      changes. */
  lemma SelectionsMade(s: Ui, d: Json, m: Json, f: string, stringify: Json -> string)
    ensures Run(s, [ChooseDocType(d), ChooseModel(m), ChooseFile(Some(f))], stringify)
            == s.(selectedDocType := d, selectedModel := m, documentFile := Some(f))
  {
    var choices := [ChooseDocType(d), ChooseModel(m), ChooseFile(Some(f))];
    var s1 := s.(selectedDocType := d);
    var s2 := s1.(selectedModel := m);
    var s3 := s2.(documentFile := Some(f));
    assert choices[1..] == [choices[1], choices[2]] && choices[1..][1..] == [choices[2]] && choices[1..][1..][1..] == [];
    assert Run(s2, choices[1..][1..], stringify) == Run(s3, [], stringify);
    assert Run(s1, choices[1..], stringify) == Run(s2, choices[1..][1..], stringify);
  }

  /** From any reachable idle state with both selections and a file, a press
      of the submit button whose upload is answered with a task id shows the
      submitted message, clears the error and the previous analysis, and
      starts exactly one timer, polling that task id with the current token. */
  lemma UploadPhase(s: Ui, data: Json, stringify: Json -> string)
    requires Inv(s) && Phase(s) && SubmitEnabled(s) && s.documentFile.Some?
    requires data.JObj? && Js.Truthy(Js.Get(data, "task_id"))
    ensures var task := Js.Get(data, "task_id");
            Run(s, [Submit, Settle(Answered(true, data))], stringify)
            == s.(isLoading := true, loadingMessage := SubmittedMessage, error := None, analysis := JNull,
                  taskId := task, intervals := map[s.nextInterval := Poller(task, s.vaultToken)],
                  intervalRef := Some(s.nextInterval), nextInterval := s.nextInterval + 1)
  {
    var upload := [Submit, Settle(Answered(true, data))];
    SubmitResetsState(s);
    var s1 := SubmitStart(s).0;
    assert s1.submitting && s1.taskId == JNull;
    var s2 := SubmitSettle(s1, Answered(true, data));
    assert upload[1..] == [upload[1]] && upload[1..][1..] == [];
    assert Run(s1, upload[1..], stringify) == Run(s2, [], stringify);
    assert Run(s, upload, stringify) == Run(s1, upload[1..], stringify);
  }

  /** Polls answered by any number of pending replies leave the state as it
      was. */
  lemma {:induction false} PendingTicksIdle(s: Ui, id: nat, replies: seq<Json>, stringify: Json -> string)
    requires forall i :: 0 <= i < |replies| ==> Pending(replies[i])
    ensures Run(s, Ticks(id, replies), stringify) == s
    decreases |replies|
  {
    if replies != [] {
      var ticks := Ticks(id, replies);
      TickPending(s, id, replies[0], stringify);
      assert ticks[1..] == Ticks(id, replies[1..]);
      PendingTicksIdle(s, id, replies[1..], stringify);
    }
  }

  /** While a timer is live, any number of pending replies followed by a
      SUCCESS reply store its `result` as the analysis, end the loading
      state and clear the `taskId` and the timer; nothing else changes. */
  lemma PollingPhase(s: Ui, id: nat, replies: seq<Json>, done: Json, stringify: Json -> string)
    requires Inv(s) && id in s.intervals
    requires forall i :: 0 <= i < |replies| ==> Pending(replies[i])
    requires Succeeded(done)
    ensures Run(s, Ticks(id, replies) + [Tick(id, Reply(done))], stringify)
            == s.(analysis := Js.Get(done, "result"), isLoading := false, taskId := JNull, intervals := map[])
  {
    RunSplit(s, Ticks(id, replies), [Tick(id, Reply(done))], stringify);
    PendingTicksIdle(s, id, replies, stringify);
    TickSuccess(s, id, done, stringify);
    assert Run(s, [Tick(id, Reply(done))], stringify) == Run(Step(s, Tick(id, Reply(done)), stringify), [], stringify);
  }

  /** From the initial page, choosing a document type, a model and a file and
      submitting, with the upload answered by a task id, leaves the job polled
      by timer 0 with the submitted message shown. */
  lemma UploadAccepted(token: string, d: Json, m: Json, f: string, data: Json, stringify: Json -> string)
    requires Js.Truthy(d) && Js.Truthy(m)
    requires data.JObj? && Js.Truthy(Js.Get(data, "task_id"))
    ensures var task := Js.Get(data, "task_id");
            Run(Init(token), [ChooseDocType(d), ChooseModel(m), ChooseFile(Some(f)), Submit, Settle(Answered(true, data))],
                stringify)
            == Init(token).(selectedDocType := d, selectedModel := m, documentFile := Some(f), isLoading := true,
                            loadingMessage := SubmittedMessage, taskId := task, intervals := map[0 := Poller(task, token)],
                            intervalRef := Some(0), nextInterval := 1)
  {
    var choices := [ChooseDocType(d), ChooseModel(m), ChooseFile(Some(f))];
    var upload := [Submit, Settle(Answered(true, data))];
    SelectionsMade(Init(token), d, m, f, stringify);
    var s0 := Init(token).(selectedDocType := d, selectedModel := m, documentFile := Some(f));
    UploadPhase(s0, data, stringify);
    RunSplit(Init(token), choices, upload, stringify);
    assert choices + upload == [ChooseDocType(d), ChooseModel(m), ChooseFile(Some(f)), Submit, Settle(Answered(true, data))];
  }

  /** A whole job from the initial page: the selections are made, the upload
      is answered with a task id, any number of polls answer a pending
      status and the next one SUCCESS. The result is then on screen, loading
      is over, no error is shown and no timer is left. */
  lemma PollUntilSuccess(token: string, d: Json, m: Json, f: string, data: Json, replies: seq<Json>, done: Json,
                         stringify: Json -> string)
    requires Js.Truthy(d) && Js.Truthy(m)
    requires data.JObj? && Js.Truthy(Js.Get(data, "task_id"))
    requires forall i :: 0 <= i < |replies| ==> Pending(replies[i])
    requires Succeeded(done)
    ensures var upload := [ChooseDocType(d), ChooseModel(m), ChooseFile(Some(f)), Submit, Settle(Answered(true, data))];
            Run(Init(token), upload + Ticks(0, replies) + [Tick(0, Reply(done))], stringify)
            == Init(token).(selectedDocType := d, selectedModel := m, documentFile := Some(f),
                            analysis := Js.Get(done, "result"), loadingMessage := SubmittedMessage,
                            intervalRef := Some(0), nextInterval := 1)
  {
    var upload := [ChooseDocType(d), ChooseModel(m), ChooseFile(Some(f)), Submit, Settle(Answered(true, data))];
    var polls := Ticks(0, replies) + [Tick(0, Reply(done))];
    assert upload + Ticks(0, replies) + [Tick(0, Reply(done))] == upload + polls;
    UploadAccepted(token, d, m, f, data, stringify);
    RunSplit(Init(token), upload, polls, stringify);
    PollingPhase(Run(Init(token), upload, stringify), 0, replies, done, stringify);
  }

  lemma {:induction false} RunSplit(s: Ui, a: seq<Event>, b: seq<Event>, stringify: Json -> string)
    ensures Run(s, a + b, stringify) == Run(Run(s, a, stringify), b, stringify)
    decreases |a|
  {
    if a == [] {
      assert a + b == b;
    } else {
      assert (a + b)[0] == a[0] && (a + b)[1..] == a[1..] + b;
      RunSplit(Step(s, a[0], stringify), a[1..], b, stringify);
    }
  }

  /** The controller as the component holds it: one object whose fields are
      the React state and the interval ref. */
  class Analyzer {
    var documentFile: Option<string>
    var ragText: string
    var selectedDocType: Json
    var selectedModel: Json
    var vaultToken: string
    var analysis: Json
    var isLoading: bool
    var loadingMessage: string
    var error: Option<string>
    var taskId: Json
    var intervals: map<nat, Poller>
    var intervalRef: Option<nat>
    var nextInterval: nat
    /** Whether a `handleSubmit` call is suspended at its upload request. */
    ghost var submitting: bool

    ghost function State(): Ui
      reads this
    {
      Ui(documentFile, ragText, selectedDocType, selectedModel, vaultToken, analysis, isLoading,
         loadingMessage, error, taskId, intervals, intervalRef, nextInterval, submitting)
    }

    constructor (token: string)
      ensures State() == Init(token) && Inv(State())
    {
      documentFile, ragText, selectedDocType, selectedModel := None, "", JStr(""), JStr("");
      vaultToken, analysis, isLoading, loadingMessage := token, JNull, false, "";
      error, taskId, intervals, intervalRef, nextInterval := None, JNull, map[], None, 0;
      submitting := false;
    }

    /** `handleFileChange`. */
    method HandleFileChange(file: Option<string>)
      modifies this
      ensures State() == Step(old(State()), ChooseFile(file), _ => "")
    {
      documentFile := file;
    }

    /** The textarea and the two selects. */
    method HandleContextChange(text: string)
      modifies this
      ensures State() == Step(old(State()), EditContext(text), _ => "")
    {
      ragText := text;
    }

    method HandleDocTypeChange(docType: Json)
      modifies this
      ensures State() == Step(old(State()), ChooseDocType(docType), _ => "")
    {
      selectedDocType := docType;
    }

    method HandleModelChange(model: Json)
      modifies this
      ensures State() == Step(old(State()), ChooseModel(model), _ => "")
    {
      selectedModel := model;
    }

    /** `clearInterval(intervalRef.current)`. */
    method ClearInterval()
      modifies this
      ensures State() == ClearLive(old(State()))
    {
      if intervalRef.Some? {
        intervals := intervals - {intervalRef.value};
      }
    }

    /** React's commit: re-run the polling effect when its dependencies
      changed since the render that had `prevTask` and `prevToken`. */
    method CommitEffect(prevTask: Json, prevToken: string)
      modifies this
      ensures State() == Commit(prevTask, prevToken, old(State()))
    {
      if taskId != prevTask || vaultToken != prevToken {
        if Js.Truthy(prevTask) {
          ClearInterval();
        }
        RestartEffect();
      }
    }

    /** The effect's body: start polling for `taskId`, or clear the timer. */
    method RestartEffect()
      modifies this
      ensures State() == Restart(old(State()))
    {
      if !Js.Truthy(taskId) {
        ClearInterval();
      } else {
        intervals := intervals[nextInterval := Poller(taskId, vaultToken)];
        intervalRef := Some(nextInterval);
        nextInterval := nextInterval + 1;
      }
    }

    /** A new `vaultToken` prop. */
    method HandleTokenChange(token: string)
      requires Inv(State())
      modifies this
      ensures State() == Step(old(State()), TokenChanged(token), _ => "") && Inv(State())
    {
      var prevTask, prevToken := taskId, vaultToken;
      vaultToken := token;
      CommitEffect(prevTask, prevToken);
      StepInv(old(State()), TokenChanged(token), _ => "");
    }

    /** The synchronous part of `handleSubmit`; the request it posts, if any. */
    method HandleSubmit() returns (request: Option<Request>)
      requires Inv(State())
      modifies this
      ensures (State(), request) == SubmitStart(old(State())) && Inv(State())
    {
      if documentFile.None? {
        error := Some(NoFileMessage);
        request := None;
        return;
      }
      var prevTask, prevToken := taskId, vaultToken;
      isLoading := true;
      loadingMessage := UploadingMessage;
      error := None;
      analysis := JNull;
      taskId := JNull;
      submitting := true;
      request := Some(Request(documentFile.value, ragText, Js.Text(selectedDocType), Js.Text(selectedModel), vaultToken));
      assert State() == old(State()).(isLoading := true, loadingMessage := UploadingMessage, error := None,
                                      analysis := JNull, taskId := JNull, submitting := true);
      CommitEffect(prevTask, prevToken);
      SubmitResetsState(old(State()));
    }

    /** The rest of `handleSubmit`, once the upload request settled. */
    method SubmitSettled(outcome: SubmitOutcome)
      requires Inv(State()) && submitting
      modifies this
      ensures State() == SubmitSettle(old(State()), outcome) && Inv(State())
    {
      if outcome.Answered? && outcome.ok {
        SubmitAccepted(outcome.data);
      } else {
        SubmitFailed(outcome);
      }
      SettleInv(old(State()), outcome);
    }

    /** A rejected request or a reply that is not `ok`: the error shown. */
    method SubmitFailed(outcome: SubmitOutcome)
      requires !(outcome.Answered? && outcome.ok)
      modifies this
      ensures State() == SubmitSettle(old(State()), outcome)
    {
      match outcome {
        case Rejected(m) =>
          error := Some(m);
        case Answered(_, data) =>
          if Js.Nullish(data) {
            error := Some(Js.ReadError(data, "error"));
          } else {
            var e := Js.Get(data, "error");
            error := Some(if Js.Truthy(e) then Js.Text(e) else StartFailedMessage);
          }
      }
      isLoading := false;
      submitting := false;
    }

    /** An `ok` reply: the `taskId` is taken and polling begins. */
    method SubmitAccepted(data: Json)
      modifies this
      ensures State() == SubmitSettle(old(State()), Answered(true, data))
    {
      var prevTask, prevToken := taskId, vaultToken;
      loadingMessage := SubmittedMessage;
      submitting := false;
      if Js.Nullish(data) {
        error := Some(Js.ReadError(data, "task_id"));
        isLoading := false;
      } else {
        taskId := Js.Get(data, "task_id");
        CommitEffect(prevTask, prevToken);
      }
    }

    /** The common end of a terminal tick, after its own update. */
    method EndPolling(prevTask: Json, prevToken: string)
      modifies this
      ensures State() == Commit(prevTask, prevToken, old(State()).(isLoading := false, taskId := JNull))
    {
      isLoading := false;
      taskId := JNull;
      CommitEffect(prevTask, prevToken);
    }

    /** One firing of timer `id`: the callback passed to `setInterval`. */
    method IntervalFired(id: nat, outcome: PollOutcome, stringify: Json -> string)
      requires Inv(State())
      modifies this
      ensures State() == PollTick(old(State()), id, outcome, stringify) && Inv(State())
    {
      TickInv(State(), id, outcome, stringify);
      if id !in intervals {
        return;
      }
      var prevTask, prevToken := taskId, vaultToken;
      var failed := outcome.QueryFailed? || Js.Nullish(outcome.data);
      if !failed {
        var status := Js.Get(outcome.data, "status");
        if !Js.Truthy(status) {
          return;
        }
        if status.JStr? {
          var upper := Js.Upper(status.s);
          if upper == "SUCCESS" {
            ClearInterval();
            analysis := Js.Get(outcome.data, "result");
            EndPolling(prevTask, prevToken);
          } else if upper == "FAILURE" {
            ClearInterval();
            error := Some(FailurePrefix + Js.Text(FailureDetail(Js.Get(outcome.data, "error"), stringify)));
            EndPolling(prevTask, prevToken);
          }
          return;
        }
      }
      ClearInterval();
      error := Some(PollFailedMessage);
      EndPolling(prevTask, prevToken);
    }
  }
}
