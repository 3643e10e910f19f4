/** The background task (api/tasks.py): `process_document_analysis` finds
    the chosen document type and model in the configuration, runs the ABBYY
    extraction through the provider, then asks the chosen LLM provider for
    the analysis, recording a FAILURE state when either stage raises. The
    configuration file, base64 decoding, the prompt template file and its
    formatting, and the LLM call itself are inputs (`World`); the ABBYY
    replies are inputs to the provider as in `AbbyyProvider`. */
module Tasks {
  import opened Json
  import opened Py
  import AbbyyProvider
  import AbbyyParser
  import Views

  const InvalidIdsMessage: string := "Invalid document type or model ID."
  const UnknownProviderPrefix: string := "Unknown LLM provider: "
  const ResponseSeparator: string := " | Response: "
  const FailureState: string := "FAILURE"

  // ---------------------------------------------------------------------
  // Configuration lookups

  /** The first item whose `id` equals `id`, or None. Items are examined in
      order and `item['id']` raises for the first item that has no id. */
  function FirstWithId(items: seq<Json>, id: Json): (r: Result<Json>)
    ensures r.Ok? && r.value != JNull ==> r.value in items && r.value.JObj? && "id" in r.value.fields && r.value.fields["id"] == id
  {
    if items == [] then Ok(JNull)
    else
      match Key(items[0], "id")
      case Raised(e) => Raised(e)
      case Ok(v) => if v == id then Ok(items[0]) else FirstWithId(items[1..], id)
  }

  /** `next((item for item in config[list] if item['id'] == id), None)`. */
  function Lookup(config: Json, list: string, id: Json): Result<Json> {
    match Key(config, list)
    case Raised(e) => Raised(e)
    case Ok(items) =>
      match Iterate(items)
      case Raised(e) => Raised(e)
      case Ok(xs) => FirstWithId(xs, id)
  }

  /** A well-formed entry with id `id`. */
  predicate HasId(item: Json, id: Json) {
    item.JObj? && "id" in item.fields && item.fields["id"] == id
  }

  /** The entry at `k` is found when every entry before it is a dict with a
      different id. */
  lemma {:induction false} FirstMatchFound(items: seq<Json>, id: Json, k: nat)
    requires k < |items| && HasId(items[k], id)
    requires forall j :: 0 <= j < k ==> items[j].JObj? && "id" in items[j].fields && items[j].fields["id"] != id
    ensures FirstWithId(items, id) == Ok(items[k])
    decreases k
  {
    if k > 0 {
      FirstMatchFound(items[1..], id, k - 1);
    }
  }

  /** Without a matching entry the lookup gives None. */
  lemma {:induction false} NoMatchIsNone(items: seq<Json>, id: Json)
    requires forall j :: 0 <= j < |items| ==> items[j].JObj? && "id" in items[j].fields && items[j].fields["id"] != id
    ensures FirstWithId(items, id) == Ok(JNull)
    decreases |items|
  {
    if items != [] {
      NoMatchIsNone(items[1..], id);
    }
  }

  /** The ids the upload form sends are strings; a configuration whose ids
      are numbers matches none of them. */
  lemma FormIdNeverMatchesNumber(items: seq<Json>, id: string)
    requires forall j :: 0 <= j < |items| ==> items[j].JObj? && "id" in items[j].fields && items[j].fields["id"].JNum?
    ensures FirstWithId(items, JStr(id)) == Ok(JNull)
  {
    NoMatchIsNone(items, JStr(id));
  }

  // ---------------------------------------------------------------------
  // LLM provider factory

  /** The providers `get_llm_provider` builds; their own behaviour is not
      part of this model. */
  datatype LlmProvider =
    | GeminiProvider(apiKey: Json, modelId: Json, endpoint: Json)
    | OpenAIProvider(apiKey: Json, modelId: Json)

  /** `get_llm_provider(provider_name, model_id, config)`: the provider's
      Vault settings are read, and its API key fetched, before the name is
      dispatched on. */
  function GetLlmProvider(name: Json, modelId: Json, config: Json, secrets: AbbyyProvider.Secrets,
                          dictRepr: AbbyyProvider.DictRepr): (r: Result<LlmProvider>)
    ensures r.Ok? ==> r.value.modelId == modelId
    ensures r.Ok? && r.value.GeminiProvider? ==> name == JStr("google")
    ensures r.Ok? && r.value.OpenAIProvider? ==> name == JStr("openai")
  {
    var providers := Key(config, "providers");
    var info := if providers.Raised? then providers else Sub(providers.value, name);
    if info.Raised? then Raised(info.exc)
    else
      var mount := Key(info.value, "vault_mount_point");
      var path := Key(info.value, "vault_secret_path");
      var keyName := Key(info.value, "api_key_vault_key");
      if mount.Raised? then Raised(mount.exc)
      else if path.Raised? then Raised(path.exc)
      else if keyName.Raised? then Raised(keyName.exc)
      else
        var apiKey := secrets(path.value, keyName.value, mount.value);
        if apiKey.Raised? then Raised(apiKey.exc)
        else if name == JStr("google") then
          var endpoints := Key(config, "api_endpoints");
          var endpoint := if endpoints.Raised? then endpoints else Key(endpoints.value, "google_gemini");
          if endpoint.Raised? then Raised(endpoint.exc)
          else Ok(GeminiProvider(apiKey.value, modelId, endpoint.value))
        else if name == JStr("openai") then Ok(OpenAIProvider(apiKey.value, modelId))
        else Raised(Error("ValueError", UnknownProviderPrefix + Str(name, dictRepr)))
  }

  /** A provider's settings as the factory reads them. */
  predicate Configured(config: Json, name: string) {
    && config.JObj? && "providers" in config.fields && config.fields["providers"].JObj?
    && name in config.fields["providers"].fields
    && var info := config.fields["providers"].fields[name];
       info.JObj? && "vault_mount_point" in info.fields && "vault_secret_path" in info.fields
       && "api_key_vault_key" in info.fields
  }

  /** The API key of a configured provider. */
  function ApiKey(config: Json, name: string, secrets: AbbyyProvider.Secrets): Result<Json>
    requires Configured(config, name)
  {
    var info := config.fields["providers"].fields[name].fields;
    secrets(info["vault_secret_path"], info["api_key_vault_key"], info["vault_mount_point"])
  }

  /** "google" gives a Gemini provider with the key from Vault and the
      `google_gemini` endpoint; "openai" an OpenAI provider. */
  lemma KnownProviders(config: Json, modelId: Json, secrets: AbbyyProvider.Secrets, dictRepr: AbbyyProvider.DictRepr)
    requires Configured(config, "google") && ApiKey(config, "google", secrets).Ok?
    requires "api_endpoints" in config.fields && config.fields["api_endpoints"].JObj?
    requires "google_gemini" in config.fields["api_endpoints"].fields
    requires Configured(config, "openai") && ApiKey(config, "openai", secrets).Ok?
    ensures GetLlmProvider(JStr("google"), modelId, config, secrets, dictRepr)
            == Ok(GeminiProvider(ApiKey(config, "google", secrets).value, modelId,
                                 config.fields["api_endpoints"].fields["google_gemini"]))
    ensures GetLlmProvider(JStr("openai"), modelId, config, secrets, dictRepr)
            == Ok(OpenAIProvider(ApiKey(config, "openai", secrets).value, modelId))
  {
  }

  /** Any other configured name is refused by name. */
  lemma UnknownProvider(name: string, modelId: Json, config: Json, secrets: AbbyyProvider.Secrets,
                        dictRepr: AbbyyProvider.DictRepr)
    requires Configured(config, name) && ApiKey(config, name, secrets).Ok?
    requires name != "google" && name != "openai"
    ensures GetLlmProvider(JStr(name), modelId, config, secrets, dictRepr)
            == Raised(Error("ValueError", UnknownProviderPrefix + name))
  {
  }

  /** A name missing from `providers` fails on the lookup, with a KeyError,
      before the name is dispatched on. */
  lemma UnconfiguredProvider(name: string, modelId: Json, config: Json, secrets: AbbyyProvider.Secrets,
                             dictRepr: AbbyyProvider.DictRepr)
    requires config.JObj? && "providers" in config.fields && config.fields["providers"].JObj?
    requires name !in config.fields["providers"].fields
    ensures GetLlmProvider(JStr(name), modelId, config, secrets, dictRepr) == Raised(KeyError(JStr(name)))
  {
  }

  // ---------------------------------------------------------------------
  // The Celery task

  /** One `self.update_state(state=..., meta={'exc_type': ..., 'exc_message': ...})`. */
  datatype Update = Update(state: string, excType: string, excMessage: string)

  /** What the Celery task reads from and asks of the outside world. `prompt`
      stands for reading the template file at a path and formatting it with
      the extracted data and the context text; `generate` for the
      provider's `generate_analysis`. */
  datatype World = World(
    decode: string -> Result<seq<bv8>>,
    secrets: AbbyyProvider.Secrets,
    auth: Result<Json>, create: Result<Json>, upload: Result<Json>, start: Result<Json>,
    status: nat -> Result<Json>, download: string -> Result<Json>,
    prompt: (Json, AbbyyParser.Clean, string) -> Result<string>,
    generate: (LlmProvider, string) -> Result<Json>,
    dictRepr: AbbyyProvider.DictRepr)

  /** The outcome of the ABBYY stage, or of its steps from some point on:
      the extracted data or the exception, and the requests sent. */
  datatype Stage = Stage(result: Result<AbbyyParser.Clean>, calls: seq<AbbyyProvider.Call>)

  function Failed(e: Exc, calls: seq<AbbyyProvider.Call>): Stage {
    Stage(Raised(e), calls)
  }

  /** A step's requests, then those of the steps after it. */
  function After(calls: seq<AbbyyProvider.Call>, rest: Stage): Stage {
    Stage(rest.result, calls + rest.calls)
  }

  /** The ABBYY half of the Celery task, inside its first `try`: the provider is
      built from the configuration, then takes its steps in order. */
  function AbbyyStage(config: Json, docType: Json, w: World): Stage {
    var settings := AbbyyProvider.Settings(config);
    if settings.Raised? then Failed(settings.exc, [])
    else TokenStep(settings.value.0, settings.value.1, docType, w)
  }

  /** `get_access_token()`, then the skill id of the document type. */
  function TokenStep(abbyy: Json, secret: Json, docType: Json, w: World): Stage {
    var token := AbbyyProvider.AccessToken(abbyy, secret, w.secrets, w.auth, w.dictRepr);
    if token.result.Raised? then Failed(token.result.exc, token.calls)
    else
      var skill := Key(docType, "abbyy_skill_id");
      if skill.Raised? then Failed(skill.exc, token.calls)
      else After(token.calls, CreateStep(abbyy, w))
  }

  /** `create_transaction(...)`. */
  function CreateStep(abbyy: Json, w: World): Stage {
    var created := AbbyyProvider.CreateTransaction(abbyy, w.create, w.dictRepr);
    if created.result.Raised? then Failed(created.result.exc, created.calls)
    else After(created.calls, UploadStep(abbyy, created.result.value, w))
  }

  /** `add_file_to_transaction(...)`. */
  function UploadStep(abbyy: Json, id: Json, w: World): Stage {
    var added := AbbyyProvider.Send(AbbyyProvider.HttpPost, AbbyyProvider.FilesUrl(abbyy, id, w.dictRepr), w.upload);
    if added.result.Raised? then Failed(added.result.exc, added.calls)
    else After(added.calls, StartStep(abbyy, id, w))
  }

  /** `start_transaction(...)`. */
  function StartStep(abbyy: Json, id: Json, w: World): Stage {
    var started := AbbyyProvider.Send(AbbyyProvider.HttpPost, AbbyyProvider.StartUrl(abbyy, id, w.dictRepr), w.start);
    if started.result.Raised? then Failed(started.result.exc, started.calls)
    else After(started.calls, PollStep(abbyy, id, w))
  }

  /** `poll_and_get_result(...)`, then `parse_abbyy_response`. */
  function PollStep(abbyy: Json, id: Json, w: World): Stage {
    var polled := AbbyyProvider.Poll(abbyy, id, w.status, w.download, w.dictRepr);
    if polled.result.Raised? then Failed(polled.result.exc, polled.calls)
    else Stage(AbbyyParser.Parsed(polled.result.value), polled.calls)
  }

  /** The LLM half of the Celery task, inside its second `try`. */
  function LlmStage(config: Json, docType: Json, model: Json, modelId: string, ragText: string,
                    extracted: AbbyyParser.Clean, w: World): Result<Json>
  {
    var name := Key(model, "provider");
    if name.Raised? then Raised(name.exc)
    else
      var provider := GetLlmProvider(name.value, JStr(modelId), config, w.secrets, w.dictRepr);
      if provider.Raised? then Raised(provider.exc)
      else
        var path := Key(docType, "prompt_template");
        if path.Raised? then Raised(path.exc)
        else
          var prompt := w.prompt(path.value, extracted, ragText);
          if prompt.Raised? then Raised(prompt.exc)
          else w.generate(provider.value, prompt.value)
  }

  /** The message recorded for an LLM-stage failure: the exception's text,
      followed by the HTTP response text when the exception carries one. */
  function LlmFailureText(e: Exc): (t: string)
    ensures e.response.None? ==> t == e.message
    ensures e.response.Some? ==> |t| >= |e.message| && t[..|e.message|] == e.message && t[|e.message|..] == ResponseSeparator + e.response.value
  {
    if e.response.Some? then e.message + ResponseSeparator + e.response.value else e.message
  }

  /** Everything the Celery task does: its result, the state updates it records,
      and the ABBYY requests it sends. */
  datatype Run = Run(result: Result<Json>, updates: seq<Update>, calls: seq<AbbyyProvider.Call>)

  /** `process_document_analysis(...)` with the arguments the upload endpoint
      queued and the configuration file's contents. */
  function Process(call: Views.TaskCall, config: Json, w: World): (r: Run)
    ensures |r.updates| <= 1
    ensures r.result.Ok? ==> r.updates == []
    ensures r.updates != [] ==> r.result.Raised? && r.updates[0].state == FailureState
                                && r.updates[0].excType == r.result.exc.name
    ensures r.calls != [] ==> Lookup(config, "document_types", JStr(call.docTypeId)).Ok?
                              && Truthy(Lookup(config, "document_types", JStr(call.docTypeId)).value)
                              && Lookup(config, "ai_models", JStr(call.modelId)).Ok?
                              && Truthy(Lookup(config, "ai_models", JStr(call.modelId)).value)
  {
    var docType := Lookup(config, "document_types", JStr(call.docTypeId));
    var model := Lookup(config, "ai_models", JStr(call.modelId));
    if docType.Raised? then Run(Raised(docType.exc), [], [])
    else if model.Raised? then Run(Raised(model.exc), [], [])
    else if !Truthy(docType.value) || !Truthy(model.value) then Run(Raised(Error("ValueError", InvalidIdsMessage)), [], [])
    else
      var content := w.decode(call.contentB64);
      if content.Raised? then Run(Raised(content.exc), [], [])
      else Analysis(call, config, docType.value, model.value, w)
  }

  /** The two `try` blocks of the Celery task, for the entries found. */
  function Analysis(call: Views.TaskCall, config: Json, docType: Json, model: Json, w: World): (r: Run)
    ensures |r.updates| <= 1
    ensures r.result.Ok? ==> r.updates == []
    ensures r.updates != [] ==> r.result.Raised? && r.updates[0].state == FailureState
                                && r.updates[0].excType == r.result.exc.name
  {
    var abbyy := AbbyyStage(config, docType, w);
    if abbyy.result.Raised? then
      var e := abbyy.result.exc;
      Run(Raised(e), [Update(FailureState, e.name, e.message)], abbyy.calls)
    else
      var llm := LlmStage(config, docType, model, call.modelId, call.ragText, abbyy.result.value, w);
      if llm.Raised? then
        var e := llm.exc;
        Run(Raised(e), [Update(FailureState, e.name, LlmFailureText(e))], abbyy.calls)
      else Run(llm, [], abbyy.calls)
  }

  // ---------------------------------------------------------------------
  // The Celery task object

  class AnalysisTask {
    /** The states recorded through `update_state`, in order. */
    var updates: seq<Update>

    constructor ()
      ensures updates == []
    {
      updates := [];
    }

    method UpdateState(state: string, excType: string, excMessage: string)
      modifies this
      ensures updates == old(updates) + [Update(state, excType, excMessage)]
    {
      updates := updates + [Update(state, excType, excMessage)];
    }

    /** `process_document_analysis`: returns the Celery task's result and the
        ABBYY requests sent. */
    method ProcessDocumentAnalysis(call: Views.TaskCall, config: Json, w: World)
      returns (r: Result<Json>, sent: seq<AbbyyProvider.Call>)
      modifies this
      ensures var run := Process(call, config, w);
              r == run.result && sent == run.calls && updates == old(updates) + run.updates
    {
      var docType := Lookup(config, "document_types", JStr(call.docTypeId));
      var model := Lookup(config, "ai_models", JStr(call.modelId));
      if docType.Raised? {
        return Raised(docType.exc), [];
      }
      if model.Raised? {
        return Raised(model.exc), [];
      }
      if !Truthy(docType.value) || !Truthy(model.value) {
        return Raised(Error("ValueError", InvalidIdsMessage)), [];
      }
      var content := w.decode(call.contentB64);
      if content.Raised? {
        return Raised(content.exc), [];
      }
      assert Process(call, config, w) == Analysis(call, config, docType.value, model.value, w);
      r, sent := Analyse(call, config, docType.value, model.value, w);
    }

    /** The two `try` blocks. */
    method Analyse(call: Views.TaskCall, config: Json, docType: Json, model: Json, w: World)
      returns (r: Result<Json>, sent: seq<AbbyyProvider.Call>)
      modifies this
      ensures var run := Analysis(call, config, docType, model, w);
              r == run.result && sent == run.calls && updates == old(updates) + run.updates
    {
      var extracted;
      extracted, sent := RunAbbyy(config, docType, w);
      ghost var stage := AbbyyStage(config, docType, w);
      assert extracted == stage.result && sent == stage.calls;
      if extracted.Raised? {
        UpdateState(FailureState, extracted.exc.name, extracted.exc.message);
        return Raised(extracted.exc), sent;
      }
      r := LlmStage(config, docType, model, call.modelId, call.ragText, extracted.value, w);
      if r.Raised? {
        UpdateState(FailureState, r.exc.name, LlmFailureText(r.exc));
      }
    }
  }

  /** The ABBYY stage as the Celery task runs it: a fresh provider, its steps in
      order, then the parser. */
  method RunAbbyy(config: Json, docType: Json, w: World) returns (r: Result<AbbyyParser.Clean>, sent: seq<AbbyyProvider.Call>)
    ensures Stage(r, sent) == AbbyyStage(config, docType, w)
  {
    var settings := AbbyyProvider.Settings(config);
    if settings.Raised? {
      return Raised(settings.exc), [];
    }
    var (abbyy, secret) := settings.value;
    var provider := new AbbyyProvider.Provider(abbyy, secret, w.dictRepr);
    r := RunToken(provider, docType, w);
    sent := provider.calls;
  }

  /** The steps from the access token on, on `provider`. */
  method RunToken(provider: AbbyyProvider.Provider, docType: Json, w: World) returns (r: Result<AbbyyParser.Clean>)
    requires provider.dictRepr == w.dictRepr
    modifies provider
    ensures var s := TokenStep(provider.config, provider.secretConfig, docType, w);
            r == s.result && provider.calls == old(provider.calls) + s.calls
  {
    var token := provider.GetAccessToken(w.secrets, w.auth);
    if token.Raised? {
      return Raised(token.exc);
    }
    var skill := Key(docType, "abbyy_skill_id");
    if skill.Raised? {
      return Raised(skill.exc);
    }
    ghost var mid := provider.calls;
    r := RunCreate(provider, w);
    Regroup(old(provider.calls), mid, provider.calls);
  }

  /** The steps from the transaction's creation on. */
  method RunCreate(provider: AbbyyProvider.Provider, w: World) returns (r: Result<AbbyyParser.Clean>)
    requires provider.dictRepr == w.dictRepr
    modifies provider
    ensures var s := CreateStep(provider.config, w);
            r == s.result && provider.calls == old(provider.calls) + s.calls
  {
    var id := provider.CreateTransactionCall(w.create);
    if id.Raised? {
      return Raised(id.exc);
    }
    ghost var mid := provider.calls;
    r := RunUpload(provider, id.value, w);
    Regroup(old(provider.calls), mid, provider.calls);
  }

  /** The steps from the upload on. */
  method RunUpload(provider: AbbyyProvider.Provider, id: Json, w: World) returns (r: Result<AbbyyParser.Clean>)
    requires provider.dictRepr == w.dictRepr
    modifies provider
    ensures var s := UploadStep(provider.config, id, w);
            r == s.result && provider.calls == old(provider.calls) + s.calls
  {
    var added := provider.AddFileToTransaction(id, w.upload);
    if added.Raised? {
      return Raised(added.exc);
    }
    ghost var mid := provider.calls;
    r := RunStart(provider, id, w);
    Regroup(old(provider.calls), mid, provider.calls);
  }

  /** The steps from the start of the transaction on. */
  method RunStart(provider: AbbyyProvider.Provider, id: Json, w: World) returns (r: Result<AbbyyParser.Clean>)
    requires provider.dictRepr == w.dictRepr
    modifies provider
    ensures var s := StartStep(provider.config, id, w);
            r == s.result && provider.calls == old(provider.calls) + s.calls
  {
    var started := provider.StartTransaction(id, w.start);
    if started.Raised? {
      return Raised(started.exc);
    }
    ghost var mid := provider.calls;
    var raw := provider.PollAndGetResult(id, w.status, w.download);
    Regroup(old(provider.calls), mid, provider.calls);
    if raw.Raised? {
      return Raised(raw.exc);
    }
    r := AbbyyParser.ParseAbbyyResponse(raw.value);
  }

  /** A log that grew twice is the first log followed by both additions. */
  lemma Regroup(first: seq<AbbyyProvider.Call>, mid: seq<AbbyyProvider.Call>, last: seq<AbbyyProvider.Call>)
    requires |first| <= |mid| <= |last| && mid[..|first|] == first && last[..|mid|] == mid
    ensures last == first + (mid[|first|..] + last[|mid|..])
  {
    assert last == mid + last[|mid|..];
    assert mid == first + mid[|first|..];
  }

  // ---------------------------------------------------------------------
  // Properties

  /** An unknown document type or model is refused before the file is
      decoded and before any ABBYY request, and no state is recorded. */
  lemma InvalidIdsFirst(call: Views.TaskCall, config: Json, w: World)
    requires Lookup(config, "document_types", JStr(call.docTypeId)).Ok?
    requires Lookup(config, "ai_models", JStr(call.modelId)).Ok?
    requires Lookup(config, "document_types", JStr(call.docTypeId)).value == JNull
             || Lookup(config, "ai_models", JStr(call.modelId)).value == JNull
    ensures Process(call, config, w) == Run(Raised(Error("ValueError", InvalidIdsMessage)), [], [])
  {
  }

  /** Found entries, a decodable file: the stages that follow. */
  predicate Admitted(call: Views.TaskCall, config: Json, w: World) {
    var docType := Lookup(config, "document_types", JStr(call.docTypeId));
    var model := Lookup(config, "ai_models", JStr(call.modelId));
    && docType.Ok? && model.Ok? && Truthy(docType.value) && Truthy(model.value)
    && w.decode(call.contentB64).Ok?
  }

  /** A file that is not valid base64 fails outside both `try` blocks: the
      exception escapes and no FAILURE state is recorded by the Celery task. */
  lemma DecodeFailureNotRecorded(call: Views.TaskCall, config: Json, w: World)
    requires var docType := Lookup(config, "document_types", JStr(call.docTypeId));
             var model := Lookup(config, "ai_models", JStr(call.modelId));
             docType.Ok? && model.Ok? && Truthy(docType.value) && Truthy(model.value)
    requires w.decode(call.contentB64).Raised?
    ensures Process(call, config, w) == Run(Raised(w.decode(call.contentB64).exc), [], [])
  {
  }

  /** An ABBYY-stage failure records FAILURE with the exception's type and
      text, then re-raises the same exception. */
  lemma AbbyyFailureRecorded(call: Views.TaskCall, config: Json, w: World)
    requires Admitted(call, config, w)
    requires AbbyyStage(config, Lookup(config, "document_types", JStr(call.docTypeId)).value, w).result.Raised?
    ensures var stage := AbbyyStage(config, Lookup(config, "document_types", JStr(call.docTypeId)).value, w);
            var e := stage.result.exc;
            Process(call, config, w) == Run(Raised(e), [Update(FailureState, e.name, e.message)], stage.calls)
  {
  }

  /** Missing ABBYY credentials fail the Celery task before any ABBYY request. */
  lemma MissingCredentialsRecorded(call: Views.TaskCall, config: Json, w: World)
    requires Admitted(call, config, w)
    requires AbbyyProvider.Settings(config).Ok?
    requires var (abbyy, secret) := AbbyyProvider.Settings(config).value;
             AbbyyProvider.AccessToken(abbyy, secret, w.secrets, w.auth, w.dictRepr)
             == AbbyyProvider.Outcome(Raised(Error("ValueError", AbbyyProvider.MissingCredentialsMessage)), [])
    ensures Process(call, config, w)
            == Run(Raised(Error("ValueError", AbbyyProvider.MissingCredentialsMessage)),
                   [Update(FailureState, "ValueError", AbbyyProvider.MissingCredentialsMessage)], [])
  {
  }

  /** Once the extraction succeeds, the Celery task's result is the LLM stage's:
      the analysis is returned unchanged, and a failure records FAILURE
      with the exception's type and its text, extended by the HTTP
      response text when the exception carries one. */
  lemma LlmStageRecorded(call: Views.TaskCall, config: Json, w: World)
    requires Admitted(call, config, w)
    requires AbbyyStage(config, Lookup(config, "document_types", JStr(call.docTypeId)).value, w).result.Ok?
    ensures var docType := Lookup(config, "document_types", JStr(call.docTypeId)).value;
            var model := Lookup(config, "ai_models", JStr(call.modelId)).value;
            var stage := AbbyyStage(config, docType, w);
            var llm := LlmStage(config, docType, model, call.modelId, call.ragText, stage.result.value, w);
            Process(call, config, w)
            == Run(llm, if llm.Raised? then [Update(FailureState, llm.exc.name, LlmFailureText(llm.exc))] else [],
                   stage.calls)
  {
  }

  /** An ABBYY result the parser cannot read is not a failure of the
      stage: the parser's error dict goes on as the extracted data. */
  lemma UnreadableResultStillAnalysed(abbyy: Json, id: Json, w: World)
    requires AbbyyProvider.Poll(abbyy, id, w.status, w.download, w.dictRepr).result.Ok?
    requires var raw := AbbyyProvider.Poll(abbyy, id, w.status, w.download, w.dictRepr).result.value;
             AbbyyParser.Extracted(raw).Raised? && AbbyyParser.Caught(AbbyyParser.Extracted(raw).exc)
    ensures PollStep(abbyy, id, w).result == Ok(AbbyyParser.ErrorDict())
  {
  }

  /** Counting over a concatenation. */
  lemma {:induction false} CountConcat(a: seq<AbbyyProvider.Call>, b: seq<AbbyyProvider.Call>, c: AbbyyProvider.Call)
    ensures AbbyyProvider.Count(a + b, c) == AbbyyProvider.Count(a, c) + AbbyyProvider.Count(b, c)
    decreases |a|
  {
    if a == [] {
      assert a + b == b;
    } else {
      assert (a + b)[1..] == a[1..] + b;
      CountConcat(a[1..], b, c);
    }
  }

  /** A request that is not in the log is counted zero times. */
  lemma {:induction false} CountAbsent(a: seq<AbbyyProvider.Call>, c: AbbyyProvider.Call)
    requires c !in a
    ensures AbbyyProvider.Count(a, c) == 0
    decreases |a|
  {
    if a != [] {
      assert c !in a[1..];
      CountAbsent(a[1..], c);
    }
  }

  /** From the upload on, the status of the transaction is queried at most
      thirty times: the upload and the start are POSTs. */
  lemma StatusQueriesBounded(abbyy: Json, id: Json, w: World)
    requires AbbyyProvider.TransactionUrl(abbyy, id, w.dictRepr).Ok?
    ensures AbbyyProvider.Count(UploadStep(abbyy, id, w).calls,
                                AbbyyProvider.Call(AbbyyProvider.HttpGet, AbbyyProvider.TransactionUrl(abbyy, id, w.dictRepr).value))
            <= AbbyyProvider.MaxPolls
  {
    var query := AbbyyProvider.Call(AbbyyProvider.HttpGet, AbbyyProvider.TransactionUrl(abbyy, id, w.dictRepr).value);
    var added := AbbyyProvider.Send(AbbyyProvider.HttpPost, AbbyyProvider.FilesUrl(abbyy, id, w.dictRepr), w.upload);
    var started := AbbyyProvider.Send(AbbyyProvider.HttpPost, AbbyyProvider.StartUrl(abbyy, id, w.dictRepr), w.start);
    var polled := PollStep(abbyy, id, w);
    CountAbsent(added.calls, query);
    CountAbsent(started.calls, query);
    AbbyyProvider.PollBounded(abbyy, id, w.status, w.download, w.dictRepr);
    if added.result.Ok? && started.result.Ok? {
      CountConcat(started.calls, polled.calls, query);
      CountConcat(added.calls, started.calls + polled.calls, query);
    } else if added.result.Ok? {
      CountConcat(added.calls, started.calls, query);
    }
  }
}
