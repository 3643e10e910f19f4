/** `AbbyyProvider` (api/abbyy_provider.py): the client of the ABBYY Vantage
    transaction API. Each step sends one HTTP request; the provider is a
    class that logs the requests it sends, and the replies are inputs: a
    reply is the decoded JSON body or the exception raised for it (an HTTP
    error status, a connection error, a body that is not JSON). Vault reads
    are an oracle; the 5-second pause between status queries is left out. */
module AbbyyProvider {
  import opened Json
  import opened Py

  const MaxPolls: nat := 30
  const MissingCredentialsMessage: string :=
    "ABBYY Client ID or Secret could not be loaded from Vault. Check config.yaml and Vault secrets."
  const FailedStatusPrefix: string := "ABBYY processing failed with status: "
  const TimedOutMessage: string := "ABBYY processing timed out."
  const Processed: string := "Processed"

  /** The statuses that end polling with an error. */
  predicate FailedStatus(status: Json) {
    status.JStr? && (status.s == "Error" || status.s == "Cancelled" || status.s == "ProcessingFailed")
  }

  datatype Verb = HttpPost | HttpGet

  /** One HTTP request sent. */
  datatype Call = Call(verb: Verb, url: string)

  /** A result together with the requests sent to reach it. */
  datatype Outcome = Outcome(result: Result<Json>, calls: seq<Call>)

  type DictRepr = map<string, Json> -> string

  /** Vault's `get_secret(path, key, mount_point)`: the secret, None when it
      is missing, or the exception the read raised. */
  type Secrets = (Json, Json, Json) -> Result<Json>

  /** `__init__`: the endpoint settings and the secret settings of ABBYY. */
  function Settings(config: Json): Result<(Json, Json)> {
    match Key(config, "api_endpoints")
    case Raised(e) => Raised(e)
    case Ok(endpoints) =>
      match Key(endpoints, "abbyy")
      case Raised(e) => Raised(e)
      case Ok(abbyy) =>
        match Key(config, "providers")
        case Raised(e) => Raised(e)
        case Ok(providers) =>
          match Key(providers, "abbyy")
          case Raised(e) => Raised(e)
          case Ok(secret) => Ok((abbyy, secret))
  }

  // ---------------------------------------------------------------------
  // URLs

  /** `{config[key]}` in an f-string. */
  function Setting(config: Json, key: string, dictRepr: DictRepr): Result<string> {
    match Key(config, key)
    case Raised(e) => Raised(e)
    case Ok(v) => Ok(Str(v, dictRepr))
  }

  function Joined(a: Result<string>, b: Result<string>): Result<string> {
    if a.Raised? then a else if b.Raised? then b else Ok(a.value + b.value)
  }

  function Then(a: Result<string>, suffix: string): Result<string> {
    if a.Raised? then a else Ok(a.value + suffix)
  }

  function AuthUrl(config: Json, dictRepr: DictRepr): Result<string> {
    Joined(Setting(config, "base_url", dictRepr), Setting(config, "auth_endpoint", dictRepr))
  }

  function TransactionsUrl(config: Json, dictRepr: DictRepr): Result<string> {
    Joined(Setting(config, "base_url", dictRepr), Setting(config, "transactions_endpoint", dictRepr))
  }

  /** The status URL of a transaction; the other transaction URLs extend it. */
  function TransactionUrl(config: Json, id: Json, dictRepr: DictRepr): Result<string> {
    Then(TransactionsUrl(config, dictRepr), "/" + Str(id, dictRepr))
  }

  function FilesUrl(config: Json, id: Json, dictRepr: DictRepr): Result<string> {
    Then(TransactionUrl(config, id, dictRepr), "/files")
  }

  function StartUrl(config: Json, id: Json, dictRepr: DictRepr): Result<string> {
    Then(TransactionUrl(config, id, dictRepr), "/start")
  }

  function DownloadUrl(config: Json, id: Json, fileId: Json, dictRepr: DictRepr): Result<string> {
    Then(TransactionUrl(config, id, dictRepr), "/files/" + Str(fileId, dictRepr) + "/download")
  }

  // ---------------------------------------------------------------------
  // What each step does

  function Field(r: Result<Json>, key: string): Result<Json> {
    match r
    case Raised(e) => Raised(e)
    case Ok(v) => Key(v, key)
  }

  /** `get_access_token`: reads the client id and secret from Vault, refuses
      to go on without both, then asks the auth endpoint for a token. */
  function AccessToken(config: Json, secretConfig: Json, secrets: Secrets, reply: Result<Json>,
                       dictRepr: DictRepr): Outcome
  {
    var mount := Key(secretConfig, "vault_mount_point");
    var path := Key(secretConfig, "vault_secret_path");
    var idKey := Key(secretConfig, "client_id_vault_key");
    var secretKey := Key(secretConfig, "client_secret_vault_key");
    if mount.Raised? then Outcome(mount, [])
    else if path.Raised? then Outcome(path, [])
    else if idKey.Raised? then Outcome(idKey, [])
    else
      var clientId := secrets(path.value, idKey.value, mount.value);
      if clientId.Raised? then Outcome(clientId, [])
      else if secretKey.Raised? then Outcome(secretKey, [])
      else
        var clientSecret := secrets(path.value, secretKey.value, mount.value);
        if clientSecret.Raised? then Outcome(clientSecret, [])
        else if !Truthy(clientId.value) || !Truthy(clientSecret.value) then
          Outcome(Raised(Error("ValueError", MissingCredentialsMessage)), [])
        else
          var url := AuthUrl(config, dictRepr);
          if url.Raised? then Outcome(Raised(url.exc), [])
          else Outcome(Field(reply, "access_token"), [Call(HttpPost, url.value)])
  }

  /** `create_transaction`: the new transaction's id. */
  function CreateTransaction(config: Json, reply: Result<Json>, dictRepr: DictRepr): Outcome {
    var url := TransactionsUrl(config, dictRepr);
    if url.Raised? then Outcome(Raised(url.exc), [])
    else Outcome(Field(reply, "transactionId"), [Call(HttpPost, url.value)])
  }

  /** A request whose reply only has its status checked. */
  function Send(verb: Verb, url: Result<string>, reply: Result<Json>): Outcome {
    if url.Raised? then Outcome(Raised(url.exc), [])
    else Outcome(if reply.Raised? then reply else Ok(JNull), [Call(verb, url.value)])
  }

  /** `data['documents'][0]['resultFiles'][0]['fileId']`. */
  function FileIdOf(data: Json): Result<Json> {
    var first := match Field(Ok(data), "documents")
      case Raised(e) => Raised(e)
      case Ok(docs) =>
        match First(docs)
        case Raised(e) => Raised(e)
        case Ok(doc) =>
          match Key(doc, "resultFiles")
          case Raised(e) => Raised(e)
          case Ok(files) => First(files);
    Field(first, "fileId")
  }

  /** A status reply that lets polling go on: a dict whose status is neither
      "Processed" nor a failure. */
  predicate Pending(reply: Result<Json>) {
    && reply.Ok? && reply.value.JObj?
    && var status := Get(reply.value, "status", JNull).value;
       status != JStr(Processed) && !FailedStatus(status)
  }

  /** What one status reply settles: `None` to go on polling, or the
      result with the requests sent after the status query. */
  function Settle(config: Json, id: Json, reply: Result<Json>, download: string -> Result<Json>,
                  dictRepr: DictRepr): (r: Option<Outcome>)
    ensures r.None? <==> Pending(reply)
  {
    if reply.Raised? then Some(Outcome(reply, []))
    else
      var status := Get(reply.value, "status", JNull);
      if status.Raised? then Some(Outcome(Raised(status.exc), []))
      else if status.value == JStr(Processed) then
        var fileId := FileIdOf(reply.value);
        if fileId.Raised? then Some(Outcome(fileId, []))
        else
          var url := DownloadUrl(config, id, fileId.value, dictRepr);
          if url.Raised? then Some(Outcome(Raised(url.exc), []))
          else Some(Outcome(download(url.value), [Call(HttpGet, url.value)]))
      else if FailedStatus(status.value) then
        Some(Outcome(Raised(Error("Exception", FailedStatusPrefix + Str(status.value, dictRepr))), []))
      else None
  }

  /** The status loop from attempt `attempt` on, for any way `settle` of
      deciding what the reply to the i-th status query settles. */
  function Rounds(url: string, settle: nat -> Option<Outcome>, attempt: nat): Outcome
    requires attempt <= MaxPolls
    decreases MaxPolls - attempt
  {
    if attempt == MaxPolls then Outcome(Raised(Error("Exception", TimedOutMessage)), [])
    else
      var query := Call(HttpGet, url);
      match settle(attempt)
      case Some(o) => Outcome(o.result, [query] + o.calls)
      case None =>
        var rest := Rounds(url, settle, attempt + 1);
        Outcome(rest.result, [query] + rest.calls)
  }

  /** How the provider settles the reply to each status query: `replies(i)`
      answers the i-th query, `download(url)` the download request. */
  function Settlements(config: Json, id: Json, replies: nat -> Result<Json>, download: string -> Result<Json>,
                       dictRepr: DictRepr): nat -> Option<Outcome>
  {
    (i: nat) => Settle(config, id, replies(i), download, dictRepr)
  }

  /** `poll_and_get_result`. */
  function Poll(config: Json, id: Json, replies: nat -> Result<Json>, download: string -> Result<Json>,
                dictRepr: DictRepr): Outcome
  {
    var url := TransactionUrl(config, id, dictRepr);
    if url.Raised? then Outcome(Raised(url.exc), [])
    else Rounds(url.value, Settlements(config, id, replies, download, dictRepr), 0)
  }

  // ---------------------------------------------------------------------
  // The provider

  class Provider {
    /** `config['api_endpoints']['abbyy']` and `config['providers']['abbyy']`. */
    const config: Json
    const secretConfig: Json
    const dictRepr: DictRepr
    /** The HTTP requests sent so far, in order. */
    var calls: seq<Call>

    constructor (config: Json, secretConfig: Json, dictRepr: DictRepr)
      ensures this.config == config && this.secretConfig == secretConfig && this.dictRepr == dictRepr
      ensures calls == []
    {
      this.config, this.secretConfig, this.dictRepr := config, secretConfig, dictRepr;
      calls := [];
    }

    method GetAccessToken(secrets: Secrets, reply: Result<Json>) returns (r: Result<Json>)
      modifies this
      ensures var o := AccessToken(config, secretConfig, secrets, reply, dictRepr);
              r == o.result && calls == old(calls) + o.calls
    {
      var mount := Key(secretConfig, "vault_mount_point");
      if mount.Raised? {
        return mount;
      }
      var path := Key(secretConfig, "vault_secret_path");
      if path.Raised? {
        return path;
      }
      var idKey := Key(secretConfig, "client_id_vault_key");
      if idKey.Raised? {
        return idKey;
      }
      var clientId := secrets(path.value, idKey.value, mount.value);
      if clientId.Raised? {
        return clientId;
      }
      var secretKey := Key(secretConfig, "client_secret_vault_key");
      if secretKey.Raised? {
        return secretKey;
      }
      var clientSecret := secrets(path.value, secretKey.value, mount.value);
      if clientSecret.Raised? {
        return clientSecret;
      }
      if !Truthy(clientId.value) || !Truthy(clientSecret.value) {
        return Raised(Error("ValueError", MissingCredentialsMessage));
      }
      var url := AuthUrl(config, dictRepr);
      if url.Raised? {
        return Raised(url.exc);
      }
      calls := calls + [Call(HttpPost, url.value)];
      r := Field(reply, "access_token");
    }

    method CreateTransactionCall(reply: Result<Json>) returns (r: Result<Json>)
      modifies this
      ensures var o := CreateTransaction(config, reply, dictRepr);
              r == o.result && calls == old(calls) + o.calls
    {
      var url := TransactionsUrl(config, dictRepr);
      if url.Raised? {
        return Raised(url.exc);
      }
      calls := calls + [Call(HttpPost, url.value)];
      r := Field(reply, "transactionId");
    }

    /** `add_file_to_transaction`: the upload itself is not modelled. */
    method AddFileToTransaction(id: Json, reply: Result<Json>) returns (r: Result<Json>)
      modifies this
      ensures var o := Send(HttpPost, FilesUrl(config, id, dictRepr), reply);
              r == o.result && calls == old(calls) + o.calls
    {
      var url := FilesUrl(config, id, dictRepr);
      if url.Raised? {
        return Raised(url.exc);
      }
      calls := calls + [Call(HttpPost, url.value)];
      r := if reply.Raised? then reply else Ok(JNull);
    }

    method StartTransaction(id: Json, reply: Result<Json>) returns (r: Result<Json>)
      modifies this
      ensures var o := Send(HttpPost, StartUrl(config, id, dictRepr), reply);
              r == o.result && calls == old(calls) + o.calls
    {
      var url := StartUrl(config, id, dictRepr);
      if url.Raised? {
        return Raised(url.exc);
      }
      calls := calls + [Call(HttpPost, url.value)];
      r := if reply.Raised? then reply else Ok(JNull);
    }

    /** The body of the status loop after the query: what the reply
        settles, downloading the result when it says "Processed". */
    method CheckStatus(id: Json, reply: Result<Json>, download: string -> Result<Json>) returns (r: Option<Outcome>)
      modifies this
      ensures r == Settle(config, id, reply, download, dictRepr)
      ensures calls == old(calls) + (if r.Some? then r.value.calls else [])
    {
      if reply.Raised? {
        return Some(Outcome(reply, []));
      }
      var status := Get(reply.value, "status", JNull);
      if status.Raised? {
        return Some(Outcome(Raised(status.exc), []));
      }
      if status.value == JStr(Processed) {
        var fileId := FileIdOf(reply.value);
        if fileId.Raised? {
          return Some(Outcome(fileId, []));
        }
        var url := DownloadUrl(config, id, fileId.value, dictRepr);
        if url.Raised? {
          return Some(Outcome(Raised(url.exc), []));
        }
        calls := calls + [Call(HttpGet, url.value)];
        return Some(Outcome(download(url.value), [Call(HttpGet, url.value)]));
      } else if FailedStatus(status.value) {
        return Some(Outcome(Raised(Error("Exception", FailedStatusPrefix + Str(status.value, dictRepr))), []));
      }
      return None;
    }

    /** `poll_and_get_result`: the status URL, then the bounded loop. */
    method PollAndGetResult(id: Json, replies: nat -> Result<Json>, download: string -> Result<Json>)
      returns (r: Result<Json>)
      modifies this
      ensures var o := Poll(config, id, replies, download, dictRepr);
              r == o.result && calls == old(calls) + o.calls
    {
      var statusUrl := TransactionUrl(config, id, dictRepr);
      if statusUrl.Raised? {
        return Raised(statusUrl.exc);
      }
      r := PollLoop(id, statusUrl.value, replies, download, Settlements(config, id, replies, download, dictRepr));
    }

    /** One round of the loop: the status query, then the check of its
        reply. */
    method Round(id: Json, url: string, replies: nat -> Result<Json>, download: string -> Result<Json>,
                 ghost settle: nat -> Option<Outcome>, attempt: nat)
      returns (settled: Option<Outcome>)
      requires forall i: nat {:trigger replies(i)} :: settle(i) == Settle(config, id, replies(i), download, dictRepr)
      modifies this
      ensures settled == settle(attempt)
      ensures settled.None? ==> calls == old(calls) + [Call(HttpGet, url)]
      ensures settled.Some? ==> calls == old(calls) + [Call(HttpGet, url)] + settled.value.calls
    {
      calls := calls + [Call(HttpGet, url)];
      settled := CheckStatus(id, replies(attempt), download);
    }

    /** At most thirty status queries, each followed by the check of its
        reply. */
    method PollLoop(id: Json, url: string, replies: nat -> Result<Json>, download: string -> Result<Json>,
                    ghost settle: nat -> Option<Outcome>)
      returns (r: Result<Json>)
      requires forall i: nat {:trigger replies(i)} :: settle(i) == Settle(config, id, replies(i), download, dictRepr)
      modifies this
      ensures var o := Rounds(url, settle, 0);
              r == o.result && calls == old(calls) + o.calls
    {
      ghost var whole := Rounds(url, settle, 0);
      ghost var sent: seq<Call> := [];
      var attempt := 0;
      while attempt < MaxPolls
        invariant 0 <= attempt <= MaxPolls
        invariant whole.result == Rounds(url, settle, attempt).result
        invariant whole.calls == sent + Rounds(url, settle, attempt).calls
        invariant calls == old(calls) + sent
      {
        var query := Call(HttpGet, url);
        var settled := Round(id, url, replies, download, settle, attempt);
        RoundsStep(url, settle, attempt);
        if settled.Some? {
          Regroup(old(calls), sent, [query], settled.value.calls);
          return settled.value.result;
        }
        Regroup(old(calls), sent, [query], Rounds(url, settle, attempt + 1).calls);
        sent := sent + [query];
        attempt := attempt + 1;
      }
      assert sent + [] == sent;
      r := Raised(Error("Exception", TimedOutMessage));
    }
  }

  // ---------------------------------------------------------------------
  // Properties

  /** `n` status queries to `url`. */
  function Queries(url: string, n: nat): (r: seq<Call>)
    ensures |r| == n && forall i :: 0 <= i < n ==> r[i] == Call(HttpGet, url)
  {
    seq(n, _ => Call(HttpGet, url))
  }

  /** The URLs of one transaction: the status URL, then the status URL
      followed by "/files", "/start" and "/files/<fileId>/download"; no two
      are the same. */
  lemma TransactionUrls(config: Json, id: Json, fileId: Json, dictRepr: DictRepr)
    requires TransactionsUrl(config, dictRepr).Ok?
    ensures TransactionUrl(config, id, dictRepr) == Ok(TransactionsUrl(config, dictRepr).value + "/" + Str(id, dictRepr))
    ensures var status := TransactionUrl(config, id, dictRepr).value;
            && FilesUrl(config, id, dictRepr) == Ok(status + "/files")
            && StartUrl(config, id, dictRepr) == Ok(status + "/start")
            && DownloadUrl(config, id, fileId, dictRepr) == Ok(status + "/files/" + Str(fileId, dictRepr) + "/download")
    ensures var status := TransactionUrl(config, id, dictRepr).value;
            var files := FilesUrl(config, id, dictRepr).value;
            var start := StartUrl(config, id, dictRepr).value;
            var down := DownloadUrl(config, id, fileId, dictRepr).value;
            && |status| < |files| && |status| < |start| && |status| < |down|
            && files != start && start != down && files != down
  {
    var prefix := TransactionsUrl(config, dictRepr).value;
    assert prefix + ("/" + Str(id, dictRepr)) == prefix + "/" + Str(id, dictRepr);
    var status := TransactionUrl(config, id, dictRepr).value;
    assert status + ("/files/" + Str(fileId, dictRepr) + "/download") == status + "/files/" + Str(fileId, dictRepr) + "/download";
    var files, start := status + "/files", status + "/start";
    var down := status + "/files/" + Str(fileId, dictRepr) + "/download";
    assert files[|status| + 1] == 'f' && start[|status| + 1] == 's';
    assert down[|status| + 1] == 'f';
    assert |down| > |files| by {
      assert |down| == |status| + 7 + |Str(fileId, dictRepr)| + 9;
    }
  }

  lemma RoundsStep(url: string, settle: nat -> Option<Outcome>, attempt: nat)
    requires attempt < MaxPolls
    ensures settle(attempt).Some? ==>
              Rounds(url, settle, attempt) == Outcome(settle(attempt).value.result, [Call(HttpGet, url)] + settle(attempt).value.calls)
    ensures settle(attempt).None? ==>
              Rounds(url, settle, attempt) == Outcome(Rounds(url, settle, attempt + 1).result, [Call(HttpGet, url)] + Rounds(url, settle, attempt + 1).calls)
  {
  }

  /** Sequence regrouping used by the status loop. */
  lemma Regroup(a: seq<Call>, b: seq<Call>, c: seq<Call>, d: seq<Call>)
    ensures a + b + c + d == a + (b + (c + d))
    ensures a + b + c == a + (b + c)
    ensures b + (c + d) == (b + c) + d
  {
  }

  /** Rounds that settle nothing are skipped over: one status query each. */
  lemma {:induction false} SkipPending(url: string, settle: nat -> Option<Outcome>, from: nat, to: nat)
    requires from <= to <= MaxPolls
    requires forall i :: from <= i < to ==> settle(i).None?
    ensures Rounds(url, settle, from).result == Rounds(url, settle, to).result
    ensures Rounds(url, settle, from).calls == Queries(url, to - from) + Rounds(url, settle, to).calls
    decreases MaxPolls - from
  {
    if from < to {
      SkipPending(url, settle, from + 1, to);
      var p := Rounds(url, settle, to);
      assert [Call(HttpGet, url)] + (Queries(url, to - from - 1) + p.calls) == Queries(url, to - from) + p.calls;
    }
  }

  /** The first round that settles decides the result, after one status
      query per round. */
  lemma SettledAt(url: string, settle: nat -> Option<Outcome>, k: nat)
    requires k < MaxPolls && settle(k).Some?
    requires forall i :: 0 <= i < k ==> settle(i).None?
    ensures Rounds(url, settle, 0) == Outcome(settle(k).value.result, Queries(url, k + 1) + settle(k).value.calls)
  {
    SkipPending(url, settle, 0, k);
    assert Queries(url, k) + ([Call(HttpGet, url)] + settle(k).value.calls) == Queries(url, k + 1) + settle(k).value.calls;
  }

  /** Thirty pending replies end in "ABBYY processing timed out." after
      exactly thirty status queries. */
  lemma TimesOut(config: Json, id: Json, url: string, replies: nat -> Result<Json>,
                 download: string -> Result<Json>, dictRepr: DictRepr)
    requires forall i :: 0 <= i < MaxPolls ==> Pending(replies(i))
    ensures var o := Rounds(url, Settlements(config, id, replies, download, dictRepr), 0);
            o.result == Raised(Error("Exception", TimedOutMessage)) && o.calls == Queries(url, MaxPolls)
  {
    var settle := Settlements(config, id, replies, download, dictRepr);
    assert forall i :: 0 <= i < MaxPolls ==> settle(i) == Settle(config, id, replies(i), download, dictRepr);
    SkipPending(url, settle, 0, MaxPolls);
    assert Queries(url, MaxPolls) + [] == Queries(url, MaxPolls);
  }

  /** What a "Processed" reply settles: the download of the file named by
      the first result file of the first document. */
  lemma SettleProcessed(config: Json, id: Json, reply: Result<Json>, download: string -> Result<Json>, dictRepr: DictRepr)
    requires reply.Ok? && reply.value.JObj? && Get(reply.value, "status", JNull).value == JStr(Processed)
    requires FileIdOf(reply.value).Ok? && TransactionsUrl(config, dictRepr).Ok?
    ensures var down := DownloadUrl(config, id, FileIdOf(reply.value).value, dictRepr);
            && down.Ok?
            && Settle(config, id, reply, download, dictRepr) == Some(Outcome(download(down.value), [Call(HttpGet, down.value)]))
  {
    TransactionUrls(config, id, FileIdOf(reply.value).value, dictRepr);
  }

  /** "Processed" after `k` pending replies downloads the file named by the
      first result file of the first document, and returns its JSON. */
  lemma ProcessedDownloads(config: Json, id: Json, url: string, replies: nat -> Result<Json>,
                           download: string -> Result<Json>, dictRepr: DictRepr, k: nat)
    requires k < MaxPolls && forall i :: 0 <= i < k ==> Pending(replies(i))
    requires replies(k).Ok? && replies(k).value.JObj? && Get(replies(k).value, "status", JNull).value == JStr(Processed)
    requires FileIdOf(replies(k).value).Ok? && TransactionsUrl(config, dictRepr).Ok?
    ensures var fileId := FileIdOf(replies(k).value).value;
            var down := DownloadUrl(config, id, fileId, dictRepr);
            var o := Rounds(url, Settlements(config, id, replies, download, dictRepr), 0);
            && down.Ok?
            && o.result == download(down.value)
            && o.calls == Queries(url, k + 1) + [Call(HttpGet, down.value)]
  {
    var settle := Settlements(config, id, replies, download, dictRepr);
    assert forall i :: 0 <= i <= k ==> settle(i) == Settle(config, id, replies(i), download, dictRepr);
    SettleProcessed(config, id, replies(k), download, dictRepr);
    SettledAt(url, settle, k);
  }

  /** A failure status after `k` pending replies raises at once, naming the
      status, after `k + 1` queries. */
  lemma FailedStatusRaises(config: Json, id: Json, url: string, replies: nat -> Result<Json>,
                           download: string -> Result<Json>, dictRepr: DictRepr, k: nat)
    requires k < MaxPolls && forall i :: 0 <= i < k ==> Pending(replies(i))
    requires replies(k).Ok? && replies(k).value.JObj? && FailedStatus(Get(replies(k).value, "status", JNull).value)
    ensures var o := Rounds(url, Settlements(config, id, replies, download, dictRepr), 0);
            && o.result == Raised(Error("Exception", FailedStatusPrefix + Get(replies(k).value, "status", JNull).value.s))
            && o.calls == Queries(url, k + 1)
  {
    var settle := Settlements(config, id, replies, download, dictRepr);
    assert forall i :: 0 <= i <= k ==> settle(i) == Settle(config, id, replies(i), download, dictRepr);
    SettledAt(url, settle, k);
    assert Queries(url, k + 1) + [] == Queries(url, k + 1);
  }

  /** How many times `c` occurs in `calls`. */
  function Count(calls: seq<Call>, c: Call): nat {
    if calls == [] then 0 else (if calls[0] == c then 1 else 0) + Count(calls[1..], c)
  }

  /** When no settled round re-sends the status query and each sends at
      most one more request, at most thirty status queries are sent and
      every request but the last is a status query. */
  lemma {:induction false} AtMostThirtyQueries(url: string, settle: nat -> Option<Outcome>, attempt: nat)
    requires attempt <= MaxPolls
    requires forall i: nat :: settle(i).Some? ==> |settle(i).value.calls| <= 1 && Call(HttpGet, url) !in settle(i).value.calls
    ensures var o := Rounds(url, settle, attempt);
            && Count(o.calls, Call(HttpGet, url)) <= MaxPolls - attempt
            && forall i :: 0 <= i < |o.calls| - 1 ==> o.calls[i] == Call(HttpGet, url)
    decreases MaxPolls - attempt
  {
    var o := Rounds(url, settle, attempt);
    var query := Call(HttpGet, url);
    if attempt < MaxPolls {
      if settle(attempt).None? {
        AtMostThirtyQueries(url, settle, attempt + 1);
        var rest := Rounds(url, settle, attempt + 1);
        assert o.calls == [query] + rest.calls && o.calls[1..] == rest.calls;
      } else if settle(attempt).value.calls != [] {
        var down := settle(attempt).value.calls[0];
        assert o.calls == [query, down] && o.calls[1..] == [down] && [down][1..] == [];
        assert down != query;
        assert Count([down], query) == 0 + Count([], query);
      } else {
        assert o.calls == [query] && o.calls[1..] == [];
      }
    }
  }

  /** After the status query, the provider sends nothing or the download
      request, never the status query again. */
  lemma SettleSendsDownloadOnly(config: Json, id: Json, reply: Result<Json>, download: string -> Result<Json>,
                                dictRepr: DictRepr)
    requires TransactionUrl(config, id, dictRepr).Ok?
    ensures var s := Settle(config, id, reply, download, dictRepr);
            s.Some? ==> |s.value.calls| <= 1 && Call(HttpGet, TransactionUrl(config, id, dictRepr).value) !in s.value.calls
  {
    var s := Settle(config, id, reply, download, dictRepr);
    if s.Some? && s.value.calls != [] {
      var fileId := FileIdOf(reply.value).value;
      TransactionUrls(config, id, fileId, dictRepr);
    }
  }

  /** `poll_and_get_result` sends at most thirty status queries. */
  lemma PollBounded(config: Json, id: Json, replies: nat -> Result<Json>, download: string -> Result<Json>,
                    dictRepr: DictRepr)
    requires TransactionUrl(config, id, dictRepr).Ok?
    ensures Count(Poll(config, id, replies, download, dictRepr).calls,
                  Call(HttpGet, TransactionUrl(config, id, dictRepr).value)) <= MaxPolls
  {
    var settle := Settlements(config, id, replies, download, dictRepr);
    forall i: nat
      ensures settle(i).Some? ==> |settle(i).value.calls| <= 1
                                  && Call(HttpGet, TransactionUrl(config, id, dictRepr).value) !in settle(i).value.calls
    {
      SettleSendsDownloadOnly(config, id, replies(i), download, dictRepr);
    }
    AtMostThirtyQueries(TransactionUrl(config, id, dictRepr).value, settle, 0);
  }

  /** Status names are compared exactly: "processed" keeps polling. */
  lemma StatusCaseSensitive()
    ensures Pending(Ok(Obj1("status", JStr("processed"))))
    ensures Pending(Ok(Obj1("status", JStr("error"))))
  {
  }

  /** A missing client id or secret stops `get_access_token` before any
      request is sent. */
  lemma MissingCredentials(config: Json, secretConfig: Json, secrets: Secrets, reply: Result<Json>, dictRepr: DictRepr)
    requires secretConfig.JObj?
    requires forall k :: k in {"vault_mount_point", "vault_secret_path", "client_id_vault_key", "client_secret_vault_key"}
                         ==> k in secretConfig.fields
    requires var f := secretConfig.fields;
             var id := secrets(f["vault_secret_path"], f["client_id_vault_key"], f["vault_mount_point"]);
             var secret := secrets(f["vault_secret_path"], f["client_secret_vault_key"], f["vault_mount_point"]);
             id.Ok? && secret.Ok? && (!Truthy(id.value) || !Truthy(secret.value))
    ensures AccessToken(config, secretConfig, secrets, reply, dictRepr)
            == Outcome(Raised(Error("ValueError", MissingCredentialsMessage)), [])
  {
  }
}
