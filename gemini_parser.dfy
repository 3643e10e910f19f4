/** `parse_gemini_response` (api/utils.py): turns the reply of the Gemini
    generate-content endpoint into the analysis JSON, taking a structured
    `functionCall` part as it is and decoding a `text` part. JSON decoding
    (`json.loads`) and the rendering of a dict by `str` are library calls
    and parameters. */
module GeminiParser {
  import opened Json
  import opened Py

  const BlockedPrefix: string := "Response blocked by safety filters. Reason: "
  const EmptyTextMessage: string := "Gemini returned an empty text response."
  const UnexpectedPrefix: string := "Unexpected Gemini response format. Content: "
  const StructurePrefix: string := "Failed to parse Gemini's response structure. Error: "

  /** `json.loads`: the decoded value, or the exception it raises. */
  type Loads = string -> Result<Json>

  /** `str(d)` of a dict, which depends on key order. */
  type DictRepr = map<string, Json> -> string

  function ValueError(message: string): Exc {
    Error("ValueError", message)
  }

  /** `r[key]` after a step that may already have raised. */
  function Then(r: Result<Json>, key: Json): Result<Json> {
    match r
    case Raised(e) => Raised(e)
    case Ok(v) => Sub(v, key)
  }

  /** `response_data['candidates'][0]['content']`. */
  function ContentOf(response: Json): Result<Json> {
    Then(Then(Key(response, "candidates"), JNum(0)), JStr("content"))
  }

  /** `content['parts'][0]`. */
  function PartOf(content: Json): Result<Json> {
    Then(Key(content, "parts"), JNum(0))
  }

  /** `part['text'].strip()`: only a string has `strip`. */
  function StrippedText(part: Json): Result<string> {
    match Key(part, "text")
    case Raised(e) => Raised(e)
    case Ok(t) =>
      if t.JStr? then Ok(Strip(t.s))
      else Raised(Error("AttributeError", "'" + TypeName(t) + "' object has no attribute 'strip'"))
  }

  /** The body of the `try` block. */
  function Attempt(response: Json, loads: Loads, dictRepr: DictRepr): Result<Json> {
    match ContentOf(response)
    case Raised(e) => Raised(e)
    case Ok(content) =>
      match PartOf(content)
      case Raised(e) => Raised(e)
      case Ok(part) => PartValue(content, part, loads, dictRepr)
  }

  /** The `try` block from the first part on. */
  function PartValue(content: Json, part: Json, loads: Loads, dictRepr: DictRepr): Result<Json> {
    match In("functionCall", part)
    case Raised(e) => Raised(e)
    case Ok(hasCall) =>
      if hasCall then Then(Key(part, "functionCall"), JStr("args"))
      else
        match In("text", part)
        case Raised(e) => Raised(e)
        case Ok(hasText) =>
          if !hasText then Raised(ValueError(UnexpectedPrefix + Str(content, dictRepr)))
          else
            match StrippedText(part)
            case Raised(e) => Raised(e)
            case Ok(cleaned) => if cleaned == "" then Raised(ValueError(EmptyTextMessage)) else loads(cleaned)
  }

  /** The exceptions the `except` clause turns into a ValueError. */
  predicate Structural(e: Exc) {
    e.name == "KeyError" || e.name == "IndexError"
  }

  /** What `parse_gemini_response` returns or raises. */
  function ParseGemini(response: Json, loads: Loads, dictRepr: DictRepr): (r: Result<Json>)
    ensures r.Raised? ==> !Structural(r.exc)
  {
    match Get(response, "candidates", JNull)
    case Raised(e) => Raised(e)
    case Ok(candidates) =>
      if !Truthy(candidates) then
        match Get(response, "promptFeedback", JObj(map[]))
        case Raised(e) => Raised(e)
        case Ok(feedback) =>
          match Get(feedback, "blockReason", JStr("Unknown"))
          case Raised(e) => Raised(e)
          case Ok(reason) => Raised(ValueError(BlockedPrefix + Str(reason, dictRepr)))
      else
        Reported(Attempt(response, loads, dictRepr))
  }

  /** The `except (KeyError, IndexError)` clause. */
  function Reported(r: Result<Json>): Result<Json> {
    if r.Raised? && Structural(r.exc) then Raised(ValueError(StructurePrefix + r.exc.message)) else r
  }

  /** A reply with one candidate whose content has the given parts. */
  function Reply(parts: Json): Json {
    Obj1("candidates", JArr([Obj1("content", Obj1("parts", parts))]))
  }

  // ---------------------------------------------------------------------
  // Properties

  /** A reply with one candidate and one part is decided by that part. */
  lemma OnePart(part: map<string, Json>, loads: Loads, dictRepr: DictRepr)
    ensures ParseGemini(Reply(JArr([JObj(part)])), loads, dictRepr)
            == Reported(PartValue(Obj1("parts", JArr([JObj(part)])), JObj(part), loads, dictRepr))
  {
    CandidateContent(Obj1("parts", JArr([JObj(part)])));
    FirstPart(JObj(part));
  }

  /** The content of a reply with one candidate. */
  lemma CandidateContent(content: Json)
    ensures Get(Obj1("candidates", JArr([Obj1("content", content)])), "candidates", JNull)
            == Ok(JArr([Obj1("content", content)]))
    ensures ContentOf(Obj1("candidates", JArr([Obj1("content", content)]))) == Ok(content)
  {
    var candidate := Obj1("content", content);
    assert Key(Obj1("candidates", JArr([candidate])), "candidates") == Ok(JArr([candidate]));
    assert Sub(JArr([candidate]), JNum(0)) == Ok(candidate);
  }

  lemma FirstPart(part: Json)
    ensures PartOf(Obj1("parts", JArr([part]))) == Ok(part)
  {
    assert Key(Obj1("parts", JArr([part])), "parts") == Ok(JArr([part]));
  }

  /** A reply without candidates (missing, null or empty) is a blocked
      prompt: the error names the block reason, or "Unknown" when the
      feedback gives none. */
  lemma Blocked(response: Json, loads: Loads, dictRepr: DictRepr)
    requires response.JObj? && !Truthy(Get(response, "candidates", JNull).value)
    requires "promptFeedback" !in response.fields || response.fields["promptFeedback"].JObj?
    ensures var r := ParseGemini(response, loads, dictRepr);
            var feedback := if "promptFeedback" in response.fields then response.fields["promptFeedback"].fields else map[];
            && r.Raised? && r.exc.name == "ValueError"
            && r.exc.message == BlockedPrefix + (if "blockReason" in feedback then Str(feedback["blockReason"], dictRepr) else "Unknown")
  {
  }

  /** A `functionCall` part wins over a `text` part in the same part, and its
      `args` are returned unchanged, whatever the text says. */
  lemma FunctionCallWins(part: map<string, Json>, args: Json, loads: Loads, dictRepr: DictRepr)
    requires "functionCall" in part && part["functionCall"].JObj? && "args" in part["functionCall"].fields
    requires args == part["functionCall"].fields["args"]
    ensures ParseGemini(Reply(JArr([JObj(part)])), loads, dictRepr) == Ok(args)
  {
    OnePart(part, loads, dictRepr);
  }

  /** A text part is stripped before decoding: text that is only whitespace
      is refused, anything else is decoded from its stripped form, which
      neither starts nor ends with whitespace. */
  lemma TextStripped(part: map<string, Json>, text: string, loads: Loads, dictRepr: DictRepr)
    requires "functionCall" !in part && "text" in part && part["text"] == JStr(text)
    ensures var r := ParseGemini(Reply(JArr([JObj(part)])), loads, dictRepr);
            && (AllSpace(text) ==> r == Raised(ValueError(EmptyTextMessage)))
            && (!AllSpace(text) ==> Strip(text) != "" && !IsSpace(Strip(text)[0]) && !IsSpace(Strip(text)[|Strip(text)| - 1])
                                    && (loads(Strip(text)).Ok? ==> r == loads(Strip(text))))
  {
    var r := ParseGemini(Reply(JArr([JObj(part)])), loads, dictRepr);
    var cleaned := Strip(text);
    OnePart(part, loads, dictRepr);
    TextPart(Obj1("parts", JArr([JObj(part)])), part, text, loads, dictRepr);
    StripProperties(text);
    if AllSpace(text) {
      assert cleaned == "";
      assert r == Reported(Raised(ValueError(EmptyTextMessage)));
    } else if loads(cleaned).Ok? {
      assert r == Reported(loads(cleaned));
    }
  }

  /** A text part without a function call: its stripped text, refused
      when empty and decoded otherwise. */
  lemma TextPart(content: Json, part: map<string, Json>, text: string, loads: Loads, dictRepr: DictRepr)
    requires "functionCall" !in part && "text" in part && part["text"] == JStr(text)
    ensures PartValue(content, JObj(part), loads, dictRepr)
            == if Strip(text) == "" then Raised(ValueError(EmptyTextMessage)) else loads(Strip(text))
  {
    assert In("functionCall", JObj(part)) == Ok(false);
    assert In("text", JObj(part)) == Ok(true);
    assert StrippedText(JObj(part)) == Ok(Strip(text));
  }

  /** A part with neither key is refused with the content in the message. */
  lemma NeitherKey(part: map<string, Json>, loads: Loads, dictRepr: DictRepr)
    requires "functionCall" !in part && "text" !in part
    ensures ParseGemini(Reply(JArr([JObj(part)])), loads, dictRepr)
            == Raised(ValueError(UnexpectedPrefix + dictRepr(map["parts" := JArr([JObj(part)])])))
  {
    OnePart(part, loads, dictRepr);
  }

  /** A content without parts is reported as a structure error carrying
      the KeyError's text. */
  lemma MissingParts(loads: Loads, dictRepr: DictRepr)
    ensures ParseGemini(Obj1("candidates", JArr([Obj1("content", JObj(map[]))])), loads, dictRepr)
            == Raised(ValueError(StructurePrefix + "'parts'"))
  {
    var reply := Obj1("candidates", JArr([Obj1("content", JObj(map[]))]));
    CandidateContent(JObj(map[]));
    assert PartOf(JObj(map[])) == Raised(KeyError(JStr("parts")));
    assert Attempt(reply, loads, dictRepr) == Raised(KeyError(JStr("parts")));
  }

  /** An empty list of parts is reported with the IndexError's text. */
  lemma EmptyParts(loads: Loads, dictRepr: DictRepr)
    ensures ParseGemini(Reply(JArr([])), loads, dictRepr)
            == Raised(ValueError(StructurePrefix + "list index out of range"))
  {
    var reply := Reply(JArr([]));
    var e := Error("IndexError", "list index out of range");
    CandidateContent(Obj1("parts", JArr([])));
    assert PartOf(Obj1("parts", JArr([]))) == Raised(e);
    assert Attempt(reply, loads, dictRepr) == Raised(e);
  }

  /** A value comes back only from a `functionCall` part's `args` or from
      decoding a non-blank text part. */
  lemma OkOnlyFromCallOrText(response: Json, loads: Loads, dictRepr: DictRepr)
    requires ParseGemini(response, loads, dictRepr).Ok?
    ensures ContentOf(response).Ok? && PartOf(ContentOf(response).value).Ok?
    ensures var part := PartOf(ContentOf(response).value).value;
            var r := ParseGemini(response, loads, dictRepr);
            || (In("functionCall", part) == Ok(true) && r == Then(Key(part, "functionCall"), JStr("args")))
            || (StrippedText(part).Ok? && StrippedText(part).value != "" && r == loads(StrippedText(part).value))
  {
  }
}
