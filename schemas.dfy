/** The request and response models of the full-stack backend
    (`app/models/schemas.py`), with the part of pydantic's validation they
    rely on: required fields, `str` fields that accept only JSON strings,
    the lax reading of `bool` fields, defaults for absent optional fields and the `min_length`/`max_length`
    bounds on `text`. Validation reports every failing field, in declaration
    order, as pydantic does before FastAPI turns them into a 422 response. */
module Schemas {
  import opened Wrappers
  import opened JsonValues
  import opened Text
  import TtsService

  const TEXT_MIN_LENGTH := 1
  const TEXT_MAX_LENGTH := 1000
  const DEFAULT_VOICE_ID := "en-carter"
  const DEFAULT_OUTPUT_FORMAT := "wav"

  /** One entry of pydantic's error list. */
  datatype FieldError =
    | NotAnObject
    | Missing(field: string)
    | NotAString(field: string)
    | NotABool(field: string)
    | TooShort(field: string, minLength: nat)
    | TooLong(field: string, maxLength: nat)

  datatype TtsRequest = TtsRequest(text: string, voiceId: string, outputFormat: string)
  datatype ErrorResponse = ErrorResponse(error: string, code: string)
  datatype HealthResponse = HealthResponse(status: string, modelLoaded: bool)

  /** A required `str` field. */
  function StrField(fields: seq<(string, Json)>, name: string): (r: Result<string, FieldError>)
    ensures r.Ok? <==> Lookup(fields, name).Some? && Lookup(fields, name).value.JStr?
    ensures r.Ok? ==> Lookup(fields, name) == Some(JStr(r.value))
    ensures r == Err(Missing(name)) <==> Lookup(fields, name).None?
  {
    match Lookup(fields, name)
    case None => Err(Missing(name))
    case Some(JStr(s)) => Ok(s)
    case Some(_) => Err(NotAString(name))
  }

  /** An optional `str` field with a default. */
  function StrFieldOr(fields: seq<(string, Json)>, name: string, default: string): (r: Result<string, FieldError>)
    ensures Lookup(fields, name).None? ==> r == Ok(default)
    ensures Lookup(fields, name).Some? ==> (r.Ok? <==> Lookup(fields, name).value.JStr?)
    ensures Lookup(fields, name).Some? && r.Ok? ==> Lookup(fields, name) == Some(JStr(r.value))
    ensures r.Err? ==> r.error == NotAString(name)
  {
    match Lookup(fields, name)
    case None => Ok(default)
    case Some(JStr(s)) => Ok(s)
    case Some(_) => Err(NotAString(name))
  }

  /** The strings pydantic's lax mode reads as `True` and as `False`,
      compared in ASCII lower case. */
  const TRUE_STRINGS: set<string> := {"1", "on", "t", "true", "y", "yes"}
  const FALSE_STRINGS: set<string> := {"0", "off", "f", "false", "n", "no"}

  /** pydantic's lax `bool`: a boolean, the numbers 0 and 1, or one of the
      boolean words; anything else is not a boolean. */
  function AsBool(v: Json): (r: Option<bool>)
    ensures v.JBool? ==> r == Some(v.b)
    // A number is a boolean only as 0 or 1, and then means its truth value.
    ensures v.JInt? ==> (r.Some? <==> v.i == 0 || v.i == 1)
    ensures v.JReal? ==> (r.Some? <==> v.r == 0.0 || v.r == 1.0)
    ensures r.Some? && !v.JStr? ==> r.value == Truthy(v)
    ensures v.JStr? ==> (r == Some(true) <==> Lower(v.s) in TRUE_STRINGS)
                        && (r == Some(false) <==> Lower(v.s) in FALSE_STRINGS)
    ensures v.JNull? || v.JArr? || v.JObj? ==> r.None?
  {
    match v
    case JBool(b) => Some(b)
    case JInt(i) => if i == 0 then Some(false) else if i == 1 then Some(true) else None
    case JReal(x) => if x == 0.0 then Some(false) else if x == 1.0 then Some(true) else None
    case JStr(s) =>
      var lower := Lower(s);
      if lower in TRUE_STRINGS then Some(true)
      else if lower in FALSE_STRINGS then Some(false)
      else None
    case _ => None
  }

  /** A required `bool` field. */
  function BoolField(fields: seq<(string, Json)>, name: string): (r: Result<bool, FieldError>)
    ensures r.Ok? <==> Lookup(fields, name).Some? && AsBool(Lookup(fields, name).value).Some?
    ensures r.Ok? ==> AsBool(Lookup(fields, name).value) == Some(r.value)
    ensures Lookup(fields, name) == Some(JBool(true)) ==> r == Ok(true)
    ensures Lookup(fields, name) == Some(JBool(false)) ==> r == Ok(false)
    ensures r == Err(Missing(name)) <==> Lookup(fields, name).None?
    ensures r.Err? && Lookup(fields, name).Some? ==> r.error == NotABool(name)
  {
    match Lookup(fields, name)
    case None => Err(Missing(name))
    case Some(v) =>
      match AsBool(v)
      case Some(b) => Ok(b)
      case None => Err(NotABool(name))
  }

  /** `text: str = Field(..., min_length=1, max_length=1000)`: the type is
      checked first, then the length. */
  function TextField(fields: seq<(string, Json)>): (r: Result<string, FieldError>)
    ensures r.Ok? <==> StrField(fields, "text").Ok?
                       && TEXT_MIN_LENGTH <= |StrField(fields, "text").value| <= TEXT_MAX_LENGTH
    ensures r.Ok? ==> r == StrField(fields, "text")
  {
    match StrField(fields, "text")
    case Err(e) => Err(e)
    case Ok(s) =>
      if |s| < TEXT_MIN_LENGTH then Err(TooShort("text", TEXT_MIN_LENGTH))
      else if |s| > TEXT_MAX_LENGTH then Err(TooLong("text", TEXT_MAX_LENGTH))
      else Ok(s)
  }

  /** The errors of a list of field outcomes, in order. */
  function ErrorsOf<T>(rs: seq<Result<T, FieldError>>): (es: seq<FieldError>)
    ensures es == [] <==> forall i :: 0 <= i < |rs| ==> rs[i].Ok?
    ensures |es| <= |rs|
  {
    if rs == [] then []
    else (if rs[0].Err? then [rs[0].error] else []) + ErrorsOf(rs[1..])
  }

  /** `TTSRequest` from a request body. */
  function ValidateTtsRequest(body: Json): (r: Result<TtsRequest, seq<FieldError>>)
    ensures !body.JObj? ==> r == Err([NotAnObject])
    ensures body.JObj? ==>
              (r.Ok? <==> TextField(body.fields).Ok?
                          && StrFieldOr(body.fields, "voice_id", DEFAULT_VOICE_ID).Ok?
                          && StrFieldOr(body.fields, "output_format", DEFAULT_OUTPUT_FORMAT).Ok?)
    ensures r.Ok? ==> body.JObj? && Lookup(body.fields, "text") == Some(JStr(r.value.text))
                      && TEXT_MIN_LENGTH <= |r.value.text| <= TEXT_MAX_LENGTH
    ensures r.Ok? && Lookup(body.fields, "voice_id").None? ==> r.value.voiceId == DEFAULT_VOICE_ID
    ensures r.Ok? && Lookup(body.fields, "output_format").None? ==> r.value.outputFormat == DEFAULT_OUTPUT_FORMAT
    ensures r.Err? ==> r.error != []
  {
    match body
    case JObj(fields) =>
      var text := TextField(fields);
      var voice := StrFieldOr(fields, "voice_id", DEFAULT_VOICE_ID);
      var format := StrFieldOr(fields, "output_format", DEFAULT_OUTPUT_FORMAT);
      if text.Ok? && voice.Ok? && format.Ok? then Ok(TtsRequest(text.value, voice.value, format.value))
      else
        var rs := [text, voice, format];
        assert rs[0] == text && rs[1] == voice && rs[2] == format;
        Err(ErrorsOf(rs))
    case _ => Err([NotAnObject])
  }

  /** A request without `text`, with an empty `text` or with a `text` of
      more than 1000 characters is rejected, whatever else it holds. */
  lemma TextBoundsRejected(fields: seq<(string, Json)>, s: string)
    requires Lookup(fields, "text").None? || Lookup(fields, "text") == Some(JStr(s))
    requires s == [] || |s| > TEXT_MAX_LENGTH
    ensures ValidateTtsRequest(JObj(fields)).Err?
  {
  }

  // ---------------------------------------------------------------------
  // Response models: every field is required.

  /** `Voice(...).model_dump()`. */
  function VoiceJson(v: TtsService.Voice): Json {
    JObj([("id", JStr(v.id))] + [("name", JStr(v.name))] + [("language", JStr(v.language))] + [("style", JStr(v.style))])
  }

  /** `Voice` from a JSON object: id, name, language and style are each a
      required string. */
  function ValidateVoice(body: Json): (r: Result<TtsService.Voice, seq<FieldError>>)
    ensures r.Ok? <==> body.JObj? && StrField(body.fields, "id").Ok? && StrField(body.fields, "name").Ok?
                       && StrField(body.fields, "language").Ok? && StrField(body.fields, "style").Ok?
    ensures r.Ok? ==> Lookup(body.fields, "id") == Some(JStr(r.value.id))
                      && Lookup(body.fields, "name") == Some(JStr(r.value.name))
                      && Lookup(body.fields, "language") == Some(JStr(r.value.language))
                      && Lookup(body.fields, "style") == Some(JStr(r.value.style))
  {
    match body
    case JObj(fields) =>
      var rs := [StrField(fields, "id"), StrField(fields, "name"), StrField(fields, "language"), StrField(fields, "style")];
      if rs[0].Ok? && rs[1].Ok? && rs[2].Ok? && rs[3].Ok? then
        Ok(TtsService.Voice(rs[0].value, rs[1].value, rs[2].value, rs[3].value))
      else
        Err(ErrorsOf(rs))
    case _ => Err([NotAnObject])
  }

  /** Four string lookups make a voice. */
  lemma ValidateVoiceOk(fields: seq<(string, Json)>, v: TtsService.Voice)
    requires Lookup(fields, "id") == Some(JStr(v.id)) && Lookup(fields, "name") == Some(JStr(v.name))
    requires Lookup(fields, "language") == Some(JStr(v.language)) && Lookup(fields, "style") == Some(JStr(v.style))
    ensures ValidateVoice(JObj(fields)) == Ok(v)
  {
  }

  /** Every voice's JSON form carries the four required fields and reads
      back as the same voice. */
  lemma VoiceRoundTrip(v: TtsService.Voice)
    ensures ValidateVoice(VoiceJson(v)) == Ok(v)
  {
    var f1 := [("id", JStr(v.id))];
    var f2 := f1 + [("name", JStr(v.name))];
    var f3 := f2 + [("language", JStr(v.language))];
    var f4 := f3 + [("style", JStr(v.style))];
    LookupAppended([], "id", JStr(v.id));
    LookupAppendedOther(f1, "id", "name", JStr(v.name));
    LookupAppendedOther(f2, "id", "language", JStr(v.language));
    LookupAppendedOther(f3, "id", "style", JStr(v.style));
    LookupAppended(f1, "name", JStr(v.name));
    LookupAppendedOther(f2, "name", "language", JStr(v.language));
    LookupAppendedOther(f3, "name", "style", JStr(v.style));
    LookupAppended(f2, "language", JStr(v.language));
    LookupAppendedOther(f3, "language", "style", JStr(v.style));
    LookupAppended(f3, "style", JStr(v.style));
    ValidateVoiceOk(f4, v);
  }

  function ErrorResponseJson(e: ErrorResponse): Json {
    JObj([("error", JStr(e.error))] + [("code", JStr(e.code))])
  }

  /** `ErrorResponse` from a JSON object: error and code are required strings. */
  function ValidateErrorResponse(body: Json): (r: Result<ErrorResponse, seq<FieldError>>)
    ensures r.Ok? <==> body.JObj? && StrField(body.fields, "error").Ok? && StrField(body.fields, "code").Ok?
    ensures r.Ok? ==> Lookup(body.fields, "error") == Some(JStr(r.value.error))
                      && Lookup(body.fields, "code") == Some(JStr(r.value.code))
  {
    match body
    case JObj(fields) =>
      var e := StrField(fields, "error");
      var c := StrField(fields, "code");
      if e.Ok? && c.Ok? then Ok(ErrorResponse(e.value, c.value)) else Err(ErrorsOf([e, c]))
    case _ => Err([NotAnObject])
  }

  lemma ErrorResponseRoundTrip(e: ErrorResponse)
    ensures ValidateErrorResponse(ErrorResponseJson(e)) == Ok(e)
  {
    var f1 := [("error", JStr(e.error))];
    LookupAppended([], "error", JStr(e.error));
    LookupAppendedOther(f1, "error", "code", JStr(e.code));
    LookupAppended(f1, "code", JStr(e.code));
  }

  function HealthResponseJson(h: HealthResponse): Json {
    JObj([("status", JStr(h.status))] + [("model_loaded", JBool(h.modelLoaded))])
  }

  /** `HealthResponse` from a JSON object: status is a required string and
      model_loaded a required boolean. */
  function ValidateHealthResponse(body: Json): (r: Result<HealthResponse, seq<FieldError>>)
    ensures r.Ok? <==> body.JObj? && StrField(body.fields, "status").Ok? && BoolField(body.fields, "model_loaded").Ok?
    ensures r.Ok? ==> Lookup(body.fields, "status") == Some(JStr(r.value.status))
                      && AsBool(Lookup(body.fields, "model_loaded").value) == Some(r.value.modelLoaded)
  {
    match body
    case JObj(fields) =>
      var st := StrField(fields, "status");
      var ml := BoolField(fields, "model_loaded");
      if st.Ok? && ml.Ok? then Ok(HealthResponse(st.value, ml.value))
      else Err((if st.Err? then [st.error] else []) + (if ml.Err? then [ml.error] else []))
    case _ => Err([NotAnObject])
  }

  lemma HealthResponseRoundTrip(h: HealthResponse)
    ensures ValidateHealthResponse(HealthResponseJson(h)) == Ok(h)
  {
    var f1 := [("status", JStr(h.status))];
    LookupAppended([], "status", JStr(h.status));
    LookupAppendedOther(f1, "status", "model_loaded", JBool(h.modelLoaded));
    LookupAppended(f1, "model_loaded", JBool(h.modelLoaded));
  }
}
