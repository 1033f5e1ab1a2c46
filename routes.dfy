/** The HTTP endpoints of the full-stack backend (`app/api/routes.py`):
    the health check and `POST /tts`. A handler either returns a response or
    raises an `HTTPException`; both are modelled as a `Response` value. */
module Routes {
  import opened Wrappers
  import opened Text
  import opened JsonValues
  import opened TtsService
  import opened Schemas

  const WAV_MEDIA_TYPE := "audio/wav"
  const WAV_HEADERS: seq<(string, string)> := [("Content-Disposition", "attachment; filename=speech.wav")]

  const TEXT_REQUIRED := ErrorResponse("Text is required", "VALIDATION_ERROR")
  const UNSUPPORTED_FORMAT := ErrorResponse("Only 'wav' format is supported", "UNSUPPORTED_FORMAT")
  const MODEL_ERROR := ErrorResponse("TTS model not available", "MODEL_ERROR")
  const GENERATION_ERROR := ErrorResponse("Audio generation failed", "GENERATION_ERROR")

  datatype Response =
    | Audio(content: seq<byte>, mediaType: string, headers: seq<(string, string)>)
    | HttpError(statusCode: nat, detail: ErrorResponse)
    /** FastAPI's answer when the body fails the request model's validation. */
    | Unprocessable(errors: seq<FieldError>)

  /** `GET /health`: "healthy" exactly when the model is loaded, and the
      flag itself is reported alongside. */
  function HealthCheck(svc: TTSService): (r: HealthResponse)
    reads svc
    ensures r.status == "healthy" <==> svc.IsModelLoaded()
    ensures r.status == "unhealthy" <==> !svc.IsModelLoaded()
    ensures r.modelLoaded == svc.IsModelLoaded()
  {
    var loaded := svc.IsModelLoaded();
    HealthResponse(if loaded then "healthy" else "unhealthy", loaded)
  }

  /** `generate_speech` on a validated request: blank text is refused before
      the format is looked at, the voice id is never refused, the engine gets
      the stripped text, and its RuntimeError and any other exception map to
      two different 500 responses. */
  function GenerateSpeech(req: TtsRequest, svc: TTSService, synthesize: Synthesizer): (r: Response)
    reads svc
    ensures (req.text == [] || Strip(req.text) == []) ==> r == HttpError(400, TEXT_REQUIRED)
    ensures Strip(req.text) != [] && req.outputFormat != "wav" ==> r == HttpError(400, UNSUPPORTED_FORMAT)
    ensures r.Audio? <==> Strip(req.text) != [] && req.outputFormat == "wav"
                          && svc.GenerateAudio(Strip(req.text), req.voiceId, synthesize).Ok?
    ensures r.Audio? ==> r == Audio(svc.GenerateAudio(Strip(req.text), req.voiceId, synthesize).value,
                                    WAV_MEDIA_TYPE, WAV_HEADERS)
    ensures Strip(req.text) != [] && req.outputFormat == "wav" ==>
              match svc.GenerateAudio(Strip(req.text), req.voiceId, synthesize)
              case Ok(_) => r.Audio?
              case Err(RuntimeError(_)) => r == HttpError(500, MODEL_ERROR)
              case Err(OtherError(_)) => r == HttpError(500, GENERATION_ERROR)
    ensures r.HttpError? ==> r.statusCode in {400, 500}
    // The 400 answers depend on the text and the format only, never on the voice id.
    ensures (r.HttpError? && r.statusCode == 400) <==> Strip(req.text) == [] || req.outputFormat != "wav"
  {
    if req.text == [] || Strip(req.text) == [] then
      HttpError(400, TEXT_REQUIRED)
    else if req.outputFormat != "wav" then
      HttpError(400, UNSUPPORTED_FORMAT)
    else
      match svc.GenerateAudio(Strip(req.text), req.voiceId, synthesize)
      case Ok(bytes) => Audio(bytes, WAV_MEDIA_TYPE, WAV_HEADERS)
      case Err(RuntimeError(_)) => HttpError(500, MODEL_ERROR)
      case Err(OtherError(_)) => HttpError(500, GENERATION_ERROR)
  }

  /** `POST /tts`: the body is validated against `TTSRequest` first (a
      failure is a 422 carrying every field error), then handled. */
  function PostTts(body: Json, svc: TTSService, synthesize: Synthesizer): (r: Response)
    reads svc
    ensures ValidateTtsRequest(body).Err? <==> r.Unprocessable?
    ensures r.Unprocessable? ==> r.errors == ValidateTtsRequest(body).error && r.errors != []
    ensures ValidateTtsRequest(body).Ok? ==> r == GenerateSpeech(ValidateTtsRequest(body).value, svc, synthesize)
  {
    match ValidateTtsRequest(body)
    case Err(es) => Unprocessable(es)
    case Ok(req) => GenerateSpeech(req, svc, synthesize)
  }

  /** With a loaded model, a request for a voice the registry does not hold
      is synthesised with the default speaker; the request default
      `en-carter` is such a voice. */
  lemma UnknownVoiceUsesDefaultSpeaker(req: TtsRequest, svc: TTSService, synthesize: Synthesizer)
    requires svc.IsModelLoaded() && Strip(req.text) != [] && req.outputFormat == "wav"
    requires forall i :: 0 <= i < |VOICES_REGISTRY| ==> VOICES_REGISTRY[i].id != req.voiceId
    ensures svc.GenerateAudio(Strip(req.text), req.voiceId, synthesize)
            == synthesize(svc.model.value, Strip(req.text), DEFAULT_SPEAKER)
  {
    SpeakerOfRegistryVoices(req.voiceId);
  }

  lemma DefaultVoiceIsNotRegistered()
    ensures forall i :: 0 <= i < |VOICES_REGISTRY| ==> VOICES_REGISTRY[i].id != DEFAULT_VOICE_ID
  {
    var ids := RegistryIds();
    RegistryIdsValue();
    forall i | 0 <= i < |VOICES_REGISTRY| ensures VOICES_REGISTRY[i].id != DEFAULT_VOICE_ID {
      assert ids[i] == VOICES_REGISTRY[i].id;
      assert ids[i][6] != DEFAULT_VOICE_ID[6];
    }
  }

  /** A body whose text is only whitespace passes the length check of the
      model (it is not empty) and is refused by the handler with 400. */
  lemma BlankTextIsValidationError(fields: seq<(string, Json)>, svc: TTSService, synthesize: Synthesizer)
    requires ValidateTtsRequest(JObj(fields)).Ok?
    requires AllSpace(ValidateTtsRequest(JObj(fields)).value.text)
    ensures PostTts(JObj(fields), svc, synthesize) == HttpError(400, TEXT_REQUIRED)
  {
    StripEmptyIffAllSpace(ValidateTtsRequest(JObj(fields)).value.text);
  }
}
