/** The text-to-speech service of the full-stack backend
    (`app/services/tts_service.py`): the voice registry, the mapping from API
    voice ids to engine speaker codes, the load-once model flag pair and the
    guard and voice mapping in front of generation. The engine itself is a
    parameter: loading it is a `Result` handed to `Initialize`, and
    `generate` followed by the WAV conversion is a function handed to
    `GenerateAudio`. */
module TtsService {
  import opened Wrappers

  /** `schemas.Voice`: what the registry lists and `/voices` returns. */
  datatype Voice = Voice(id: string, name: string, language: string, style: string)

  const VOICES_REGISTRY: seq<Voice> := [
    Voice("en-US-Aria", "Aria", "en-US", "general"),
    Voice("en-US-Guy", "Guy", "en-US", "general"),
    Voice("en-US-Jenny", "Jenny", "en-US", "conversational"),
    Voice("en-GB-Sonia", "Sonia", "en-GB", "general"),
    Voice("en-AU-Natasha", "Natasha", "en-AU", "general"),
    Voice("de-DE-Katja", "Katja", "de-DE", "general"),
    Voice("fr-FR-Denise", "Denise", "fr-FR", "general"),
    Voice("it-IT-Elsa", "Elsa", "it-IT", "general"),
    Voice("es-ES-Elvira", "Elvira", "es-ES", "general"),
    Voice("pt-BR-Francisca", "Francisca", "pt-BR", "general"),
    Voice("nl-NL-Colette", "Colette", "nl-NL", "general"),
    Voice("pl-PL-Paulina", "Paulina", "pl-PL", "general"),
    Voice("ja-JP-Nanami", "Nanami", "ja-JP", "general"),
    Voice("ko-KR-SunHi", "SunHi", "ko-KR", "general")
  ]

  const VOICE_ID_TO_SPEAKER: map<string, string> := map[
    "en-US-Aria" := "EN-Default",
    "en-US-Guy" := "EN-US",
    "en-US-Jenny" := "EN-US",
    "en-GB-Sonia" := "EN-BR",
    "en-AU-Natasha" := "EN-AU",
    "de-DE-Katja" := "DE",
    "fr-FR-Denise" := "FR",
    "it-IT-Elsa" := "IT",
    "es-ES-Elvira" := "ES",
    "pt-BR-Francisca" := "PT",
    "nl-NL-Colette" := "NL",
    "pl-PL-Paulina" := "PL",
    "ja-JP-Nanami" := "JP",
    "ko-KR-SunHi" := "KR"
  ]

  /** The speaker used for an id the mapping does not know. */
  const DEFAULT_SPEAKER := "EN-Default"

  /** The message of the RuntimeError raised when generating without a model. */
  const NOT_LOADED := "TTS model is not loaded"

  /** A loaded engine, as `VibeVoiceRealtime.from_pretrained` returns it. */
  datatype Engine = Engine(checkpoint: string)

  /** The exceptions generation can end in; the routes tell RuntimeError
      apart from every other exception. */
  datatype GenError = RuntimeError(message: string) | OtherError(message: string)

  /** `model.generate(text=…, speaker=…)` followed by the WAV conversion. */
  type Synthesizer = (Engine, string, string) -> Result<seq<byte>, GenError>

  /** The registry ids, in registry order. */
  function RegistryIds(): (ids: seq<string>)
    ensures |ids| == |VOICES_REGISTRY| && forall i :: 0 <= i < |ids| ==> ids[i] == VOICES_REGISTRY[i].id
  {
    seq(|VOICES_REGISTRY|, i requires 0 <= i < |VOICES_REGISTRY| => VOICES_REGISTRY[i].id)
  }

  lemma RegistryIdsValue()
    ensures RegistryIds() == ["en-US-Aria", "en-US-Guy", "en-US-Jenny", "en-GB-Sonia", "en-AU-Natasha",
                              "de-DE-Katja", "fr-FR-Denise", "it-IT-Elsa", "es-ES-Elvira", "pt-BR-Francisca",
                              "nl-NL-Colette", "pl-PL-Paulina", "ja-JP-Nanami", "ko-KR-SunHi"]
  {
  }

  /** The registry ids are pairwise distinct. */
  lemma RegistryIdsDistinct()
    ensures forall i, j :: 0 <= i < j < |VOICES_REGISTRY| ==> VOICES_REGISTRY[i].id != VOICES_REGISTRY[j].id
  {
    var ids := RegistryIds();
    RegistryIdsValue();
    forall i, j | 0 <= i < j < |VOICES_REGISTRY|
      ensures VOICES_REGISTRY[i].id != VOICES_REGISTRY[j].id
    {
      assert ids[i] == VOICES_REGISTRY[i].id && ids[j] == VOICES_REGISTRY[j].id;
      assert ids[i][0] != ids[j][0] || ids[i][6] != ids[j][6];
    }
  }

  /** The speaker mapping holds exactly the registry ids: no registry voice
      falls back to the default speaker by accident. */
  lemma RegistryIdsMapped()
    ensures forall i :: 0 <= i < |VOICES_REGISTRY| ==> VOICES_REGISTRY[i].id in VOICE_ID_TO_SPEAKER
    ensures forall k :: k in VOICE_ID_TO_SPEAKER ==> k in RegistryIds()
  {
    RegistryIdsValue();
  }

  /** The speaker for an API voice id: the mapped code, or `EN-Default` for
      an id the mapping does not know. */
  function SpeakerFor(voiceId: string): (speaker: string)
    ensures voiceId in VOICE_ID_TO_SPEAKER ==> speaker == VOICE_ID_TO_SPEAKER[voiceId]
    ensures voiceId !in VOICE_ID_TO_SPEAKER ==> speaker == DEFAULT_SPEAKER
    ensures speaker in VOICE_ID_TO_SPEAKER.Values
  {
    if voiceId in VOICE_ID_TO_SPEAKER then VOICE_ID_TO_SPEAKER[voiceId]
    else
      assert VOICE_ID_TO_SPEAKER["en-US-Aria"] == DEFAULT_SPEAKER;
      DEFAULT_SPEAKER
  }

  /** Every registry voice is generated with its own mapped speaker, and an
      id outside the registry (such as the request default `en-carter`) is
      generated with `EN-Default`. */
  lemma SpeakerOfRegistryVoices(voiceId: string)
    ensures (exists i :: 0 <= i < |VOICES_REGISTRY| && VOICES_REGISTRY[i].id == voiceId)
            ==> SpeakerFor(voiceId) == VOICE_ID_TO_SPEAKER[voiceId]
    ensures (forall i :: 0 <= i < |VOICES_REGISTRY| ==> VOICES_REGISTRY[i].id != voiceId)
            ==> SpeakerFor(voiceId) == DEFAULT_SPEAKER
  {
    RegistryIdsMapped();
    if voiceId in VOICE_ID_TO_SPEAKER {
      var i :| 0 <= i < |RegistryIds()| && RegistryIds()[i] == voiceId;
    }
  }

  /** `get_voice_by_id`: a linear search of the registry with an early
      return; the first voice with that id, or None. */
  method GetVoiceById(voiceId: string) returns (r: Option<Voice>)
    ensures r.None? <==> forall i :: 0 <= i < |VOICES_REGISTRY| ==> VOICES_REGISTRY[i].id != voiceId
    ensures r.Some? ==> exists i :: 0 <= i < |VOICES_REGISTRY| && VOICES_REGISTRY[i] == r.value
                                    && forall j :: 0 <= j < i ==> VOICES_REGISTRY[j].id != voiceId
    ensures r.Some? ==> r.value.id == voiceId
  {
    var i := 0;
    while i < |VOICES_REGISTRY|
      invariant 0 <= i <= |VOICES_REGISTRY|
      invariant forall j :: 0 <= j < i ==> VOICES_REGISTRY[j].id != voiceId
    {
      if VOICES_REGISTRY[i].id == voiceId {
        return Some(VOICES_REGISTRY[i]);
      }
      i := i + 1;
    }
    return None;
  }

  /** The service's class-level state: `_model` and `_initialized`. */
  class TTSService {
    var model: Option<Engine>
    var initialized: bool

    /** The class attributes before the first `initialize`. */
    constructor()
      ensures model == None && !initialized
    {
      model := None;
      initialized := false;
    }

    /** `is_model_loaded`: initialised and holding a model. */
    predicate IsModelLoaded()
      reads this
    {
      initialized && model.Some?
    }

    /** `initialize`: a no-op once it has succeeded; otherwise `load` is the
        outcome of `from_pretrained`. On success the model and the flag are
        set; a failure re-raises and leaves both fields as they were, so a
        later call tries again. */
    method Initialize(load: Result<Engine, string>) returns (r: Result<(), string>)
      modifies this
      ensures old(initialized) ==> r == Ok(()) && model == old(model) && initialized
      ensures !old(initialized) && load.Ok? ==> r == Ok(()) && model == Some(load.value) && initialized
      ensures !old(initialized) && load.Err? ==> r == Err(load.error) && model == old(model) && !initialized
      ensures r.Ok? ==> initialized
      ensures !old(initialized) && r.Ok? ==> IsModelLoaded()
    {
      if initialized {
        return Ok(());
      }
      match load {
        case Err(e) =>
          return Err(e);
        case Ok(m) =>
          model := Some(m);
          initialized := true;
          return Ok(());
      }
    }

    /** `generate_audio`: without a loaded model a RuntimeError is raised
        whatever the voice id, before the id is mapped; otherwise the engine
        runs with the mapped speaker (`EN-Default` for an unknown id) and its
        outcome is returned unchanged. */
    function GenerateAudio(text: string, voiceId: string, synthesize: Synthesizer): (r: Result<seq<byte>, GenError>)
      reads this
      ensures !IsModelLoaded() ==> r == Err(RuntimeError(NOT_LOADED))
      ensures IsModelLoaded() ==> r == synthesize(model.value, text, SpeakerFor(voiceId))
      ensures IsModelLoaded() && voiceId !in VOICE_ID_TO_SPEAKER ==> r == synthesize(model.value, text, DEFAULT_SPEAKER)
    {
      if !IsModelLoaded() then Err(RuntimeError(NOT_LOADED))
      else synthesize(model.value, text, SpeakerFor(voiceId))
    }
  }
}
