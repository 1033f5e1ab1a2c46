/** The multilingual demo script (`scenario-01-simple/main_multilingual.py`):
    the language table, the download list and its counter, the guarded
    choice of a language and a voice, the preset file name, the text choice
    and the loop over every language. The file system and the network are
    parameters: `isFile` answers `os.path.exists`, and `fetch` says whether
    `urlretrieve` of a preset file succeeds. */
module Multilingual {
  import opened Wrappers
  import opened Text

  datatype LangConfig = LangConfig(name: string, voices: seq<string>, sampleText: string)

  /** `LANGUAGE_CONFIG`, in the dictionary's insertion order. */
  const LANGUAGE_CONFIG: seq<(string, LangConfig)> := [
    ("en", LangConfig("English", ["Carter_man", "Davis_man", "Emma_woman", "Frank_man", "Grace_woman", "Mike_man"],
                      "Hello! This is a demonstration of VibeVoice text-to-speech in English.")),
    ("sp", LangConfig("Spanish", ["Spk1_man"],
                      "¡Hola! Esta es una demostración de VibeVoice texto a voz en español. Estamos en Jueves en Quack.")),
    ("de", LangConfig("German", ["Spk0_man", "Spk1_woman"],
                      "Hallo! Dies ist eine Demonstration von VibeVoice Text-zu-Sprache auf Deutsch.")),
    ("fr", LangConfig("French", ["Spk0_man", "Spk1_woman"],
                      "Bonjour! Ceci est une démonstration de VibeVoice synthèse vocale en français.")),
    ("it", LangConfig("Italian", ["Spk0_woman", "Spk1_man"],
                      "Ciao! Questa è una dimostrazione di VibeVoice sintesi vocale in italiano.")),
    ("pt", LangConfig("Portuguese", ["Spk0_woman", "Spk1_man"],
                      "Olá! Esta é uma demonstração do VibeVoice texto para fala em português.")),
    ("jp", LangConfig("Japanese", ["Spk0_man", "Spk1_woman"],
                      "こんにちは！これはVibeVoiceのテキスト音声変換のデモです。")),
    ("kr", LangConfig("Korean", ["Spk0_woman", "Spk1_man"],
                      "안녕하세요! VibeVoice 텍스트 음성 변환 데모입니다.")),
    ("nl", LangConfig("Dutch", ["Spk0_man", "Spk1_woman"],
                      "Hallo! Dit is een demonstratie van VibeVoice tekst-naar-spraak in het Nederlands.")),
    ("pl", LangConfig("Polish", ["Spk0_man", "Spk1_woman"],
                      "Cześć! To jest demonstracja VibeVoice tekstu na mowę po polsku."))
  ]

  /** The list of codes as `str(list(LANGUAGE_CONFIG.keys()))` prints it. */
  const SUPPORTED_CODES := "['en', 'sp', 'de', 'fr', 'it', 'pt', 'jp', 'kr', 'nl', 'pl']"

  datatype ScriptError = ValueError(message: string) | IndexError(message: string) | FileNotFound(message: string)

  /** `f"{lang}-{voice}.pt"`: the name of a preset file. */
  function PresetFilename(lang: string, voice: string): string {
    lang + "-" + voice + ".pt"
  }

  /** The language code and the voice name can be read back from a preset
      file name, given the length of the language code. */
  lemma PresetFilenameParts(lang: string, voice: string)
    ensures var f := PresetFilename(lang, voice);
            EndsWith(f, ".pt") && |f| == |lang| + |voice| + 4
            && f[..|lang|] == lang && f[|lang|] == '-' && f[|lang| + 1..|f| - 3] == voice
  {
    var f := PresetFilename(lang, voice);
    assert f[..|lang|] == lang;
    assert f[|lang| + 1..|f| - 3] == voice;
  }

  /** `str(xs)` for a list of strings without quotes in them. */
  function ListRepr(xs: seq<string>): string {
    "[" + QuotedItems(xs) + "]"
  }

  function QuotedItems(xs: seq<string>): string {
    if xs == [] then ""
    else if |xs| == 1 then "'" + xs[0] + "'"
    else "'" + xs[0] + "', " + QuotedItems(xs[1..])
  }

  /** `LANGUAGE_CONFIG.get(code)`. */
  function ConfigOf(configs: seq<(string, LangConfig)>, code: string): (r: Option<LangConfig>)
    ensures r.None? <==> forall i :: 0 <= i < |configs| ==> configs[i].0 != code
    ensures r.Some? ==> exists i :: 0 <= i < |configs| && configs[i] == (code, r.value)
  {
    if configs == [] then None
    else if configs[0].0 == code then Some(configs[0].1)
    else
      var r := ConfigOf(configs[1..], code);
      assert forall i :: 0 < i < |configs| ==> configs[i] == configs[1..][i - 1];
      r
  }

  /** What the script settles on before loading the preset. */
  datatype Selection = Selection(config: LangConfig, voiceName: string, path: string)

  /** Python's `voices[index]`, negative indices counting from the end. */
  function PyIndex(xs: seq<string>, index: int): (r: Result<string, ScriptError>)
    ensures r.Ok? <==> -|xs| <= index < |xs|
    ensures 0 <= index < |xs| ==> r == Ok(xs[index])
    ensures -|xs| <= index < 0 ==> r == Ok(xs[|xs| + index])
  {
    if 0 <= index < |xs| then Ok(xs[index])
    else if -|xs| <= index < 0 then Ok(xs[|xs| + index])
    else Err(IndexError("list index out of range"))
  }

  /** Steps 6 of the script: an unknown language is a ValueError; an index
      at or beyond the number of voices is a ValueError; only that upper
      bound is checked, so a negative index picks from the end and one below
      minus the count is an IndexError; a missing preset file is a
      FileNotFoundError. */
  function SelectVoice(language: string, voiceIndex: int, voicesDir: string, isFile: string -> bool): (r: Result<Selection, ScriptError>)
    ensures ConfigOf(LANGUAGE_CONFIG, language).None?
            ==> r == Err(ValueError("Unsupported language: " + language + ". Supported: " + SUPPORTED_CODES))
    ensures ConfigOf(LANGUAGE_CONFIG, language).Some? && voiceIndex >= |ConfigOf(LANGUAGE_CONFIG, language).value.voices|
            ==> r.Err? && r.error.ValueError?
    ensures ConfigOf(LANGUAGE_CONFIG, language).Some? && voiceIndex < -|ConfigOf(LANGUAGE_CONFIG, language).value.voices|
            ==> r == Err(IndexError("list index out of range"))
    ensures r.Ok? ==> ConfigOf(LANGUAGE_CONFIG, language) == Some(r.value.config)
                      && PyIndex(r.value.config.voices, voiceIndex) == Ok(r.value.voiceName)
                      && r.value.path == JoinPath(voicesDir, PresetFilename(language, r.value.voiceName))
                      && isFile(r.value.path)
    ensures ConfigOf(LANGUAGE_CONFIG, language).Some? && PyIndex(ConfigOf(LANGUAGE_CONFIG, language).value.voices, voiceIndex).Ok?
            && voiceIndex < |ConfigOf(LANGUAGE_CONFIG, language).value.voices|
            ==> var path := JoinPath(voicesDir, PresetFilename(language, PyIndex(ConfigOf(LANGUAGE_CONFIG, language).value.voices, voiceIndex).value));
                r == (if isFile(path) then Ok(Selection(ConfigOf(LANGUAGE_CONFIG, language).value,
                                                      PyIndex(ConfigOf(LANGUAGE_CONFIG, language).value.voices, voiceIndex).value, path))
                      else Err(FileNotFound("Voice preset not found: " + path)))
  {
    match ConfigOf(LANGUAGE_CONFIG, language)
    case None => Err(ValueError("Unsupported language: " + language + ". Supported: " + SUPPORTED_CODES))
    case Some(config) =>
      if voiceIndex >= |config.voices| then
        Err(ValueError("Voice index " + NatToString(voiceIndex) + " out of range. Available voices for "
                       + config.name + ": " + ListRepr(config.voices)))
      else
        match PyIndex(config.voices, voiceIndex)
        case Err(e) => Err(e)
        case Ok(voiceName) =>
          var path := JoinPath(voicesDir, PresetFilename(language, voiceName));
          if !isFile(path) then Err(FileNotFound("Voice preset not found: " + path))
          else Ok(Selection(config, voiceName, path))
  }

  /** Every language has at least one voice, so the demo's defaults
      ("sp", index 0) and "first voice of each language" always exist. */
  lemma EveryLanguageHasAVoice()
    ensures AllHaveVoices(LANGUAGE_CONFIG)
  {
  }

  /** A negative index is not refused by the range check: -1 picks the last
      voice of the language. */
  lemma NegativeIndexPicksFromEnd(language: string, voicesDir: string, isFile: string -> bool)
    requires ConfigOf(LANGUAGE_CONFIG, language).Some?
    requires var c := ConfigOf(LANGUAGE_CONFIG, language).value;
             c.voices != [] && isFile(JoinPath(voicesDir, PresetFilename(language, c.voices[|c.voices| - 1])))
    ensures var c := ConfigOf(LANGUAGE_CONFIG, language).value;
            SelectVoice(language, -1, voicesDir, isFile) == Ok(Selection(c, c.voices[|c.voices| - 1],
                                                          JoinPath(voicesDir, PresetFilename(language, c.voices[|c.voices| - 1]))))
  {
  }

  /** Step 7: `CUSTOM_TEXT` when it is non-empty, else the sample text. */
  function ChooseText(customText: string, config: LangConfig): (text: string)
    ensures customText != [] ==> text == customText
    ensures customText == [] ==> text == config.sampleText
  {
    if customText != [] then customText else config.sampleText
  }

  // ---------------------------------------------------------------------
  // Downloading

  /** The presets of one language, in its voice order. */
  function LanguageFiles(lang: string, voices: seq<string>): (fs: seq<string>)
    ensures |fs| == |voices| && forall j :: 0 <= j < |voices| ==> fs[j] == PresetFilename(lang, voices[j])
  {
    seq(|voices|, j requires 0 <= j < |voices| => PresetFilename(lang, voices[j]))
  }

  /** One more voice adds its preset at the end of the language's files. */
  lemma LanguageFilesSnoc(lang: string, voices: seq<string>, j: nat)
    requires j < |voices|
    ensures LanguageFiles(lang, voices[..j + 1]) == LanguageFiles(lang, voices[..j]) + [PresetFilename(lang, voices[j])]
  {
    var longer := LanguageFiles(lang, voices[..j + 1]);
    var shorter := LanguageFiles(lang, voices[..j]) + [PresetFilename(lang, voices[j])];
    forall k | 0 <= k < |longer| ensures longer[k] == shorter[k] {
      assert voices[..j + 1][k] == voices[k];
      if k < j {
        assert voices[..j][k] == voices[k];
      }
    }
  }

  /** The download list: languages in table order, each language's voices in
      order. */
  function PresetFiles(configs: seq<(string, LangConfig)>): seq<string> {
    if configs == [] then []
    else LanguageFiles(configs[0].0, configs[0].1.voices) + PresetFiles(configs[1..])
  }

  lemma {:induction false} PresetFilesSnoc(configs: seq<(string, LangConfig)>, c: (string, LangConfig))
    ensures PresetFiles(configs + [c]) == PresetFiles(configs) + LanguageFiles(c.0, c.1.voices)
  {
    if configs != [] {
      assert (configs + [c])[1..] == configs[1..] + [c];
      PresetFilesSnoc(configs[1..], c);
    }
  }

  function TotalVoices(configs: seq<(string, LangConfig)>): nat {
    if configs == [] then 0 else |configs[0].1.voices| + TotalVoices(configs[1..])
  }

  /** The list is as long as the table has voices, and it lists exactly the
      file name of every (language, voice) pair. */
  lemma {:induction false} PresetFilesComplete(configs: seq<(string, LangConfig)>, f: string)
    ensures |PresetFiles(configs)| == TotalVoices(configs)
    ensures f in PresetFiles(configs) <==>
              exists i, j :: 0 <= i < |configs| && 0 <= j < |configs[i].1.voices|
                             && f == PresetFilename(configs[i].0, configs[i].1.voices[j])
  {
    if configs != [] {
      PresetFilesComplete(configs[1..], f);
      var here := LanguageFiles(configs[0].0, configs[0].1.voices);
      assert PresetFiles(configs) == here + PresetFiles(configs[1..]);
      if f in PresetFiles(configs[1..]) {
        var i, j :| 0 <= i < |configs[1..]| && 0 <= j < |configs[1..][i].1.voices|
                    && f == PresetFilename(configs[1..][i].0, configs[1..][i].1.voices[j]);
        assert configs[1..][i] == configs[i + 1];
      }
      if f in here {
        var j :| 0 <= j < |here| && here[j] == f;
        assert f == PresetFilename(configs[0].0, configs[0].1.voices[j]);
      }
      if exists i, j :: 0 <= i < |configs| && 0 <= j < |configs[i].1.voices|
                        && f == PresetFilename(configs[i].0, configs[i].1.voices[j]) {
        var i, j :| 0 <= i < |configs| && 0 <= j < |configs[i].1.voices|
                    && f == PresetFilename(configs[i].0, configs[i].1.voices[j]);
        if i == 0 {
          assert here[j] == f;
        } else {
          assert configs[1..][i - 1] == configs[i];
        }
      }
    }
  }

  lemma TotalVoicesOfTable()
    ensures TotalVoices(LANGUAGE_CONFIG) == 23
  {
  }

  /** `download_voices`, first half: the nested loops that build the list
      (the script passes `LANGUAGE_CONFIG`). */
  method DownloadList(configs: seq<(string, LangConfig)>) returns (voices: seq<string>)
    ensures voices == PresetFiles(configs)
  {
    voices := [];
    var i := 0;
    while i < |configs|
      invariant 0 <= i <= |configs|
      invariant voices == PresetFiles(configs[..i])
    {
      var (langCode, config) := configs[i];
      ghost var before := voices;
      var j := 0;
      while j < |config.voices|
        invariant 0 <= j <= |config.voices|
        invariant voices == before + LanguageFiles(langCode, config.voices[..j])
      {
        LanguageFilesSnoc(langCode, config.voices, j);
        voices := voices + [PresetFilename(langCode, config.voices[j])];
        j := j + 1;
      }
      assert config.voices[..j] == config.voices;
      PresetFilesSnoc(configs[..i], configs[i]);
      assert configs[..i] + [configs[i]] == configs[..i + 1];
      i := i + 1;
    }
    assert configs[..i] == configs;
  }

  /** The number of files that were missing and then fetched. */
  function Fetched(voices: seq<string>, voicesDir: string, isFile: string -> bool, fetch: string -> bool): (n: nat)
    ensures n <= |voices|
  {
    if voices == [] then 0
    else
      (if !isFile(JoinPath(voicesDir, voices[0])) && fetch(voices[0]) then 1 else 0)
      + Fetched(voices[1..], voicesDir, isFile, fetch)
  }

  /** Files already on disk are never fetched, so `downloaded` is zero when
      every preset is present. */
  lemma {:induction false} NothingFetchedWhenPresent(voices: seq<string>, voicesDir: string, isFile: string -> bool, fetch: string -> bool)
    requires forall k :: 0 <= k < |voices| ==> isFile(JoinPath(voicesDir, voices[k]))
    ensures Fetched(voices, voicesDir, isFile, fetch) == 0
  {
    if voices != [] {
      assert forall k :: 0 <= k < |voices[1..]| ==> voices[1..][k] == voices[k + 1];
      NothingFetchedWhenPresent(voices[1..], voicesDir, isFile, fetch);
    }
  }

  lemma {:induction false} FetchedAppend(voices: seq<string>, v: string, voicesDir: string, isFile: string -> bool, fetch: string -> bool)
    ensures Fetched(voices + [v], voicesDir, isFile, fetch)
            == Fetched(voices, voicesDir, isFile, fetch) + (if !isFile(JoinPath(voicesDir, v)) && fetch(v) then 1 else 0)
  {
    if voices != [] {
      assert (voices + [v])[1..] == voices[1..] + [v];
      FetchedAppend(voices[1..], v, voicesDir, isFile, fetch);
    }
  }

  /** `download_voices`, second half: a failed fetch is reported and skipped;
      `downloaded` counts only the missing files that were fetched. */
  method DownloadMissing(voices: seq<string>, voicesDir: string, isFile: string -> bool, fetch: string -> bool)
    returns (downloaded: nat)
    ensures downloaded == Fetched(voices, voicesDir, isFile, fetch)
  {
    downloaded := 0;
    var k := 0;
    while k < |voices|
      invariant 0 <= k <= |voices|
      invariant downloaded == Fetched(voices[..k], voicesDir, isFile, fetch)
    {
      var dest := JoinPath(voicesDir, voices[k]);
      FetchedAppend(voices[..k], voices[k], voicesDir, isFile, fetch);
      assert voices[..k + 1] == voices[..k] + [voices[k]];
      if !isFile(dest) {
        if fetch(voices[k]) {
          downloaded := downloaded + 1;
        }
      }
      k := k + 1;
    }
    assert voices[..k] == voices;
  }

  // ---------------------------------------------------------------------
  // Every language

  /** One language `generate_all_languages` synthesises. */
  datatype Generated = Generated(lang: string, voiceName: string, path: string, text: string, outFile: string)

  /** What the loop over the languages did: the languages generated, in
      order, and the message of the exception that ended it, if any. */
  datatype GenerationRun = GenerationRun(generated: seq<Generated>, error: Option<string>)

  /** Every language of the table has a voice to start with. */
  predicate AllHaveVoices(configs: seq<(string, LangConfig)>) {
    forall i :: 0 <= i < |configs| ==> configs[i].1.voices != []
  }

  /** The language with its first voice, that voice's preset path, its
      sample text and `output_<lang>.wav`. */
  function Entry(code: string, config: LangConfig, voicesDir: string): Generated
    requires config.voices != []
  {
    var path := JoinPath(voicesDir, PresetFilename(code, config.voices[0]));
    Generated(code, config.voices[0], path, config.sampleText, "output_" + code + ".wav")
  }

  /** The entry of every language of the table, in table order. */
  function Entries(configs: seq<(string, LangConfig)>, voicesDir: string): (es: seq<Generated>)
    requires AllHaveVoices(configs)
    ensures |es| == |configs|
  {
    if configs == [] then []
    else [Entry(configs[0].0, configs[0].1, voicesDir)] + Entries(configs[1..], voicesDir)
  }

  /** The `k`-th entry is the one language `k` would generate. */
  lemma {:induction false} EntriesAt(configs: seq<(string, LangConfig)>, voicesDir: string, k: nat)
    requires AllHaveVoices(configs) && k < |configs|
    ensures Entries(configs, voicesDir)[k] == Entry(configs[k].0, configs[k].1, voicesDir)
    decreases k
  {
    if k > 0 {
      EntriesAt(configs[1..], voicesDir, k - 1);
    }
  }

  /** What a pass of the loop attempts: the entry when its preset exists,
      nothing when the language is skipped. */
  function GeneratedOne(e: Generated, isFile: string -> bool): seq<Generated> {
    if isFile(e.path) then [e] else []
  }

  /** A language attempts at most one entry, for its first voice, and only
      when that preset exists. */
  lemma GeneratedOneSpec(code: string, config: LangConfig, voicesDir: string, isFile: string -> bool)
    requires config.voices != []
    ensures var gs := GeneratedOne(Entry(code, config, voicesDir), isFile);
            && |gs| <= 1
            && (gs != [] <==> isFile(JoinPath(voicesDir, PresetFilename(code, config.voices[0]))))
            && forall g :: g in gs ==> g.lang == code && g.voiceName == config.voices[0]
                                       && g.path == JoinPath(voicesDir, PresetFilename(code, config.voices[0]))
  {
  }

  /** One pass of the loop: a skipped language, a generated one, or the
      exception `engine` raises for it (`torch.load`, `generate` or
      `save_audio`; None when they succeed). */
  function StepOne(e: Generated, isFile: string -> bool, engine: Generated -> Option<string>): GenerationRun {
    var here := GeneratedOne(e, isFile);
    if here != [] && engine(e).Some? then GenerationRun([], engine(e))
    else GenerationRun(here, None)
  }

  /** The entries from index `i` on, until the first one whose generation
      raises. */
  function GeneratedFrom(es: seq<Generated>, i: nat, isFile: string -> bool,
                         engine: Generated -> Option<string>): GenerationRun
    requires i <= |es|
    decreases |es| - i
  {
    if i == |es| then GenerationRun([], None)
    else
      var step := StepOne(es[i], isFile, engine);
      if step.error.Some? then step
      else
        var rest := GeneratedFrom(es, i + 1, isFile, engine);
        GenerationRun(step.generated + rest.generated, rest.error)
  }

  /** Entry `k` is attempted and its generation raises. */
  predicate Fails(es: seq<Generated>, k: nat, isFile: string -> bool, engine: Generated -> Option<string>)
    requires k < |es|
  {
    isFile(es[k].path) && engine(es[k]).Some?
  }

  /** No entry from `i` up to, not including, `k` is attempted and
      raises. */
  predicate NoneFailBetween(es: seq<Generated>, i: nat, k: nat, isFile: string -> bool,
                            engine: Generated -> Option<string>)
    requires i <= k <= |es|
  {
    forall m :: i <= m < k ==> !Fails(es, m, isFile, engine)
  }

  /** Before `k`, no entry from `i` on fails iff `i` does not fail and
      none from `i + 1` on does. */
  lemma NoneFailsFrom(es: seq<Generated>, i: nat, k: nat, isFile: string -> bool,
                      engine: Generated -> Option<string>)
    requires i < k <= |es|
    ensures NoneFailBetween(es, i, k, isFile, engine)
            <==> !Fails(es, i, isFile, engine) && NoneFailBetween(es, i + 1, k, isFile, engine)
  {
  }

  /** One step of the loop, in terms of `Fails`: a failing entry ends the
      run with its exception and generates nothing; otherwise its attempt
      is kept and the run goes on. */
  lemma GeneratedFromStep(es: seq<Generated>, i: nat, isFile: string -> bool, engine: Generated -> Option<string>)
    requires i < |es|
    ensures var run := GeneratedFrom(es, i, isFile, engine);
            var rest := GeneratedFrom(es, i + 1, isFile, engine);
            if Fails(es, i, isFile, engine)
            then run == GenerationRun([], engine(es[i]))
            else run == GenerationRun(GeneratedOne(es[i], isFile) + rest.generated, rest.error)
  {
  }

  /** The loop ends with an exception exactly when some attempted entry
      fails. */
  lemma {:induction false} GenerationRaisesIffSomeFails(es: seq<Generated>, i: nat, isFile: string -> bool,
                                                        engine: Generated -> Option<string>)
    requires i <= |es|
    ensures GeneratedFrom(es, i, isFile, engine).error.None? <==> NoneFailBetween(es, i, |es|, isFile, engine)
    decreases |es| - i
  {
    if i < |es| {
      GenerationRaisesIffSomeFails(es, i + 1, isFile, engine);
      GeneratedFromStep(es, i, isFile, engine);
      NoneFailsFrom(es, i, |es|, isFile, engine);
    } else {
      assert NoneFailBetween(es, i, |es|, isFile, engine);
    }
  }

  /** An exception that ends the loop is that of the first attempted entry
      that fails. */
  lemma {:induction false} GenerationRaisesFirstFailure(es: seq<Generated>, i: nat, isFile: string -> bool,
                                                        engine: Generated -> Option<string>)
    requires i <= |es|
    ensures var run := GeneratedFrom(es, i, isFile, engine);
            run.error.Some? ==>
              exists k :: i <= k < |es| && Fails(es, k, isFile, engine) && run.error == engine(es[k])
                          && NoneFailBetween(es, i, k, isFile, engine)
    decreases |es| - i
  {
    if i < |es| {
      GeneratedFromStep(es, i, isFile, engine);
      var run := GeneratedFrom(es, i, isFile, engine);
      if Fails(es, i, isFile, engine) {
        assert NoneFailBetween(es, i, i, isFile, engine);
      } else if run.error.Some? {
        GenerationRaisesFirstFailure(es, i + 1, isFile, engine);
        var k :| i + 1 <= k < |es| && Fails(es, k, isFile, engine) && run.error == engine(es[k])
                 && NoneFailBetween(es, i + 1, k, isFile, engine);
        NoneFailsFrom(es, i, k, isFile, engine);
      }
    }
  }

  /** Every generated entry is one of the run's entries, with an existing
      preset, whose generation did not raise. */
  lemma {:induction false} GeneratedAreEntries(es: seq<Generated>, i: nat, isFile: string -> bool,
                                               engine: Generated -> Option<string>)
    requires i <= |es|
    ensures forall g :: g in GeneratedFrom(es, i, isFile, engine).generated ==>
              exists k :: i <= k < |es| && g == es[k] && isFile(g.path) && engine(g).None?
    decreases |es| - i
  {
    if i < |es| {
      GeneratedFromStep(es, i, isFile, engine);
      GeneratedAreEntries(es, i + 1, isFile, engine);
    }
  }

  /** Every generated language used its first voice and an existing preset,
      and its generation did not raise. */
  lemma GeneratedUsesFirstVoice(configs: seq<(string, LangConfig)>, voicesDir: string,
                                isFile: string -> bool, engine: Generated -> Option<string>)
    requires AllHaveVoices(configs)
    ensures forall g :: g in GeneratedFrom(Entries(configs, voicesDir), 0, isFile, engine).generated ==>
              exists k :: 0 <= k < |configs| && g == Entry(configs[k].0, configs[k].1, voicesDir)
                          && g.lang == configs[k].0 && g.voiceName == configs[k].1.voices[0]
                          && g.path == JoinPath(voicesDir, PresetFilename(g.lang, g.voiceName)) && isFile(g.path)
                          && engine(g).None?
  {
    var es := Entries(configs, voicesDir);
    GeneratedAreEntries(es, 0, isFile, engine);
    forall g | g in GeneratedFrom(es, 0, isFile, engine).generated
      ensures exists k :: 0 <= k < |configs| && g == Entry(configs[k].0, configs[k].1, voicesDir)
                          && g.lang == configs[k].0 && g.voiceName == configs[k].1.voices[0]
                          && g.path == JoinPath(voicesDir, PresetFilename(g.lang, g.voiceName)) && isFile(g.path)
                          && engine(g).None?
    {
      var k :| 0 <= k < |es| && g == es[k] && isFile(g.path) && engine(g).None?;
      EntriesAt(configs, voicesDir, k);
    }
  }

  /** Some generated entry is for language `code`. */
  predicate HasLang(gs: seq<Generated>, code: string) {
    exists g :: g in gs && g.lang == code
  }

  lemma HasLangAppend(a: seq<Generated>, b: seq<Generated>, code: string)
    ensures HasLang(a + b, code) <==> HasLang(a, code) || HasLang(b, code)
  {
    if HasLang(a + b, code) {
      var g :| g in a + b && g.lang == code;
      assert g in a || g in b;
    }
    if HasLang(b, code) {
      var g :| g in b && g.lang == code;
      assert g in a + b;
    }
  }

  /** When no other entry has its language, entry `k`'s language is
      generated exactly when its preset exists, its own generation does
      not raise, and no entry before it ended the loop. */
  lemma {:induction false} GeneratedIffAttempted(es: seq<Generated>, i: nat, isFile: string -> bool,
                                                 engine: Generated -> Option<string>, k: nat)
    requires i <= k < |es|
    requires forall m :: 0 <= m < |es| && m != k ==> es[m].lang != es[k].lang
    ensures HasLang(GeneratedFrom(es, i, isFile, engine).generated, es[k].lang)
            <==> isFile(es[k].path) && engine(es[k]).None? && NoneFailBetween(es, i, k, isFile, engine)
    decreases |es| - i
  {
    GeneratedFromStep(es, i, isFile, engine);
    var code := es[k].lang;
    var run := GeneratedFrom(es, i, isFile, engine);
    if Fails(es, i, isFile, engine) {
      assert run.generated == [];
      assert !HasLang(run.generated, code);
    } else {
      var here := GeneratedOne(es[i], isFile);
      var rest := GeneratedFrom(es, i + 1, isFile, engine);
      HasLangAppend(here, rest.generated, code);
      if i == k {
        GeneratedAreEntries(es, i + 1, isFile, engine);
        assert !HasLang(rest.generated, code);
        assert NoneFailBetween(es, i, i, isFile, engine);
        if here != [] {
          assert here[0] in here && here[0].lang == code;
        }
      } else {
        assert !HasLang(here, code);
        GeneratedIffAttempted(es, i + 1, isFile, engine, k);
        NoneFailsFrom(es, i, k, isFile, engine);
      }
    }
  }

  /** When no other language has its code, a language is generated exactly
      when its first-voice preset exists, its own generation does not
      raise, and no language before it ended the loop. */
  lemma GeneratedIffPresetExists(configs: seq<(string, LangConfig)>, voicesDir: string,
                                 isFile: string -> bool, engine: Generated -> Option<string>, k: nat)
    requires AllHaveVoices(configs) && k < |configs|
    requires forall m :: 0 <= m < |configs| && m != k ==> configs[m].0 != configs[k].0
    ensures HasLang(GeneratedFrom(Entries(configs, voicesDir), 0, isFile, engine).generated, configs[k].0)
            <==> isFile(JoinPath(voicesDir, PresetFilename(configs[k].0, configs[k].1.voices[0])))
                 && engine(Entry(configs[k].0, configs[k].1, voicesDir)).None?
                 && NoneFailBetween(Entries(configs, voicesDir), 0, k, isFile, engine)
  {
    var es := Entries(configs, voicesDir);
    forall m | 0 <= m < |es|
      ensures es[m].lang == configs[m].0
    {
      EntriesAt(configs, voicesDir, m);
    }
    EntriesAt(configs, voicesDir, k);
    GeneratedIffAttempted(es, 0, isFile, engine, k);
  }

  lemma TableCodesDistinct()
    ensures forall i, j :: 0 <= i < j < |LANGUAGE_CONFIG| ==> LANGUAGE_CONFIG[i].0 != LANGUAGE_CONFIG[j].0
  {
  }

  /** One pass of the loop of `generate_all_languages`: the language is
      generated with its first voice when that preset exists, unless the
      engine raises. */
  method GenerateLanguage(langCode: string, config: LangConfig, voicesDir: string, isFile: string -> bool,
                          engine: Generated -> Option<string>)
    returns (generated: seq<Generated>, error: Option<string>)
    requires config.voices != []
    ensures GenerationRun(generated, error) == StepOne(Entry(langCode, config, voicesDir), isFile, engine)
  {
    var voiceName := config.voices[0];
    var voicePath := JoinPath(voicesDir, PresetFilename(langCode, voiceName));
    generated, error := [], None;
    if isFile(voicePath) {
      var entry := Generated(langCode, voiceName, voicePath, config.sampleText, "output_" + langCode + ".wav");
      var failure := engine(entry);
      if failure.Some? {
        error := failure;
      } else {
        generated := [entry];
      }
    }
  }

  /** `generate_all_languages`: the loop over the table, skipping languages
      whose first-voice preset is missing and ending at the first exception
      (the script passes `LANGUAGE_CONFIG`, where every language has a
      voice). */
  method GenerateAllLanguages(configs: seq<(string, LangConfig)>, voicesDir: string, isFile: string -> bool,
                              engine: Generated -> Option<string>)
    returns (generated: seq<Generated>, error: Option<string>)
    requires AllHaveVoices(configs)
    ensures GenerationRun(generated, error) == GeneratedFrom(Entries(configs, voicesDir), 0, isFile, engine)
  {
    ghost var es := Entries(configs, voicesDir);
    generated, error := [], None;
    var i := 0;
    while i < |configs|
      invariant 0 <= i <= |configs|
      invariant var rest := GeneratedFrom(es, i, isFile, engine);
                GeneratedFrom(es, 0, isFile, engine) == GenerationRun(generated + rest.generated, rest.error)
    {
      var (langCode, config) := configs[i];
      var here, failure := GenerateLanguage(langCode, config, voicesDir, isFile, engine);
      EntriesAt(configs, voicesDir, i);
      assert StepOne(es[i], isFile, engine) == GenerationRun(here, failure);
      if failure.Some? {
        error := failure;
        return;
      }
      ghost var rest := GeneratedFrom(es, i + 1, isFile, engine);
      assert GeneratedFrom(es, i, isFile, engine) == GenerationRun(here + rest.generated, rest.error);
      assert (generated + here) + rest.generated == generated + (here + rest.generated);
      generated := generated + here;
      i := i + 1;
    }
  }
}
