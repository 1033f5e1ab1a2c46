/** The batch text-to-speech script (`scenario-05-batch-processing/batch_tts.py`):
    voice resolution, the optional YAML front matter of a text file, the
    per-file result record and the run's summary. The directory listing, YAML
    parsing, `torch.load`, the synthesiser and the WAV writer are parameters. */
module BatchTts {
  import opened Wrappers
  import opened Text

  const SAMPLE_RATE: int := 24000

  /** `VOICE_PRESETS`, in its insertion order. */
  const VOICE_PRESETS: seq<(string, string)> := [
    ("carter", "en-Carter_man.pt"), ("davis", "en-Davis_man.pt"), ("emma", "en-Emma_woman.pt"),
    ("frank", "en-Frank_man.pt"), ("grace", "en-Grace_woman.pt"), ("mike", "en-Mike_man.pt"),
    ("de-man", "de-Spk0_man.pt"), ("de-woman", "de-Spk1_woman.pt"),
    ("fr-man", "fr-Spk0_man.pt"), ("fr-woman", "fr-Spk1_woman.pt"),
    ("es-woman", "sp-Spk0_woman.pt"), ("es-man", "sp-Spk1_man.pt")
  ]

  const AVAILABLE_KEYS: string :=
    "carter, davis, emma, frank, grace, mike, de-man, de-woman, fr-man, fr-woman, es-woman, es-man"

  /** The preset keys are distinct, so the table is a dict. */
  lemma PresetKeysDistinct()
    ensures forall i, j :: 0 <= i < j < |VOICE_PRESETS| ==> VOICE_PRESETS[i].0 != VOICE_PRESETS[j].0
  {
  }

  function PresetFile(key: string): (r: Option<string>)
    ensures r.Some? <==> exists i :: 0 <= i < |VOICE_PRESETS| && VOICE_PRESETS[i].0 == key
    ensures r.Some? ==> exists i :: 0 <= i < |VOICE_PRESETS| && VOICE_PRESETS[i] == (key, r.value)
  {
    PresetIn(VOICE_PRESETS, key)
  }

  function PresetIn(table: seq<(string, string)>, key: string): (r: Option<string>)
    ensures r.Some? <==> exists i :: 0 <= i < |table| && table[i].0 == key
    ensures r.Some? ==> exists i :: 0 <= i < |table| && table[i] == (key, r.value)
  {
    if table == [] then None
    else if table[0].0 == key then Some(table[0].1)
    else
      var r := PresetIn(table[1..], key);
      assert forall i :: 1 <= i < |table| ==> table[1..][i - 1] == table[i];
      r
  }

  // ---------------------------------------------------------------------
  // Voice resolution

  /** Python exceptions that matter here: `process_file` treats a
      FileNotFoundError from the override voice differently. */
  datatype Exc = FileNotFound(message: string) | OtherExc(message: string)

  datatype Prefilled = Prefilled(source: string)

  predicate DirMatch(f: string, lowerName: string) {
    Contains(Lower(f), lowerName) && EndsWith(f, ".pt")
  }

  /** `matches[0]` of the directory comprehension, as an index. */
  function FirstMatch(listing: seq<string>, lowerName: string): (r: Option<nat>)
    ensures r.Some? ==> r.value < |listing| && DirMatch(listing[r.value], lowerName)
                        && forall j :: 0 <= j < r.value ==> !DirMatch(listing[j], lowerName)
    ensures r.None? ==> forall j :: 0 <= j < |listing| ==> !DirMatch(listing[j], lowerName)
  {
    if listing == [] then None
    else if DirMatch(listing[0], lowerName) then Some(0)
    else match FirstMatch(listing[1..], lowerName)
      case None => None
      case Some(k) => Some(k + 1)
  }

  /** The preset file `load_voice` opens, given `os.listdir(VOICES_DIR)`
      (None when the directory does not exist). */
  function ResolveVoiceFile(voiceName: string, voicesDir: string, listing: Option<seq<string>>): (r: Result<string, Exc>)
    // An exact key, compared in lower case, wins over any directory match.
    ensures PresetFile(Lower(voiceName)).Some? ==> r == Ok(JoinPath(voicesDir, PresetFile(Lower(voiceName)).value))
    // Otherwise the first listed ".pt" file whose lower-cased name contains the lower-cased voice name.
    ensures PresetFile(Lower(voiceName)).None? && r.Ok?
            ==> listing.Some? &&
                exists k :: (0 <= k < |listing.value| && r.value == JoinPath(voicesDir, listing.value[k])
                             && DirMatch(listing.value[k], Lower(voiceName))
                             && forall j :: 0 <= j < k ==> !DirMatch(listing.value[j], Lower(voiceName)))
    ensures r.Err? <==> PresetFile(Lower(voiceName)).None?
                        && (listing.None? || forall j :: 0 <= j < |listing.value| ==> !DirMatch(listing.value[j], Lower(voiceName)))
    ensures r.Err? ==> r.error.FileNotFound?
  {
    var lowerName := Lower(voiceName);
    match PresetFile(lowerName)
    case Some(file) => Ok(JoinPath(voicesDir, file))
    case None =>
      if listing.None? then Err(FileNotFound("[Errno 2] No such file or directory: '" + voicesDir + "'"))
      else match FirstMatch(listing.value, lowerName)
        case None => Err(FileNotFound("No voice preset for '" + voiceName + "'. Available: " + AVAILABLE_KEYS))
        case Some(k) => Ok(JoinPath(voicesDir, listing.value[k]))
  }

  /** The file and directory state `load_voice` depends on. */
  datatype VoiceStore = VoiceStore(voicesDir: string, listing: Option<seq<string>>,
                                   torchLoad: string -> Result<Prefilled, Exc>)

  /** `load_voice(voice_name, device)`. */
  function LoadVoice(voiceName: string, store: VoiceStore): Result<Prefilled, Exc> {
    match ResolveVoiceFile(voiceName, store.voicesDir, store.listing)
    case Err(e) => Err(e)
    case Ok(path) => store.torchLoad(path)
  }

  // ---------------------------------------------------------------------
  // Front matter: the pattern ^---\s*\n(.*?)\n---\s*\n with DOTALL

  /** The length of the whitespace run at `i`. */
  function SpaceRun(s: string, i: nat): (n: nat)
    requires i <= |s|
    ensures i + n <= |s| && AllSpace(s[i..i + n]) && (i + n == |s| || !IsSpace(s[i + n]))
    decreases |s| - i
  {
    if i < |s| && IsSpace(s[i]) then
      var n := SpaceRun(s, i + 1);
      assert s[i..i + 1 + n] == [s[i]] + s[i + 1..i + 1 + n];
      1 + n
    else 0
  }

  /** The last newline in `s[lo..hi]`, which is where a greedy `\s*` followed
      by `\n` first succeeds. */
  function LastNewline(s: string, lo: nat, hi: nat): (r: Option<nat>)
    requires lo <= hi <= |s|
    ensures r.Some? ==> lo <= r.value < hi && s[r.value] == '\n'
                        && forall j :: r.value < j < hi ==> s[j] != '\n'
    ensures r.None? ==> forall j :: lo <= j < hi ==> s[j] != '\n'
    decreases hi - lo
  {
    if lo == hi then None
    else if s[hi - 1] == '\n' then Some(hi - 1)
    else LastNewline(s, lo, hi - 1)
  }

  /** `s[x..e]` is "\n---", whitespace, and a final newline. */
  predicate Closes(s: string, x: nat, e: nat) {
    x + 5 <= e <= |s| && s[x..x + 4] == "\n---" && AllSpace(s[x + 4..e - 1]) && s[e - 1] == '\n'
  }

  /** `\n---\s*\n` at `x`: the end of the match, if it closes there. */
  function CloseEnd(s: string, x: nat): (r: Option<nat>)
    requires x <= |s|
    ensures r.Some? ==> Closes(s, x, r.value)
    ensures x < |s| && s[x] != '\n' ==> r.None?
  {
    if x + 4 <= |s| && s[x..x + 4] == "\n---" then
      var q := x + 4;
      var w := SpaceRun(s, q);
      match LastNewline(s, q, q + w)
      case None => None
      case Some(p) =>
        assert s[q..p] == s[q..q + w][..p - q];
        Some(p + 1)
    else None
  }

  /** The lazy group: the shortest `s[start..start+g]` (from `g` on) followed by
      a closing delimiter. */
  function TryGroup(s: string, start: nat, g: nat): (r: Option<(string, nat)>)
    requires start + g <= |s|
    decreases |s| - start - g
  {
    match CloseEnd(s, start + g)
    case Some(e) => Some((s[start..start + g], e))
    case None => if start + g == |s| then None else TryGroup(s, start, g + 1)
  }

  /** What the lazy group returns is a piece of `s` from `start`, at least
      `g` long, followed by a closing delimiter. */
  lemma {:induction false} TryGroupSound(s: string, start: nat, g: nat)
    requires start + g <= |s|
    ensures var r := TryGroup(s, start, g);
            r.Some? ==> g <= |r.value.0| && start + |r.value.0| <= |s| && r.value.0 == s[start..start + |r.value.0|]
                        && Closes(s, start + |r.value.0|, r.value.1)
    decreases |s| - start - g
  {
    if CloseEnd(s, start + g).None? && start + g < |s| {
      TryGroupSound(s, start, g + 1);
    }
  }

  /** `s[..e]` is "---", whitespace, a newline at `p`, the group `g`, and
      the closing delimiter. */
  predicate IsMatch(s: string, p: nat, g: string, e: nat) {
    && 3 <= p && p + 1 + |g| <= |s|
    && s[..3] == "---" && AllSpace(s[3..p]) && s[p] == '\n'
    && s[p + 1..p + 1 + |g|] == g
    && Closes(s, p + 1 + |g|, e)
  }

  lemma OpeningIsSpace(s: string, p: nat)
    requires |s| >= 3 && 3 <= p <= 3 + SpaceRun(s, 3)
    ensures AllSpace(s[3..p])
  {
    var w := SpaceRun(s, 3);
    assert AllSpace(s[3..3 + w]);
    AllSpaceShorter(s, 3, p, 3 + w);
  }

  /** Backtracking over the opening `\s*\n`: newlines in `s[3..hi]`, the
      last first. */
  function TryOpen(s: string, hi: nat): (r: Option<(string, nat)>)
    requires |s| >= 3 && s[..3] == "---" && 3 <= hi <= 3 + SpaceRun(s, 3)
    ensures r.Some? ==> exists p :: IsMatch(s, p, r.value.0, r.value.1)
    decreases hi
  {
    match LastNewline(s, 3, hi)
    case None => None
    case Some(p) =>
      match TryGroup(s, p + 1, 0)
      case Some(m) =>
        TryGroupSound(s, p + 1, 0);
        GroupAfterOpening(s, p, m.0, m.1);
        Some(m)
      case None => TryOpen(s, p)
  }

  /** An opening newline at `p` followed by a group and a closing
      delimiter is a match. */
  lemma GroupAfterOpening(s: string, p: nat, g: string, e: nat)
    requires |s| >= 3 && s[..3] == "---" && 3 <= p <= 3 + SpaceRun(s, 3)
    requires p < |s| && s[p] == '\n'
    requires p + 1 + |g| <= |s| && s[p + 1..p + 1 + |g|] == g && Closes(s, p + 1 + |g|, e)
    ensures IsMatch(s, p, g, e)
  {
    OpeningIsSpace(s, p);
  }

  /** `FRONT_MATTER_PATTERN.match(raw)`: group 1 and `match.end()`. */
  function FrontMatter(s: string): (r: Option<(string, nat)>)
    ensures r.Some? ==> exists p :: IsMatch(s, p, r.value.0, r.value.1)
    ensures r.Some? ==> r.value.1 <= |s|
  {
    if |s| >= 3 && s[..3] == "---" then TryOpen(s, 3 + SpaceRun(s, 3)) else None
  }

  /** The lazy group cannot stop before a character that is not a newline. */
  lemma GroupSkipsOne(s: string, start: nat, g: nat)
    requires start + g < |s| && s[start + g] != '\n'
    ensures TryGroup(s, start, g) == TryGroup(s, start, g + 1)
  {
    assert CloseEnd(s, start + g).None?;
  }

  /** No newline in `s[lo..hi]`. */
  predicate NoNewline(s: string, lo: nat, hi: nat) {
    forall j :: lo <= j < hi && j < |s| ==> s[j] != '\n'
  }

  /** The lazy group skips every position that holds no newline. */
  lemma {:induction false} GroupSkipsToNewline(s: string, start: nat, g: nat, k: nat)
    requires start + k <= |s| && g <= k && NoNewline(s, start + g, start + k)
    ensures TryGroup(s, start, g) == TryGroup(s, start, k)
    decreases k - g
  {
    if g < k {
      GroupSkipsOne(s, start, g);
      GroupSkipsToNewline(s, start, g + 1, k);
    }
  }

  /** "---" and one newline open the match when the next character is not
      whitespace. */
  lemma OpeningAtThree(s: string)
    requires |s| >= 5 && s[..4] == "---\n" && !IsSpace(s[4])
    ensures SpaceRun(s, 3) == 1 && LastNewline(s, 3, 4) == Some(3)
  {
    assert s[3] == "---\n"[3];
    assert SpaceRun(s, 4) == 0;
  }

  /** "\n---\n" not followed by whitespace closes the match right there. */
  lemma ClosingAt(s: string, x: nat)
    requires x + 5 <= |s| && s[x..x + 5] == "\n---\n"
    requires x + 5 == |s| || !IsSpace(s[x + 5])
    ensures CloseEnd(s, x) == Some(x + 5)
  {
    assert s[x..x + 4] == s[x..x + 5][..4];
    assert s[x + 4] == s[x..x + 5][4];
    assert SpaceRun(s, x + 5) == 0;
    assert SpaceRun(s, x + 4) == 1;
    assert LastNewline(s, x + 4, x + 5) == Some(x + 4);
  }

  /** A one-line header of length `n` between the delimiters is group 1. */
  lemma FrontMatterOfOneLine(s: string, n: nat)
    requires 0 < n && n + 9 <= |s| && s[..4] == "---\n" && !IsSpace(s[4])
    requires NoNewline(s, 4, 4 + n)
    requires s[4 + n..n + 9] == "\n---\n" && (n + 9 == |s| || !IsSpace(s[n + 9]))
    ensures FrontMatter(s) == Some((s[4..4 + n], n + 9))
  {
    OpeningAtThree(s);
    GroupSkipsToNewline(s, 4, 0, n);
    ClosingAt(s, 4 + n);
    assert TryGroup(s, 4, n) == Some((s[4..4 + n], n + 9));
  }

  /** The usual header: a single-line front matter that starts with a
      non-blank character, followed by text that does not start with
      whitespace. */
  lemma FrontMatterOfSimpleHeader(g: string, rest: string)
    requires g != [] && !IsSpace(g[0]) && '\n' !in g
    requires rest == [] || !IsSpace(rest[0])
    ensures FrontMatter("---\n" + g + "\n---\n" + rest) == Some((g, |g| + 9))
  {
    var s := "---\n" + g + "\n---\n" + rest;
    var n := |g|;
    assert s[..4] == "---\n";
    assert s[4] == g[0];
    assert s[4..4 + n] == g;
    assert NoNewline(s, 4, 4 + n) by {
      forall j | 4 <= j < 4 + n ensures s[j] != '\n' {
        assert s[j] == g[j - 4];
      }
    }
    assert s[4 + n..n + 9] == "\n---\n";
    assert rest != [] ==> s[n + 9] == rest[0];
    FrontMatterOfOneLine(s, n);
  }

  // ---------------------------------------------------------------------
  // Parsing a text file

  /** A YAML value as far as this script looks at it. */
  datatype YamlValue = YStr(s: string) | YNull | YOther(typeName: string, truthy: bool)

  /** What `yaml.safe_load` made of the front matter: an error, a mapping
      (with the value of its "voice" key, YNull when absent), or anything else. */
  datatype YamlDoc = YamlError(message: string) | YamlMapping(voice: YamlValue) | YamlNotMapping

  predicate YTruthy(v: YamlValue) {
    match v
    case YStr(s) => s != []
    case YNull => false
    case YOther(_, truthy) => truthy
  }

  /** `parse_text_file`: the text to speak and the override voice. */
  function ParseTextFile(raw: string, yaml: string -> YamlDoc): (r: Result<(string, YamlValue), string>)
    // Without front matter: the whole stripped file and no override.
    ensures FrontMatter(raw).None? ==> r == Ok((Strip(raw), YNull))
    // With it: the stripped remainder after the closing delimiter.
    ensures FrontMatter(raw).Some? && r.Ok? ==> r.value.0 == Strip(raw[FrontMatter(raw).value.1..])
    // The voice comes only from a mapping.
    ensures r.Ok? && r.value.1 != YNull
            ==> FrontMatter(raw).Some? && yaml(FrontMatter(raw).value.0) == YamlMapping(r.value.1)
    ensures r.Err? ==> FrontMatter(raw).Some? && yaml(FrontMatter(raw).value.0).YamlError?
    // Given front matter, the YAML outcome decides the rest.
    ensures FrontMatter(raw).Some? ==>
              var (group, end) := FrontMatter(raw).value;
              (yaml(group).YamlError? <==> r.Err?)
              && (yaml(group).YamlError? ==> r.error == yaml(group).message)
              && (yaml(group).YamlMapping? ==> r == Ok((Strip(raw[end..]), yaml(group).voice)))
              && (yaml(group).YamlNotMapping? ==> r == Ok((Strip(raw[end..]), YNull)))
  {
    match FrontMatter(raw)
    case None => Ok((Strip(raw), YNull))
    case Some((group, end)) =>
      match yaml(group)
      case YamlError(message) => Err(message)
      case YamlMapping(voice) => Ok((Strip(raw[end..]), voice))
      case YamlNotMapping => Ok((Strip(raw[end..]), YNull))
  }

  /** A file written with a one-line header `voice: ...` is read back as
      its body and that voice. */
  lemma ParseSimpleHeader(g: string, body: string, yaml: string -> YamlDoc, voice: YamlValue)
    requires g != [] && !IsSpace(g[0]) && '\n' !in g
    requires body == [] || !IsSpace(body[0])
    requires yaml(g) == YamlMapping(voice)
    ensures ParseTextFile("---\n" + g + "\n---\n" + body, yaml) == Ok((Strip(body), voice))
  {
    var raw := "---\n" + g + "\n---\n" + body;
    FrontMatterOfSimpleHeader(g, body);
    assert raw[|g| + 9..] == body;
  }

  // ---------------------------------------------------------------------
  // Per-file results

  datatype Status = Success | Failed

  function StatusText(s: Status): string {
    match s
    case Success => "success"
    case Failed => "failed"
  }

  /** The result dict of `process_file`; a duration in seconds is
      samples / 24000. The wall-clock "duration" is not modelled. */
  datatype FileResult = FileResult(file: string, status: Status, audioDuration: real, error: Option<string>)

  /** A text file: its name and its decoded content (or the decoding error). */
  datatype TextFile = TextFile(name: string, content: Result<string, string>)

  /** Everything `process_file` calls out to. */
  datatype Env = Env(
    yaml: string -> YamlDoc,
    store: VoiceStore,
    /** generation and `sf.write`: the sample count written, or the error. */
    synthesize: (string, Prefilled) -> Result<nat, string>)

  /** The voice the file is spoken with: an override that cannot be found
      falls back to the default; any other failure is an error. */
  function ChooseVoice(voice: YamlValue, default: Prefilled, store: VoiceStore): (r: Result<Prefilled, string>)
    ensures !YTruthy(voice) ==> r == Ok(default)
    // A named override that loads is used ...
    ensures voice.YStr? && voice.s != [] && LoadVoice(voice.s, store).Ok?
            ==> r == Ok(LoadVoice(voice.s, store).value)
    // ... one that is not found falls back to the default ...
    ensures voice.YStr? && voice.s != [] && LoadVoice(voice.s, store).Err?
            && LoadVoice(voice.s, store).error.FileNotFound?
            ==> r == Ok(default)
    // ... and any other loading failure fails the file.
    ensures voice.YStr? && voice.s != [] && LoadVoice(voice.s, store).Err?
            && LoadVoice(voice.s, store).error.OtherExc?
            ==> r == Err(LoadVoice(voice.s, store).error.message)
    // A truthy non-string override has no `lower`.
    ensures voice.YOther? && voice.truthy
            ==> r == Err("'" + voice.typeName + "' object has no attribute 'lower'")
  {
    if !YTruthy(voice) then Ok(default)
    else match voice
      case YStr(name) =>
        (match LoadVoice(name, store)
         case Ok(p) => Ok(p)
         case Err(FileNotFound(_)) => Ok(default)
         case Err(OtherExc(m)) => Err(m))
      case YNull => Ok(default)
      case YOther(typeName, _) => Err("'" + typeName + "' object has no attribute 'lower'")
  }

  /** The body of the `try` in `process_file`: the audio duration, or the
      message of the exception raised. */
  function Attempt(f: TextFile, default: Prefilled, env: Env): Result<real, string> {
    match f.content
    case Err(m) => Err(m)
    case Ok(raw) =>
      match ParseTextFile(raw, env.yaml)
      case Err(m) => Err(m)
      case Ok((text, voice)) =>
        if text == [] then Err("File is empty")
        else match ChooseVoice(voice, default, env.store)
          case Err(m) => Err(m)
          case Ok(prefilled) =>
            match env.synthesize(text, prefilled)
            case Err(m) => Err(m)
            case Ok(samples) => Ok(samples as real / SAMPLE_RATE as real)
  }

  /** `process_file(filepath, ...)`. */
  function ProcessFile(f: TextFile, default: Prefilled, env: Env): (r: FileResult)
    ensures r.file == f.name
    ensures r.status == Failed <==> r.error.Some?
    ensures r.status == Failed <==> Attempt(f, default, env).Err?
    ensures r.status == Failed ==> r.audioDuration == 0.0 && r.error == Some(Attempt(f, default, env).error)
    ensures r.audioDuration >= 0.0
  {
    var a := Attempt(f, default, env);
    if a.Ok? then FileResult(f.name, Success, a.value, None)
    else FileResult(f.name, Failed, 0.0, Some(a.error))
  }

  /** An empty (or whitespace-only) text fails with "File is empty". */
  lemma EmptyTextFails(f: TextFile, default: Prefilled, env: Env)
    requires f.content.Ok? && ParseTextFile(f.content.value, env.yaml).Ok?
    requires ParseTextFile(f.content.value, env.yaml).value.0 == []
    ensures ProcessFile(f, default, env) == FileResult(f.name, Failed, 0.0, Some("File is empty"))
  {
  }

  /** An override voice that cannot be resolved does not fail the file: it is
      spoken exactly as with no override. */
  lemma UnresolvedOverrideUsesDefault(name: string, default: Prefilled, store: VoiceStore)
    requires name != []
    requires ResolveVoiceFile(name, store.voicesDir, store.listing).Err?
    ensures ChooseVoice(YStr(name), default, store) == ChooseVoice(YNull, default, store)
  {
  }

  // ---------------------------------------------------------------------
  // The run and its summary

  datatype Summary = Summary(succeeded: nat, failed: nat, total: nat, audio: real,
                             failures: seq<(string, string)>)

  function CountStatus(rs: seq<FileResult>, st: Status): (n: nat)
    ensures n <= |rs|
    ensures n == |rs| <==> forall i :: 0 <= i < |rs| ==> rs[i].status == st
    ensures n == 0 <==> forall i :: 0 <= i < |rs| ==> rs[i].status != st
  {
    if rs == [] then 0 else (if rs[0].status == st then 1 else 0) + CountStatus(rs[1..], st)
  }

  /** `sum(r["audio_duration"] for r in succeeded)`. */
  function SucceededAudio(rs: seq<FileResult>): real {
    if rs == [] then 0.0
    else (if rs[0].status == Success then rs[0].audioDuration else 0.0) + SucceededAudio(rs[1..])
  }

  function AllAudio(rs: seq<FileResult>): real {
    if rs == [] then 0.0 else rs[0].audioDuration + AllAudio(rs[1..])
  }

  function Failures(rs: seq<FileResult>): seq<(string, string)> {
    if rs == [] then []
    else (if rs[0].status == Failed then [(rs[0].file, rs[0].error.GetOr(""))] else []) + Failures(rs[1..])
  }

  function Summarize(rs: seq<FileResult>): Summary {
    Summary(CountStatus(rs, Success), CountStatus(rs, Failed), |rs|, SucceededAudio(rs), Failures(rs))
  }

  /** Every file either succeeded or failed. */
  lemma {:induction false} SummaryPartitions(rs: seq<FileResult>)
    ensures Summarize(rs).succeeded + Summarize(rs).failed == Summarize(rs).total
    ensures |Summarize(rs).failures| == Summarize(rs).failed
  {
    if rs != [] {
      SummaryPartitions(rs[1..]);
    }
  }

  /** Failed files carry no audio, so the total over succeeded files is the
      total over all files. */
  lemma {:induction false} SucceededAudioIsAllAudio(rs: seq<FileResult>)
    requires forall i :: 0 <= i < |rs| ==> rs[i].status == Failed ==> rs[i].audioDuration == 0.0
    ensures SucceededAudio(rs) == AllAudio(rs)
  {
    if rs != [] {
      assert forall i :: 0 <= i < |rs[1..]| ==> rs[1..][i] == rs[i + 1];
      SucceededAudioIsAllAudio(rs[1..]);
    }
  }

  datatype BatchOutcome =
    | NoTextFiles
    /** The default voice could not be loaded: the script stops with that exception. */
    | Aborted(error: Exc)
    | Completed(results: seq<FileResult>, summary: Summary)

  predicate IsPermutation(order: seq<nat>, n: nat) {
    |order| == n && (forall k :: 0 <= k < n ==> order[k] < n)
    && forall k, l :: 0 <= k < l < n ==> order[k] != order[l]
  }

  /** `main`: the sorted `*.txt` files are processed one by one (or, with
      `--parallel` above 1, collected in the order `completion` lists them
      finishing), then summarised. */
  method RunBatch(txtFiles: seq<TextFile>, defaultVoice: string, parallel: int, completion: seq<nat>, env: Env)
    returns (outcome: BatchOutcome)
    requires parallel > 1 ==> IsPermutation(completion, |txtFiles|)
    ensures txtFiles == [] <==> outcome == NoTextFiles
    ensures txtFiles != [] && LoadVoice(defaultVoice, env.store).Err?
            ==> outcome == Aborted(LoadVoice(defaultVoice, env.store).error)
    ensures outcome.Completed? ==> LoadVoice(defaultVoice, env.store).Ok?
                                   && |outcome.results| == |txtFiles|
                                   && outcome.summary == Summarize(outcome.results)
    // Sequential mode keeps the sorted file order.
    ensures outcome.Completed? && parallel <= 1
            ==> forall i :: 0 <= i < |txtFiles| ==>
                  outcome.results[i] == ProcessFile(txtFiles[i], LoadVoice(defaultVoice, env.store).value, env)
    ensures outcome.Completed? && parallel > 1
            ==> forall k :: 0 <= k < |txtFiles| ==>
                  outcome.results[k] == ProcessFile(txtFiles[completion[k]], LoadVoice(defaultVoice, env.store).value, env)
  {
    if txtFiles == [] {
      return NoTextFiles;
    }
    var loaded := LoadVoice(defaultVoice, env.store);
    if loaded.Err? {
      return Aborted(loaded.error);
    }
    var defaultPrefilled := loaded.value;
    var order := if parallel <= 1 then seq(|txtFiles|, i => i) else completion;
    var results := ProcessInOrder(txtFiles, order, defaultPrefilled, env);
    outcome := Completed(results, Summarize(results));
  }

  /** Applies `work` to the items in the order given. */
  method MapInOrder<A, B>(items: seq<A>, order: seq<nat>, work: A -> B) returns (results: seq<B>)
    requires forall k :: 0 <= k < |order| ==> order[k] < |items|
    ensures |results| == |order|
    ensures forall k :: 0 <= k < |order| ==> results[k] == work(items[order[k]])
  {
    results := [];
    var k := 0;
    while k < |order|
      invariant 0 <= k <= |order| && |results| == k
      invariant forall i :: 0 <= i < k ==> results[i] == work(items[order[i]])
    {
      results := results + [work(items[order[k]])];
      k := k + 1;
    }
  }

  /** The worker loop: `results[k]` is the result for `files[order[k]]`. */
  method ProcessInOrder(files: seq<TextFile>, order: seq<nat>, default: Prefilled, env: Env)
    returns (results: seq<FileResult>)
    requires forall k :: 0 <= k < |order| ==> order[k] < |files|
    ensures |results| == |order|
    ensures forall k :: 0 <= k < |order| ==> results[k] == ProcessFile(files[order[k]], default, env)
  {
    results := MapInOrder(files, order, (f: TextFile) => ProcessFile(f, default, env));
  }
}
