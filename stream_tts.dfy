/** The streaming demo script (`scenario-06-streaming-realtime/stream_tts.py`):
    the choice of the voice preset, the split of the generated audio into
    quarter-second chunks, the running sample count shown while the chunks
    play, and the condition for writing the WAV file. Samples are kept
    abstract (`T`); the glob of the voices directory is a parameter. */
module StreamTts {
  import opened Wrappers
  import opened Text

  const SAMPLE_RATE := 24000
  /** `SAMPLE_RATE // 4`: 250 ms of audio. */
  const CHUNK_SIZE: nat := SAMPLE_RATE / 4

  lemma ChunkSizeValue()
    ensures CHUNK_SIZE == 6000
  {
  }

  function Min(a: int, b: int): int {
    if a <= b then a else b
  }

  /** `len(range(0, n, CHUNK_SIZE))`. */
  function ChunkCount(n: nat): nat {
    (n + CHUNK_SIZE - 1) / CHUNK_SIZE
  }

  /** `[audio[i:i + CHUNK_SIZE] for i in range(0, len(audio), CHUNK_SIZE)]`:
      chunk `k` starts at `k * CHUNK_SIZE` and the slice end is clamped to
      the length, as Python slicing does. */
  function Chunks<T>(audio: seq<T>): (cs: seq<seq<T>>)
    ensures |cs| == ChunkCount(|audio|)
  {
    seq(ChunkCount(|audio|), k requires 0 <= k < ChunkCount(|audio|) =>
          ChunkCountBounds(|audio|, k);
          audio[k * CHUNK_SIZE .. Min(k * CHUNK_SIZE + CHUNK_SIZE, |audio|)])
  }

  /** The number of chunks is ceil(n / 6000): none for empty audio, and
      `k * 6000 < n` exactly for the chunks that exist. */
  lemma ChunkCountBounds(n: nat, k: nat)
    ensures ChunkCount(n) == 0 <==> n == 0
    ensures k < ChunkCount(n) <==> k * CHUNK_SIZE < n
    ensures (ChunkCount(n) - 1) * CHUNK_SIZE < n || n == 0
    ensures n <= ChunkCount(n) * CHUNK_SIZE
  {
    var c := ChunkCount(n);
    assert c * CHUNK_SIZE <= n + CHUNK_SIZE - 1 < (c + 1) * CHUNK_SIZE;
    if k < c {
      assert k * CHUNK_SIZE <= (c - 1) * CHUNK_SIZE;
    } else {
      assert k * CHUNK_SIZE >= c * CHUNK_SIZE;
    }
  }

  /** Every chunk but the last holds 6000 samples, and the last holds
      between 1 and 6000. */
  lemma ChunkLengths<T>(audio: seq<T>)
    ensures forall k :: 0 <= k < |Chunks(audio)| - 1 ==> |Chunks(audio)[k]| == CHUNK_SIZE
    ensures Chunks(audio) != [] ==> 1 <= |Chunks(audio)[|Chunks(audio)| - 1]| <= CHUNK_SIZE
    ensures Chunks(audio) == [] <==> audio == []
  {
    var n := |audio|;
    var cs := Chunks(audio);
    ChunkCountBounds(n, 0);
    forall k | 0 <= k < |cs| - 1 ensures |cs[k]| == CHUNK_SIZE {
      ChunkCountBounds(n, k + 1);
    }
    if cs != [] {
      ChunkCountBounds(n, |cs| - 1);
    }
  }

  /** `sum(len(all_chunks[j]) for j in range(m))`. */
  function SamplesUpTo<T>(cs: seq<seq<T>>, m: nat): nat
    requires m <= |cs|
  {
    if m == 0 then 0 else SamplesUpTo(cs, m - 1) + |cs[m - 1]|
  }

  /** The chunks before `m`, joined. */
  function Joined<T>(cs: seq<seq<T>>, m: nat): seq<T>
    requires m <= |cs|
  {
    if m == 0 then [] else Joined(cs, m - 1) + cs[m - 1]
  }

  /** The first `m` chunks are exactly the first `min(m * 6000, n)`
      samples, so their count is that number too. */
  lemma {:induction false} JoinedPrefix<T>(audio: seq<T>, m: nat)
    requires m <= |Chunks(audio)|
    ensures Joined(Chunks(audio), m) == audio[..Min(m * CHUNK_SIZE, |audio|)]
    ensures SamplesUpTo(Chunks(audio), m) == Min(m * CHUNK_SIZE, |audio|)
  {
    if m > 0 {
      JoinedPrefix(audio, m - 1);
      ChunkCountBounds(|audio|, m - 1);
      var lo := (m - 1) * CHUNK_SIZE;
      assert lo + CHUNK_SIZE == m * CHUNK_SIZE;
      assert Chunks(audio)[m - 1] == audio[lo .. Min(lo + CHUNK_SIZE, |audio|)];
      assert audio[..Min(m * CHUNK_SIZE, |audio|)] == audio[..lo] + audio[lo .. Min(lo + CHUNK_SIZE, |audio|)];
    }
  }

  /** Playing every chunk plays the whole audio, in order and exactly once. */
  lemma ChunksJoinToAudio<T>(audio: seq<T>)
    ensures Joined(Chunks(audio), |Chunks(audio)|) == audio
    ensures SamplesUpTo(Chunks(audio), |Chunks(audio)|) == |audio|
  {
    ChunkCountBounds(|audio|, 0);
    JoinedPrefix(audio, |Chunks(audio)|);
    assert audio[..|audio|] == audio;
  }

  /** The playback loop (playing and the wall clock left out): for each
      chunk it shows `idx + 1` of the count and the samples played so far,
      summed afresh from the chunk lengths each time. */
  method Playback<T>(audio: seq<T>) returns (progress: seq<(nat, nat)>)
    ensures |progress| == |Chunks(audio)|
    ensures forall idx :: 0 <= idx < |progress| ==>
              progress[idx] == (idx + 1, Min((idx + 1) * CHUNK_SIZE, |audio|))
    ensures progress != [] ==> progress[|progress| - 1].1 == |audio|
  {
    var allChunks := Chunks(audio);
    progress := [];
    var idx := 0;
    while idx < |allChunks|
      invariant 0 <= idx <= |allChunks| && |progress| == idx
      invariant forall i :: 0 <= i < idx ==> progress[i] == (i + 1, Min((i + 1) * CHUNK_SIZE, |audio|))
    {
      var samples := 0;
      var j := 0;
      while j < idx + 1
        invariant 0 <= j <= idx + 1 && samples == SamplesUpTo(allChunks, j)
      {
        samples := samples + |allChunks[j]|;
        j := j + 1;
      }
      JoinedPrefix(audio, idx + 1);
      progress := progress + [(idx + 1, samples)];
      idx := idx + 1;
    }
    if progress != [] {
      ChunkCountBounds(|audio|, |progress| - 1);
      assert |progress| * CHUNK_SIZE >= |audio|;
    }
  }

  /** The four English presets the script fetches on its first run. */
  const STREAM_VOICES: seq<string> := ["en-Carter_man.pt", "en-Emma_woman.pt", "en-Frank_man.pt", "en-Grace_woman.pt"]

  /** Whether preset `v` is on disk: `os.path.exists` of its path in the
      voices directory. */
  function PresetOnDisk(voicesDir: string, isFile: string -> bool): string -> bool {
    v => isFile(JoinPath(voicesDir, v))
  }

  /** The presets of `voices` not yet on disk, in list order. */
  function MissingPresets(voices: seq<string>, onDisk: string -> bool): (ms: seq<string>)
    ensures |ms| <= |voices|
    ensures forall v :: v in ms <==> v in voices && !onDisk(v)
  {
    if voices == [] then []
    else
      (if onDisk(voices[0]) then [] else [voices[0]])
      + MissingPresets(voices[1..], onDisk)
  }

  /** What the download loop did: the files fetched, in order, and the
      message of the exception that ended it, if any. */
  datatype DownloadRun = DownloadRun(fetched: seq<string>, error: Option<string>)

  /** The download loop over `voices`: each preset not on disk is fetched in
      turn; `fetch` gives the exception `urlretrieve` raises for a file
      (None when it succeeds), and the first one ends the loop. */
  function Downloads(voices: seq<string>, onDisk: string -> bool, fetch: string -> Option<string>): DownloadRun
  {
    if voices == [] then DownloadRun([], None)
    else if onDisk(voices[0]) then Downloads(voices[1..], onDisk, fetch)
    else if fetch(voices[0]).Some? then DownloadRun([], fetch(voices[0]))
    else
      var rest := Downloads(voices[1..], onDisk, fetch);
      DownloadRun([voices[0]] + rest.fetched, rest.error)
  }

  /** Every file of `ms` is fetched without an exception. */
  predicate AllFetched(ms: seq<string>, fetch: string -> Option<string>) {
    forall i :: 0 <= i < |ms| ==> fetch(ms[i]).None?
  }

  lemma AllFetchedCons(v: string, ms: seq<string>, fetch: string -> Option<string>)
    ensures AllFetched([v] + ms, fetch) <==> fetch(v).None? && AllFetched(ms, fetch)
  {
    var xs := [v] + ms;
    if AllFetched(xs, fetch) {
      assert fetch(xs[0]).None?;
      forall i | 0 <= i < |ms| ensures fetch(ms[i]).None? {
        assert xs[i + 1] == ms[i];
      }
    }
    if fetch(v).None? && AllFetched(ms, fetch) {
      forall i | 0 <= i < |xs| ensures fetch(xs[i]).None? {
        if i > 0 {
          assert xs[i] == ms[i - 1];
        }
      }
    }
  }

  /** The loop ends without an exception exactly when every missing preset
      is fetched. */
  lemma {:induction false} DownloadsSucceedIff(voices: seq<string>, onDisk: string -> bool,
                                               fetch: string -> Option<string>)
    ensures Downloads(voices, onDisk, fetch).error.None? <==> AllFetched(MissingPresets(voices, onDisk), fetch)
  {
    if voices != [] {
      DownloadsSucceedIff(voices[1..], onDisk, fetch);
      var restMissing := MissingPresets(voices[1..], onDisk);
      if onDisk(voices[0]) {
        assert MissingPresets(voices, onDisk) == [] + restMissing == restMissing;
      } else {
        assert MissingPresets(voices, onDisk) == [voices[0]] + restMissing;
        AllFetchedCons(voices[0], restMissing, fetch);
      }
    }
  }

  /** The files fetched are the missing presets before the first failing
      one, whose exception ends the loop. */
  lemma {:induction false} DownloadsPrefix(voices: seq<string>, onDisk: string -> bool,
                                           fetch: string -> Option<string>)
    ensures var run := Downloads(voices, onDisk, fetch);
            var missing := MissingPresets(voices, onDisk);
            && run.fetched <= missing
            && (run.error.Some? ==> |run.fetched| < |missing| && run.error == fetch(missing[|run.fetched|]))
  {
    if voices != [] {
      DownloadsPrefix(voices[1..], onDisk, fetch);
      if !onDisk(voices[0]) && fetch(voices[0]).None? {
        var rest := Downloads(voices[1..], onDisk, fetch);
        var restMissing := MissingPresets(voices[1..], onDisk);
        var missing := [voices[0]] + restMissing;
        assert MissingPresets(voices, onDisk) == missing;
        if rest.error.Some? {
          assert missing[|rest.fetched| + 1] == restMissing[|rest.fetched|];
        }
      }
    }
  }

  /** The loop fetches the missing presets in order until the first failing
      one: all of them when none fails, and otherwise those before it, the
      failure being that preset's exception. */
  lemma DownloadsFetchMissing(voices: seq<string>, onDisk: string -> bool, fetch: string -> Option<string>)
    ensures var run := Downloads(voices, onDisk, fetch);
            var missing := MissingPresets(voices, onDisk);
            && run.fetched <= missing
            && (run.error.None? <==> forall i :: 0 <= i < |missing| ==> fetch(missing[i]).None?)
            && (run.error.Some? ==> |run.fetched| < |missing| && run.error == fetch(missing[|run.fetched|]))
  {
    DownloadsSucceedIff(voices, onDisk, fetch);
    DownloadsPrefix(voices, onDisk, fetch);
  }

  /** With no failing download the loop fetches exactly the missing presets. */
  lemma DownloadsAllMissing(voices: seq<string>, onDisk: string -> bool, fetch: string -> Option<string>)
    requires forall v :: fetch(v).None?
    ensures Downloads(voices, onDisk, fetch) == DownloadRun(MissingPresets(voices, onDisk), None)
  {
    DownloadsFetchMissing(voices, onDisk, fetch);
  }

  /** `download_voices`: nothing is fetched when the directory already holds
      a `.pt` file; otherwise each preset not on disk is fetched, in order,
      and the first `urlretrieve` that raises ends the script. */
  method DownloadVoices(voicesDir: string, hasPresets: bool, isFile: string -> bool, fetch: string -> Option<string>)
    returns (fetched: seq<string>, error: Option<string>)
    ensures hasPresets ==> fetched == [] && error == None
    ensures !hasPresets ==> DownloadRun(fetched, error) == Downloads(STREAM_VOICES, PresetOnDisk(voicesDir, isFile), fetch)
  {
    fetched := [];
    error := None;
    if hasPresets {
      return;
    }
    ghost var onDisk := PresetOnDisk(voicesDir, isFile);
    var k := 0;
    while k < |STREAM_VOICES|
      invariant 0 <= k <= |STREAM_VOICES|
      invariant var rest := Downloads(STREAM_VOICES[k..], onDisk, fetch);
                Downloads(STREAM_VOICES, onDisk, fetch) == DownloadRun(fetched + rest.fetched, rest.error)
    {
      ghost var vs := STREAM_VOICES[k..];
      ghost var rest := Downloads(STREAM_VOICES[k + 1..], onDisk, fetch);
      assert vs[0] == STREAM_VOICES[k] && vs[1..] == STREAM_VOICES[k + 1..];
      var dest := JoinPath(voicesDir, STREAM_VOICES[k]);
      assert onDisk(STREAM_VOICES[k]) == isFile(dest);
      if !isFile(dest) {
        var failure := fetch(STREAM_VOICES[k]);
        if failure.Some? {
          assert Downloads(vs, onDisk, fetch) == DownloadRun([], failure);
          error := failure;
          return;
        }
        assert Downloads(vs, onDisk, fetch) == DownloadRun([STREAM_VOICES[k]] + rest.fetched, rest.error);
        assert (fetched + [STREAM_VOICES[k]]) + rest.fetched == fetched + ([STREAM_VOICES[k]] + rest.fetched);
        fetched := fetched + [STREAM_VOICES[k]];
      } else {
        assert Downloads(vs, onDisk, fetch) == rest;
      }
      k := k + 1;
    }
    assert STREAM_VOICES[k..] == [];
  }

  /** `[f for f in glob(...) if SPEAKER_NAME.lower() in
      os.path.basename(f).lower()]`, then the first of them; `ptFiles` is the
      glob of the voices directory, in the order it came back. */
  predicate NameMatches(speaker: string, path: string) {
    Contains(Lower(Basename(path)), Lower(speaker))
  }

  /** The index of the first file from `i` on that `matches` accepts. */
  function FirstMatchFrom(ptFiles: seq<string>, i: nat, matches: string -> bool): (k: Option<nat>)
    requires i <= |ptFiles|
    ensures k.None? <==> forall j :: i <= j < |ptFiles| ==> !matches(ptFiles[j])
    ensures k.Some? ==> i <= k.value < |ptFiles| && matches(ptFiles[k.value])
                        && forall j :: i <= j < k.value ==> !matches(ptFiles[j])
    decreases |ptFiles| - i
  {
    if i == |ptFiles| then None
    else if matches(ptFiles[i]) then Some(i)
    else FirstMatchFrom(ptFiles, i + 1, matches)
  }

  /** The preset path, or the FileNotFoundError raised when no file matches. */
  function SelectVoiceFile(speaker: string, ptFiles: seq<string>): (r: Result<string, string>)
    ensures r.Err? <==> forall i :: 0 <= i < |ptFiles| ==> !NameMatches(speaker, ptFiles[i])
    ensures r.Err? ==> r.error == "No voice preset for '" + speaker + "'"
    ensures r.Ok? ==> exists i :: 0 <= i < |ptFiles| && ptFiles[i] == r.value && NameMatches(speaker, r.value)
                                  && forall j :: 0 <= j < i ==> !NameMatches(speaker, ptFiles[j])
  {
    match FirstMatchFrom(ptFiles, 0, f => NameMatches(speaker, f))
    case None => Err("No voice preset for '" + speaker + "'")
    case Some(k) => Ok(ptFiles[k])
  }

  /** The match ignores ASCII case: "Carter" finds `en-Carter_man.pt`. */
  lemma MatchIgnoresCase(speaker: string, path: string)
    ensures NameMatches(speaker, path) <==> NameMatches(Lower(speaker), path)
  {
    LowerIdempotent(speaker);
  }

  lemma LowerIdempotent(s: string)
    ensures Lower(Lower(s)) == Lower(s)
  {
  }

  /** What the end of the script does with the audio. */
  datatype Finish<T> = Finish(chunkCount: nat, saved: Option<seq<T>>)

  /** The WAV file is written only when soundfile imported and the audio is
      not empty; what is written is the whole audio. */
  function FinishRun<T>(audio: seq<T>, saveAvailable: bool): (f: Finish<T>)
    ensures f.chunkCount == |Chunks(audio)|
    ensures f.saved.Some? <==> saveAvailable && audio != []
    ensures f.saved.Some? ==> f.saved.value == audio
    ensures f.saved.Some? ==> f.chunkCount >= 1
  {
    ChunkLengths(audio);
    Finish(|Chunks(audio)|, if saveAvailable && |audio| > 0 then Some(audio) else None)
  }
}
