# VibeVoice Labs — a verified model of the deterministic cores

VibeVoice Labs is a set of text-to-speech demo scenarios built around the
VibeVoice-Realtime-0.5B model. The neural engine itself lives in an
external package. The repository's own logic is a set of small
deterministic cores around it, and this project models those cores in
Dafny and proves what they promise:

- **Readiness tracker** of the voice-conversation backend
  (`ready_state.py`). A class `ReadyStateManager` with an overall state, a
  progress value clamped to [0, 100], three per-service records, an error
  log and a one-shot startup duration. It also covers `ServiceStatus.to_dict`
  and the manager's `to_dict`, whose nested use of a non-reentrant lock is
  reported under Findings.
- **WebSocket conversation loop** (`websocket_handler.py`). A step function
  over a trace of incoming frames: a 960 000-byte audio buffer that is
  cleared on overflow, dispatch of control messages, and the
  STT → chat → TTS turn that stops at the first failing stage. An imperative
  `HandleConversation` loop is proved equal to it.
- **Chat history and model availability** (`chat_service.py`).
- **Voice-preset export** (`export_voice_presets.py`). It flattens a nested
  dict/list tree into (key path, tensor) pairs, sanitises key paths into
  file names, describes a preset's structure, builds manifest entries and
  computes the exit code.
- **ONNX example helpers** (`example_inference.py`). The vocabulary
  tokenizer with its word → character fallback, the descending diffusion
  timestep schedule (exact rationals, Python's round-half-even), and the
  manifest → direct file → zero-vector fallback that produces the voice
  conditioning. The lemma `ExportedManifestListsNoFiles` shows that a
  manifest written by the export tool never yields a listed file to this
  loader. The exporter writes `voices` as a list of entries, while the
  loader looks up a name among them and would read a `files` dict.
- **Batch processing** (`batch_tts.py`). It resolves voice names (an exact
  preset key first, then the first substring match in the directory). It
  matches the YAML front-matter regular expression, including its
  backtracking. It also covers per-file result records, the
  success/failure summary and the sequential and parallel result order.
- **Full-stack TTS API** (`tts_service.py`, `routes.py`, `schemas.py`). It
  covers the voice registry and speaker mapping, the model-loaded flags,
  request validation with pydantic's constraints and defaults, and the
  mapping of errors to HTTP status codes.
- **Streaming playback** (`stream_tts.py`). It splits the audio into
  6000-sample chunks, keeps a running sample count and selects a voice
  file.
- **Multilingual script** (`main_multilingual.py`). It selects a language
  and a voice with Python's negative indexing, builds the
  "{lang}-{voice}.pt" names and the download list, counts downloads and
  generates audio for every language.

Wall-clock time, file existence, directory listings, YAML parsing, the
network, and the STT, chat and TTS engines are parameters: plain values,
or functions from request to result. Python's `json` values are modelled
as the datatype `JsonValues.Json`. An object is a list of fields, and a
lookup finds the last duplicate key, as `json.load` does; iterating an
object's items (`JsonValues.Items`) visits each key once, where it first
occurs, with that last value. The string
helpers in `Text` follow Python's `str.strip`, `str.split`, `in` and
`str.replace`.

## Model

| member | source | states |
|---|---|---|
| ReadyState.ServiceToDict | src/scenario-04-meai/backend/app/services/ready_state.py:36-48 | "ready" and "status" are always keys. "error" is a key only for a non-empty error, "warmup_time_ms" whenever it is not None, and "loaded_at" only when non-empty. Metadata keys are merged last and win over the fixed keys. |
| ReadyState.Clamp | src/scenario-04-meai/backend/app/services/ready_state.py:93-94 | The result lies in [0, 100]. It equals the input inside that range and the nearer bound outside it. |
| ReadyState.StartupTimeIsOneShot | src/scenario-04-meai/backend/app/services/ready_state.py:98-101 | Over any sequence of `set_state` calls, a recorded startup time is never overwritten. When none was recorded, one is recorded iff some call enters READY or ERROR, and it is the elapsed time of the first such call. |
| ReadyState.ReadyStateManager.constructor | src/scenario-04-meai/backend/app/services/ready_state.py:68-83 | The manager starts INITIALIZING with progress 0 and three pending services (tts, chat, stt). It has no errors and no startup time, and starts its clock at `now`. |
| ReadyState.ReadyStateManager.SetState | src/scenario-04-meai/backend/app/services/ready_state.py:87-101 | Stores the new state. A given progress is stored clamped; without one, progress is unchanged. The startup time is set only by the first final state. Services and errors are untouched. |
| ReadyState.ReadyStateManager.GetState | src/scenario-04-meai/backend/app/services/ready_state.py:103-106 | A final state is only read together with a recorded startup duration. |
| ReadyState.ReadyStateManager.GetProgress | src/scenario-04-meai/backend/app/services/ready_state.py:108-111 | The progress read is always within [0, 100]. |
| ReadyState.ReadyStateManager.MarkServiceReady | src/scenario-04-meai/backend/app/services/ready_state.py:113-128 | A known service becomes ready with status "ready", the given warmup, `loaded_at` = now + "Z" and merged metadata. An unknown name changes nothing. All other fields are untouched. |
| ReadyState.ReadyStateManager.MarkServiceError | src/scenario-04-meai/backend/app/services/ready_state.py:130-138 | A known service becomes not ready with status "error" and the message recorded. An unknown name changes nothing. |
| ReadyState.ReadyStateManager.MarkServiceLoading | src/scenario-04-meai/backend/app/services/ready_state.py:140-147 | A known service becomes not ready with status "loading", and its previous error is kept. An unknown name changes nothing. |
| ReadyState.ReadyStateManager.IsServiceReady | src/scenario-04-meai/backend/app/services/ready_state.py:149-152 | True iff the name is one of the three services and its status is "ready". An unknown name is never ready. |
| ReadyState.ReadyStateManager.AddError | src/scenario-04-meai/backend/app/services/ready_state.py:154-158 | Appends exactly one entry to the error log and changes nothing else. |
| ReadyState.ReadyStateManager.IsReady | src/scenario-04-meai/backend/app/services/ready_state.py:160-172 | True iff the state is READY and tts and chat are ready; stt never matters. Readiness implies a recorded startup time. |
| ReadyState.ReadyStateManager.ToDict | src/scenario-04-meai/backend/app/services/ready_state.py:174-189 | The snapshot has readiness, the state's string, progress in [0, 100] and one `ServiceToDict` per service, each with "ready" and "status". It also has the startup time and a copy of the errors. This is the intended result of `to_dict`. |
| ReadyState.UnderLock | src/scenario-04-meai/backend/app/services/ready_state.py:82 | Entering a lock's `with` block blocks iff the lock is already held by this thread and is a plain (non-reentrant) lock. Otherwise the block's value is returned. |
| ReadyState.ToDictWithPlainLockBlocks | src/scenario-04-meai/backend/app/services/ready_state.py:166-184 | With the manager's plain `Lock`, `to_dict` as written never returns, whatever the state. With a reentrant lock it would return `ToDict()`. |
| ReadyState.ReadyStateManager.Reset | src/scenario-04-meai/backend/app/services/ready_state.py:191-204 | Every field returns to a fresh manager's value, and the manager is then not ready. |
| WebSocketHandler.MaxAudioBufferValue | src/scenario-04-meai/backend/app/api/websocket_handler.py:30 | The buffer bound 16000·2·30 is 960 000 bytes. |
| WebSocketHandler.Respond | src/scenario-04-meai/backend/app/api/websocket_handler.py:103-126 | After a transcript, a turn sends 2 to 4 messages, the first being the transcript. History only grows, and its old part is kept. |
| WebSocketHandler.Turn | src/scenario-04-meai/backend/app/api/websocket_handler.py:87-126 | Messages follow the turn's fixed shape. A single-message turn (an error) leaves the history alone. Otherwise the history grows and its old part is kept. |
| WebSocketHandler.TurnStages | src/scenario-04-meai/backend/app/api/websocket_handler.py:93-126 | Empty audio, a failed transcription or a blank transcript each give exactly one error and no later stage. The transcript is sent first and is the user message added to the history. The response is the model's answer, also added to the history. The audio is the synthesis of that answer. A failing stage skips every later one. |
| WebSocketHandler.Step | src/scenario-04-meai/backend/app/api/websocket_handler.py:42-84 | Empty frames change nothing. A fitting chunk is appended; an overflowing one clears the buffer and sends one error. Invalid JSON and unknown types send exactly one error and keep the buffer. A non-object raises and ends the loop. "end_of_speech" runs a turn on the buffer and empties it. "reset" clears history and buffer and sends `reset_ack`. The sent log only grows. |
| WebSocketHandler.BufferNeverExceedsMax | src/scenario-04-meai/backend/app/api/websocket_handler.py:45-52 | Over any trace, the audio buffer never exceeds 960 000 bytes. |
| WebSocketHandler.SentOnlyGrows | src/scenario-04-meai/backend/app/api/websocket_handler.py:42-84 | Over any trace, the messages already sent are a prefix of the final log. |
| WebSocketHandler.RunAppend | src/scenario-04-meai/backend/app/api/websocket_handler.py:42-84 | Running two traces one after the other equals running their concatenation. |
| WebSocketHandler.AudioOnlyIsSilent | src/scenario-04-meai/backend/app/api/websocket_handler.py:45-49 | Audio frames that fit the buffer send nothing, and the buffer becomes exactly their concatenation. |
| WebSocketHandler.ProcessTurn | src/scenario-04-meai/backend/app/api/websocket_handler.py:87-126 | The staged method sends exactly what `Turn` specifies and leaves the chat history as `Turn` specifies. |
| WebSocketHandler.RespondStages | src/scenario-04-meai/backend/app/api/websocket_handler.py:109-126 | The chat and TTS stages send what `Respond` specifies and update the history accordingly. |
| WebSocketHandler.HandleConversation | src/scenario-04-meai/backend/app/api/websocket_handler.py:33-84 | The receive loop sends exactly the messages that the step function `Run` specifies for the trace, starting from an empty buffer and history. |
| ChatService.ChatTurn | src/scenario-04-meai/backend/app/services/chat_service.py:33-51 | The request is the system prompt, then the whole history, then the new user message. On success the history grows by the user message and the reply (2 entries); on failure it keeps the user message only (1 entry). |
| ChatService.TwoTurnsInOrder | src/scenario-04-meai/backend/app/services/chat_service.py:33-51 | Two successful turns append user, assistant, user, assistant, in that order. |
| ChatService.ChatService.constructor | src/scenario-04-meai/backend/app/services/chat_service.py:20-31 | The model and base URL come from the environment, with defaults. A custom host is used only for a non-default base URL. The history starts empty. |
| ChatService.ChatService.Chat | src/scenario-04-meai/backend/app/services/chat_service.py:33-51 | The method's new history and result are those of `ChatTurn`. |
| ChatService.ChatService.Reset | src/scenario-04-meai/backend/app/services/chat_service.py:53-55 | The history becomes empty. |
| ChatService.AnyMatch | src/scenario-04-meai/backend/app/services/chat_service.py:72-76 | True iff some listed name, with ":latest" removed, is a substring of the model base or contains it. |
| ChatService.IsAvailable | src/scenario-04-meai/backend/app/services/chat_service.py:57-84 | True iff the listing succeeded, every entry has a name, and some stripped name matches the configured model either way round. A failed listing gives False. |
| ChatService.EmptyListedNameMatchesAnything | src/scenario-04-meai/backend/app/services/chat_service.py:72-76 | A model listed only as ":latest" (empty after stripping) makes any configured model available. |
| ChatService.NoModelsNotAvailable | src/scenario-04-meai/backend/app/services/chat_service.py:72 | A listing without a "models" key makes the model unavailable. |
| JsonValues.Lookup | src/scenario-08-onnx-native/huggingface/example_inference.py:75 | `dict.get` on a decoded JSON object finds a value iff the key is present, and returns the last field with that key. |
| JsonValues.FirstOccurrencesDistinct | src/scenario-08-onnx-native/huggingface/example_inference.py:109 | Keeping each key where it first occurs keeps every key exactly once. |
| JsonValues.Assign | src/scenario-08-onnx-native/huggingface/example_inference.py:109 | `d[key] = v` keeps an existing key's place and appends a new key; afterwards key maps to v and every other key is unchanged. |
| JsonValues.Items | src/scenario-08-onnx-native/huggingface/example_inference.py:109 | `dict.items()` of a decoded object lists the keys in first-occurrence order and agrees with lookup on every key. |
| JsonValues.ItemsAreLookups | src/scenario-08-onnx-native/huggingface/example_inference.py:109 | Items have no repeated key, and each item's value is the value of its key's last occurrence. |
| JsonValues.LookupAppended | src/scenario-08-onnx-native/export/export_voice_presets.py:207-212 | A key written last is found with its value. |
| VoicePresetExport.FlattenKeepsLeaves | src/scenario-08-onnx-native/export/export_voice_presets.py:92-105 | The flattened tensors are exactly the tree's tensor leaves, in traversal order. Other leaves yield nothing. |
| VoicePresetExport.KeysExtendPrefix | src/scenario-08-onnx-native/export/export_voice_presets.py:97-104 | Below a non-empty prefix, every produced key path starts with that prefix. |
| VoicePresetExport.TopLevelKeys | src/scenario-08-onnx-native/export/export_voice_presets.py:95-104 | A top-level tensor flattens to ("root", t). A top-level list gives "[i]" keys and skips non-tensors. A dict child gives "k", and its list children give "k[i]". |
| VoicePresetExport.FlattenTensors | src/scenario-08-onnx-native/export/export_voice_presets.py:92-105 | The append/extend loops produce exactly `Flatten(d, prefix)`. |
| VoicePresetExport.FlattenDictTensors | src/scenario-08-onnx-native/export/export_voice_presets.py:97-100 | The dict loop produces the children's pairs in key order. |
| VoicePresetExport.FlattenListTensors | src/scenario-08-onnx-native/export/export_voice_presets.py:101-104 | The list loop produces the items' pairs in index order. |
| VoicePresetExport.SafeFilenameIsSafe | src/scenario-08-onnx-native/export/export_voice_presets.py:108-110 | A sanitised name contains no '.', '[', ']' or '/'. Every character in it is '_' or comes from the key. |
| VoicePresetExport.StemOfPresetFile | src/scenario-08-onnx-native/export/export_voice_presets.py:115 | The stem of "name.pt" is "name". |
| VoicePresetExport.Inspect | src/scenario-08-onnx-native/export/export_voice_presets.py:77-89 | Dicts keep their keys and order, and lists their length and order, each value described in turn. A tensor becomes "tensor" with its dtype and its shape as a list of ints. Any other value becomes its type name and the first 200 characters of its repr. |
| VoicePresetExport.VoiceEntryFor | src/scenario-08-onnx-native/export/export_voice_presets.py:113-159 | No entry iff loading failed or no tensors were found. Otherwise the name and directory are the stem and the source is the file name, with one tensor record per flattened pair, in order. |
| VoicePresetExport.VoiceEntryFiles | src/scenario-08-onnx-native/export/export_voice_presets.py:139-150 | An entry has one file per tensor leaf. Each file name ends in ".npy" and has no '/' or '.' before it. |
| VoicePresetExport.ConvertVoice | src/scenario-08-onnx-native/export/export_voice_presets.py:113-159 | The structure is written only for a loaded preset, and the entry is `VoiceEntryFor`. |
| VoicePresetExport.KeptMembers | src/scenario-08-onnx-native/export/export_voice_presets.py:65-74 | The kept paths are exactly the available voices whose download succeeded. |
| VoicePresetExport.KeepFetched | src/scenario-08-onnx-native/export/export_voice_presets.py:68-74 | The loop keeps successful downloads in list order. |
| VoicePresetExport.EnsureVoices | src/scenario-08-onnx-native/export/export_voice_presets.py:65-74 | Returns the successfully fetched names among the six available voices, in order. |
| VoicePresetExport.ConvertAllComplete | src/scenario-08-onnx-native/export/export_voice_presets.py:200-204 | One entry is produced per input file iff every file converts. |
| VoicePresetExport.TensorFileJson | src/scenario-08-onnx-native/export/export_voice_presets.py:145-150 | A tensor record has keys key, file, dtype and shape, holding the record's key, file name, dtype and shape. |
| VoicePresetExport.EntryJson | src/scenario-08-onnx-native/export/export_voice_presets.py:154-159 | An entry has keys name, source_file, directory and tensors; the tensors list holds each tensor record in order. |
| VoicePresetExport.Manifest | src/scenario-08-onnx-native/export/export_voice_presets.py:207-212 | The manifest has keys version, sample_rate, description and voices, with version 1, sample rate 24000, and the voices list holding each entry's record in order. |
| VoicePresetExport.ShapeRoundTrip | src/scenario-08-onnx-native/export/export_voice_presets.py:149 | A shape written as a list of ints reads back as the same shape. |
| VoicePresetExport.TensorFileRoundTrip | src/scenario-08-onnx-native/export/export_voice_presets.py:145-150 | A tensor record read back by its keys gives the same record. |
| VoicePresetExport.DecodeAllOk | src/scenario-08-onnx-native/export/export_voice_presets.py:154-159 | A list whose items each read back reads back as the whole list, in order. |
| VoicePresetExport.EntryRoundTrip | src/scenario-08-onnx-native/export/export_voice_presets.py:154-159 | An entry read back by its keys gives the same entry, tensors in order. |
| VoicePresetExport.ManifestRoundTrip | src/scenario-08-onnx-native/export/export_voice_presets.py:207-212 | Reading the written manifest's "voices" back by keys gives exactly the entries written, in order. |
| VoicePresetExport.ConvertEach | src/scenario-08-onnx-native/export/export_voice_presets.py:200-204 | The loop collects exactly the successful entries, in file order. |
| VoicePresetExport.ExportMain | src/scenario-08-onnx-native/export/export_voice_presets.py:162-225 | With no preset files it exits 1 and writes no manifest. Otherwise it writes the manifest of all converted entries, and exits 1 iff fewer entries than files were produced. |
| OnnxInference.ToMapAgreesWithLookup | src/scenario-08-onnx-native/huggingface/example_inference.py:75 | The vocabulary map agrees with JSON lookup, the last duplicate key winning. |
| OnnxInference.VocabOf | src/scenario-08-onnx-native/huggingface/example_inference.py:72-77 | The model's vocab wins. The top-level vocab is used only when the model has none. With neither, ValueError. A non-dict `model` raises AttributeError. |
| OnnxInference.VocabValue | src/scenario-08-onnx-native/huggingface/example_inference.py:76-77 | A vocabulary raises ValueError iff it is falsy. An accepted one is a non-empty object of integer values, read as a map with the last duplicate key winning; other truthy values are refused (see Left out). |
| OnnxInference.TokenizeBounds | src/scenario-08-onnx-native/huggingface/example_inference.py:80-95 | Every emitted id is a vocabulary value, and there are at most as many ids as characters. |
| OnnxInference.TokensFromBounds | src/scenario-08-onnx-native/huggingface/example_inference.py:81-93 | Processing words keeps all ids in the vocabulary, and adds at most the words' total length. |
| OnnxInference.WordTokens | src/scenario-08-onnx-native/huggingface/example_inference.py:82-93 | A word contributes at most max(1, len(word)) ids. |
| OnnxInference.FirstFallbackUsesMarker | src/scenario-08-onnx-native/huggingface/example_inference.py:88-93 | While nothing has been emitted, the first fallback character is tried with the "Ġ" marker. The following characters are bare. |
| OnnxInference.FallbackAfterFirstTokenIsBare | src/scenario-08-onnx-native/huggingface/example_inference.py:89 | Once a token exists, fallback characters are looked up bare and unknown ones are dropped. |
| OnnxInference.AppendCharTokens | src/scenario-08-onnx-native/huggingface/example_inference.py:88-93 | The character loop appends exactly the word's fallback tokens. |
| OnnxInference.TokenizeIds | src/scenario-08-onnx-native/huggingface/example_inference.py:80-95 | The nested loops produce the 1×n array of `Tokenize`. |
| OnnxInference.SimpleTokenize | src/scenario-08-onnx-native/huggingface/example_inference.py:67-95 | A tokenizer file that fails to decode raises its decode error. Otherwise a vocabulary error propagates, and a usable vocabulary gives the single row of `Tokenize`. |
| OnnxInference.RoundHalfEven | src/scenario-08-onnx-native/huggingface/example_inference.py:163 | The result is within 1/2 of x, and an exact tie goes to the even neighbour. |
| OnnxInference.RoundMonotone | src/scenario-08-onnx-native/huggingface/example_inference.py:163 | Rounding is monotone. |
| OnnxInference.Timesteps | src/scenario-08-onnx-native/huggingface/example_inference.py:161-164 | `num_steps` 0 is a ZeroDivisionError, and a negative count gives an empty list. |
| OnnxInference.TimestepsDescend | src/scenario-08-onnx-native/huggingface/example_inference.py:161-164 | For n > 0 steps: length n, first entry 999, every entry in [0, 999], non-increasing. |
| OnnxInference.DefaultSchedule | src/scenario-08-onnx-native/huggingface/example_inference.py:161-164 | Five steps give 999, 799, 599, 399, 199. |
| OnnxInference.ManifestFiles | src/scenario-08-onnx-native/huggingface/example_inference.py:105-107 | A manifest without "voices" lists no files. A list of voices lists none unless the name itself is an element. |
| OnnxInference.ExportedManifestListsNoFiles | src/scenario-08-onnx-native/huggingface/example_inference.py:98-121 | For any manifest the export tool writes, the loader finds no listed file. It uses the direct file if present, else the 1×256 zeros. |
| OnnxInference.VoiceFiles | src/scenario-08-onnx-native/huggingface/example_inference.py:105-109 | An unlisted voice has no files. Listed files are the `files.items()` of the voice's entry: each key once, at its first place, with its last path. |
| OnnxInference.RepeatedFileKeyTakesLastPath | src/scenario-08-onnx-native/huggingface/example_inference.py:109-112 | For files {"a": "x.npy", "b": "y.npy", "a": "z.npy"} only z.npy and then y.npy are tried, so an existing x.npy is not chosen. |
| OnnxInference.FirstExisting | src/scenario-08-onnx-native/huggingface/example_inference.py:109-112 | A chosen listed file exists. |
| OnnxInference.PresetSource | src/scenario-08-onnx-native/huggingface/example_inference.py:98-121 | A manifest that fails to decode raises its decode error. An existing listed file wins over the direct file. A file result always names an existing file. The conditioning is the 1×256 zero vector iff neither step finds a file. |
| OnnxInference.LoadVoicePreset | src/scenario-08-onnx-native/huggingface/example_inference.py:98-121 | The guarded-return method (decode error first, then the deduplicated file items, then the direct file) yields `PresetSource`. |
| BatchTts.PresetKeysDistinct | src/scenario-05-batch-processing/batch_tts.py:51-64 | The preset keys are distinct. |
| BatchTts.PresetFile | src/scenario-05-batch-processing/batch_tts.py:84-85 | A key has a preset file iff it is one of the table's keys, and the file is that key's value. |
| BatchTts.FirstMatch | src/scenario-05-batch-processing/batch_tts.py:88-95 | Returns the first listed name that ends in ".pt" and contains the voice name, compared lower case. None iff there is no such name. |
| BatchTts.ResolveVoiceFile | src/scenario-05-batch-processing/batch_tts.py:81-97 | An exact key, compared lower case, wins over any directory match. Otherwise the first matching ".pt" file is used. FileNotFoundError iff neither exists. |
| BatchTts.TryOpen | src/scenario-05-batch-processing/batch_tts.py:109 | Any match it returns satisfies the front-matter pattern's definition. |
| BatchTts.FrontMatter | src/scenario-05-batch-processing/batch_tts.py:109-115 | A reported match is a match of `^---\s*\n(.*?)\n---\s*\n` (DOTALL), ending within the text. |
| BatchTts.TryGroupSound | src/scenario-05-batch-processing/batch_tts.py:109 | The lazy group is a slice of the text followed by a closing delimiter. |
| BatchTts.FrontMatterOfSimpleHeader | src/scenario-05-batch-processing/batch_tts.py:109 | "---\n" + g + "\n---\n" + rest matches with group g, for a one-line g, ending before rest. |
| BatchTts.FrontMatterOfOneLine | src/scenario-05-batch-processing/batch_tts.py:109 | A one-line header followed by "\n---\n" matches exactly that header line. |
| BatchTts.ParseTextFile | src/scenario-05-batch-processing/batch_tts.py:112-121 | Without front matter: the whole stripped file and no voice. With it: an error iff YAML fails, with its message; a mapping gives the stripped remainder after the match and its "voice"; any other document gives the remainder and no voice. |
| BatchTts.ParseSimpleHeader | src/scenario-05-batch-processing/batch_tts.py:112-121 | A file "---\n" + g + "\n---\n" + body with a one-line header g that YAML reads as a mapping parses to the stripped body and that mapping's voice. |
| BatchTts.ChooseVoice | src/scenario-05-batch-processing/batch_tts.py:152-158 | A falsy override uses the default preset. A named override that loads is used; one that raises FileNotFoundError falls back to the default; any other loading error fails with its message. A truthy non-string override fails with the AttributeError of `.lower()`. |
| BatchTts.UnresolvedOverrideUsesDefault | src/scenario-05-batch-processing/batch_tts.py:152-156 | An override that cannot be resolved silently falls back to the default preset. |
| BatchTts.ProcessFile | src/scenario-05-batch-processing/batch_tts.py:128-196 | The record names the file. The status is failed iff an error is recorded, iff the attempt raised. A failed file has audio duration 0 and carries the exception's message. |
| BatchTts.EmptyTextFails | src/scenario-05-batch-processing/batch_tts.py:147-149 | Empty text gives a failed record with error "File is empty". |
| BatchTts.CountStatus | src/scenario-05-batch-processing/batch_tts.py:286-287 | The count is at most the number of results; it is all of them iff every result has that status, and zero iff none has. |
| BatchTts.SummaryPartitions | src/scenario-05-batch-processing/batch_tts.py:286-288 | succeeded + failed = total, and one failure line is listed per failed file. |
| BatchTts.SucceededAudioIsAllAudio | src/scenario-05-batch-processing/batch_tts.py:288 | Since failed files carry 0 audio, summing succeeded files equals summing all files. |
| BatchTts.RunBatch | src/scenario-05-batch-processing/batch_tts.py:214-303 | No .txt files returns early. A default voice that fails to load aborts. Otherwise there is one result per file and the summary is computed over them. Sequential mode keeps sorted order; parallel mode follows the completion order. |
| BatchTts.MapInOrder | src/scenario-05-batch-processing/batch_tts.py:265-282 | The loop appends one result per position of the processing order. |
| BatchTts.ProcessInOrder | src/scenario-05-batch-processing/batch_tts.py:265-282 | Result k is `process_file` of the k-th file in the processing order. |
| Multilingual.PresetFilenameParts | src/scenario-01-simple/main_multilingual.py:179 | The name is lang, '-', voice, ".pt", in that order. |
| Multilingual.ConfigOf | src/scenario-01-simple/main_multilingual.py:171 | A language has a configuration iff it is a key of the table. |
| Multilingual.PyIndex | src/scenario-01-simple/main_multilingual.py:178 | Python list indexing: defined iff -len ≤ i < len, and a negative index counts from the end. |
| Multilingual.SelectVoice | src/scenario-01-simple/main_multilingual.py:171-183 | An unknown language raises ValueError. An index ≥ the voice count raises ValueError. An index below -count raises IndexError, since only the upper bound is checked. A missing preset raises FileNotFoundError. Otherwise the selected voice's preset path is returned. |
| Multilingual.EveryLanguageHasAVoice | src/scenario-01-simple/main_multilingual.py:33-84 | Every configured language has at least one voice. |
| Multilingual.NegativeIndexPicksFromEnd | src/scenario-01-simple/main_multilingual.py:175-178 | Index -1 passes the guard and selects the last voice. |
| Multilingual.ChooseText | src/scenario-01-simple/main_multilingual.py:193 | A non-empty custom text wins; otherwise the language's sample text is used. |
| Multilingual.LanguageFiles | src/scenario-01-simple/main_multilingual.py:115-116 | A language contributes one file name per voice, in order. |
| Multilingual.PresetFilesComplete | src/scenario-01-simple/main_multilingual.py:113-116 | The download list has one entry per voice of every language, and contains exactly their preset names. |
| Multilingual.TotalVoicesOfTable | src/scenario-01-simple/main_multilingual.py:33-84 | The table has 23 voices in total. |
| Multilingual.DownloadList | src/scenario-01-simple/main_multilingual.py:113-116 | The nested loops build the list in table order, then voice order. |
| Multilingual.NothingFetchedWhenPresent | src/scenario-01-simple/main_multilingual.py:118-129 | When every preset exists, nothing is downloaded. |
| Multilingual.FetchedAppend | src/scenario-01-simple/main_multilingual.py:118-129 | A further file adds to the count iff it was missing and its fetch succeeded. |
| Multilingual.DownloadMissing | src/scenario-01-simple/main_multilingual.py:118-129 | The counter equals the number of missing files fetched successfully. |
| Multilingual.EntriesAt | src/scenario-01-simple/main_multilingual.py:261-273 | Language k is attempted with its first voice and the preset path under the voices directory. |
| Multilingual.GeneratedOneSpec | src/scenario-01-simple/main_multilingual.py:261-273 | A language is attempted at most once, iff its first voice's preset exists, and then with that voice and path. Whether the attempt raises is the engine outcome of `StepOne`. |
| Multilingual.GeneratedUsesFirstVoice | src/scenario-01-simple/main_multilingual.py:261-299 | Every generated language uses its first voice and an existing preset path, and its generation did not raise. |
| Multilingual.GeneratedFromStep | src/scenario-01-simple/main_multilingual.py:261-299 | A language whose attempt raises ends the loop with that exception and nothing from it; any other language adds its attempt and the loop goes on. |
| Multilingual.GenerationRaisesIffSomeFails | src/scenario-01-simple/main_multilingual.py:261-299 | The loop ends with an exception iff some language whose preset exists raises during its generation. |
| Multilingual.GenerationRaisesFirstFailure | src/scenario-01-simple/main_multilingual.py:261-299 | When the loop ends with an exception, it is the exception of the first language that raised; every earlier language was skipped or succeeded. |
| Multilingual.GeneratedAreEntries | src/scenario-01-simple/main_multilingual.py:261-299 | Every generated record is one of the languages' attempts, with an existing preset, and its generation did not raise. |
| Multilingual.GeneratedIffAttempted | src/scenario-01-simple/main_multilingual.py:261-299 | When no other attempt has its language, a language is in the output iff its preset exists, its generation does not raise, and no earlier language raised. |
| Multilingual.GeneratedIffPresetExists | src/scenario-01-simple/main_multilingual.py:261-299 | When no other language has its code, a language is generated iff its first voice's preset exists, its own generation does not raise, and no earlier language raised. |
| Multilingual.TableCodesDistinct | src/scenario-01-simple/main_multilingual.py:33-84 | The language codes are distinct. |
| Multilingual.GenerateLanguage | src/scenario-01-simple/main_multilingual.py:262-299 | One iteration skips a missing preset, and otherwise either raises the engine's exception or generates the entry, as `StepOne` says. |
| Multilingual.GenerateAllLanguages | src/scenario-01-simple/main_multilingual.py:252-300 | The loop generates as `GeneratedFrom` says, language by language, and stops at the first exception. |
| TtsService.RegistryIdsValue | src/scenario-02-fullstack/backend/app/services/tts_service.py:17-35 | The registry holds the fourteen ids, in order. |
| TtsService.RegistryIdsDistinct | src/scenario-02-fullstack/backend/app/services/tts_service.py:17-35 | Registry ids are unique. |
| TtsService.RegistryIdsMapped | src/scenario-02-fullstack/backend/app/services/tts_service.py:17-53 | Every registry id has a speaker, and every mapped id is in the registry. |
| TtsService.SpeakerFor | src/scenario-02-fullstack/backend/app/services/tts_service.py:118-123 | A mapped id gives its speaker, and any other id "EN-Default". |
| TtsService.SpeakerOfRegistryVoices | src/scenario-02-fullstack/backend/app/services/tts_service.py:118-123 | A registry voice uses its mapped speaker; an id outside the registry uses "EN-Default". |
| TtsService.GetVoiceById | src/scenario-02-fullstack/backend/app/services/tts_service.py:91-97 | The linear search returns the first registry voice with that id, or None iff there is none. |
| TtsService.TTSService.constructor | src/scenario-02-fullstack/backend/app/services/tts_service.py:61-62 | No model, and not initialised. |
| TtsService.TTSService.Initialize | src/scenario-02-fullstack/backend/app/services/tts_service.py:64-79 | Does nothing once initialised. A successful load stores the model and marks the service loaded. A failure raises and leaves it uninitialised, so a retry is possible. |
| TtsService.TTSService.GenerateAudio | src/scenario-02-fullstack/backend/app/services/tts_service.py:100-134 | Without a loaded model it is a RuntimeError, before any voice mapping. Otherwise it synthesises with the mapped speaker, "EN-Default" for an unknown id. |
| Routes.HealthCheck | src/scenario-02-fullstack/backend/app/api/routes.py:21-31 | "healthy" iff the model is loaded; `model_loaded` reports it. |
| Routes.GenerateSpeech | src/scenario-02-fullstack/backend/app/api/routes.py:53-108 | Empty or blank text gives 400 VALIDATION_ERROR, checked before the format. A format other than "wav" gives 400 UNSUPPORTED_FORMAT. The voice id never causes a 400. The generator gets the stripped text. RuntimeError gives 500 MODEL_ERROR, and any other error 500 GENERATION_ERROR. Success returns audio/wav with the attachment header. |
| Routes.PostTts | src/scenario-02-fullstack/backend/app/models/schemas.py:22-37 | A body that fails schema validation gets 422 with its non-empty error list. A valid body goes to `generate_speech`. |
| Routes.UnknownVoiceUsesDefaultSpeaker | src/scenario-02-fullstack/backend/app/api/routes.py:77-87 | An id outside the registry is accepted and synthesised with "EN-Default". |
| Routes.DefaultVoiceIsNotRegistered | src/scenario-02-fullstack/backend/app/models/schemas.py:30-33 | The default voice id "en-carter" is not in the registry. |
| Routes.BlankTextIsValidationError | src/scenario-02-fullstack/backend/app/api/routes.py:63-68 | Whitespace-only text that passes the schema still gets 400 VALIDATION_ERROR. |
| Schemas.StrField | src/scenario-02-fullstack/backend/app/models/schemas.py:11-14 | A required string field succeeds iff present and a string. It reports Missing iff the key is absent. |
| Schemas.StrFieldOr | src/scenario-02-fullstack/backend/app/models/schemas.py:30-37 | A string field with a default uses the default iff the key is absent, and rejects non-strings. |
| Schemas.AsBool | src/scenario-02-fullstack/backend/app/models/schemas.py:49 | pydantic's lax `bool`: a boolean reads as itself; a number only as 0 or 1, meaning its truth value; a string iff its lower-cased form is one of "1", "on", "t", "true", "y", "yes" (True) or "0", "off", "f", "false", "n", "no" (False); null, lists and objects never. |
| Schemas.BoolField | src/scenario-02-fullstack/backend/app/models/schemas.py:49 | A required `bool` field succeeds iff present and readable as a boolean, with that value; a JSON boolean reads as itself. Missing iff absent, otherwise NotABool. |
| Schemas.TextField | src/scenario-02-fullstack/backend/app/models/schemas.py:24-29 | `text` is accepted iff it is a string of 1 to 1000 characters. |
| Schemas.ErrorsOf | src/scenario-02-fullstack/backend/app/models/schemas.py:22-37 | No errors iff every field validated. |
| Schemas.ValidateTtsRequest | src/scenario-02-fullstack/backend/app/models/schemas.py:22-37 | A non-object is rejected. Otherwise the request is valid iff all three fields are. The text is the body's, of length 1..1000. Missing `voice_id` and `output_format` default to "en-carter" and "wav". A rejection lists at least one error. |
| Schemas.TextBoundsRejected | src/scenario-02-fullstack/python-api/tests/test_api.py:97-127 | Missing, empty and over-long (> 1000) text are all rejected. |
| Schemas.ValidateVoice | src/scenario-02-fullstack/backend/app/models/schemas.py:9-14 | A voice is valid iff id, name, language and style are all present strings, and it carries them. |
| Schemas.ValidateVoiceOk | src/scenario-02-fullstack/backend/app/models/schemas.py:9-14 | Any object with those four string fields validates to that voice. |
| Schemas.VoiceRoundTrip | src/scenario-02-fullstack/backend/app/models/schemas.py:9-14 | Serialising a voice and validating it gives the same voice. |
| Schemas.ValidateErrorResponse | src/scenario-02-fullstack/backend/app/models/schemas.py:40-43 | Valid iff error and code are present strings. |
| Schemas.ErrorResponseRoundTrip | src/scenario-02-fullstack/backend/app/models/schemas.py:40-43 | Serialising and validating an error response is the identity. |
| Schemas.ValidateHealthResponse | src/scenario-02-fullstack/backend/app/models/schemas.py:46-49 | Valid iff status is a present string and model_loaded is present and readable as a boolean, and it carries them. |
| Schemas.HealthResponseRoundTrip | src/scenario-02-fullstack/backend/app/models/schemas.py:46-49 | Serialising and validating a health response is the identity. |
| StreamTts.ChunkSizeValue | src/scenario-06-streaming-realtime/stream_tts.py:133 | The chunk size 24000 // 4 is 6000. |
| StreamTts.Chunks | src/scenario-06-streaming-realtime/stream_tts.py:168-169 | The number of chunks is ceil(n / 6000). |
| StreamTts.ChunkCountBounds | src/scenario-06-streaming-realtime/stream_tts.py:168-169 | No chunks iff the audio is empty. Chunk k exists iff k·6000 < n, and the chunks cover all n samples. |
| StreamTts.ChunkLengths | src/scenario-06-streaming-realtime/stream_tts.py:168 | Every chunk but the last has 6000 samples, and the last has 1 to 6000. |
| StreamTts.JoinedPrefix | src/scenario-06-streaming-realtime/stream_tts.py:177 | The first m chunks joined are the first min(m·6000, n) samples. |
| StreamTts.ChunksJoinToAudio | src/scenario-06-streaming-realtime/stream_tts.py:168 | Concatenating all chunks gives back the audio exactly. |
| StreamTts.Playback | src/scenario-06-streaming-realtime/stream_tts.py:173-183 | After chunk idx the loop reports idx + 1 chunks and min((idx + 1)·6000, n) samples. After the last chunk it reports n samples. |
| StreamTts.MissingPresets | src/scenario-06-streaming-realtime/stream_tts.py:61-66 | The files downloaded are exactly the listed presets that are missing. |
| StreamTts.DownloadsSucceedIff | src/scenario-06-streaming-realtime/stream_tts.py:61-66 | The loop ends without an exception iff every missing preset's fetch succeeds. |
| StreamTts.DownloadsPrefix | src/scenario-06-streaming-realtime/stream_tts.py:61-66 | The files fetched are a prefix of the missing presets. After an exception, the exception is that of the first missing preset not fetched. |
| StreamTts.DownloadsFetchMissing | src/scenario-06-streaming-realtime/stream_tts.py:61-66 | The files fetched are a prefix of the missing presets. The run raises iff some missing preset's fetch fails, and then with the first failure, after fetching exactly the presets before it. |
| StreamTts.DownloadsAllMissing | src/scenario-06-streaming-realtime/stream_tts.py:61-66 | When no fetch fails, exactly the missing presets are fetched, in list order, with no exception. |
| StreamTts.DownloadVoices | src/scenario-06-streaming-realtime/stream_tts.py:54-66 | Nothing is fetched when presets already exist. Otherwise the loop fetches the missing ones of the four in list order and stops at the first failed fetch, as `Downloads` says. |
| StreamTts.FirstMatchFrom | src/scenario-06-streaming-realtime/stream_tts.py:111-112 | Returns the first matching file, or None iff none matches. |
| StreamTts.SelectVoiceFile | src/scenario-06-streaming-realtime/stream_tts.py:111-116 | Returns the first file whose lower-cased basename contains the lower-cased speaker. FileNotFoundError iff there is none. |
| StreamTts.MatchIgnoresCase | src/scenario-06-streaming-realtime/stream_tts.py:111-112 | The speaker's case does not affect the match. |
| StreamTts.FinishRun | src/scenario-06-streaming-realtime/stream_tts.py:169-213 | The WAV file is written iff soundfile is available and the audio is non-empty, and then it holds the whole audio. The chunk count is the number of chunks. |
| Text.StripEmptyIffAllSpace | src/scenario-02-fullstack/backend/app/api/routes.py:64 | `s.strip()` is empty iff s is all whitespace. |
| Text.StripIsInfix | src/scenario-05-batch-processing/batch_tts.py:118 | A stripped string is a contiguous part of the original. |
| Text.SplitWords | src/scenario-08-onnx-native/huggingface/example_inference.py:81 | `str.split()` yields non-empty words without whitespace, of total length at most the input's. |
| Text.Contains | src/scenario-04-meai/backend/app/services/chat_service.py:76 | `a in b` on strings holds iff a occurs in b at some position. |
| Text.ReplaceCharSpec | src/scenario-08-onnx-native/export/export_voice_presets.py:110 | Replacing a character by text without it removes every occurrence and introduces nothing else. |
| Text.Lower | src/scenario-05-batch-processing/batch_tts.py:83 | Lower-casing maps every character and keeps the length. |
| Text.NatToString | src/scenario-01-simple/main_multilingual.py:176 | `str(n)` is decimal digits that denote n, with no leading zero. |
| Text.Basename | src/scenario-06-streaming-realtime/stream_tts.py:112 | The basename has no '/' and is a suffix of the path. |

## Left out

- The VibeVoice engine, the ONNX sessions, STT (Whisper) and the Ollama client are external. They are parameters: oracle functions from input to result or error.
- Tensor contents, numpy arrays and `torch.load` are left out. A tensor is its dtype and shape, and loading a preset is a parameter returning a tree or an error.
- Floating point is left out: durations, real-time factors, the beta/alpha schedule and the DDPM update. The timestep schedule uses exact rationals, and an audio duration is the exact real samples / 24000.
- The locks and the singleton `__new__` of `ReadyStateManager` and `TTSService` are left out. The manager is a plain class, and only the nested use of `_state_lock` in `to_dict` is modelled (see Findings).
- Wall-clock time (`time.time`, `datetime.utcnow`) and the batch `duration` field are left out. The model takes the clock readings as parameters and leaves the per-file `duration` out.
- `to_dict` of the manager is modelled as intended (`ToDict`). The as-written version never returns (`ToDictWith(PlainLock)`).
- Parallel batch mode's completion order is a parameter, a permutation of the files.
- YAML parsing is an oracle returning a mapping, another document or an error.
- Filesystem and network are parameters: existence tests, directory listings and download outcomes (a failed fetch is an exception message). Creating directories, writing `.npy`/`.wav`/`structure.json` files and `manifest.json` serialisation are left out. `sounddevice` playback and all printing and logging are left out.
- `download_voices` in batch_tts.py (it fetches the set of preset values) is not modelled separately. The same skip-if-present rule is proved for the streaming and multilingual scripts.
- `TTSService.get_voices` and the `/voices` endpoint (`list_voices`) only return the registry constant. That content is stated by `TtsService.RegistryIdsValue`, and the endpoint is not modelled.
- `TTSService._audio_to_wav_bytes` is part of the engine parameter (`synthesize` returns WAV bytes).
- The tokenizer's numpy `int64` array is the sequence of one row.
- Text.Lower: only ASCII letters are lower-cased. Python's `str.lower` also folds other Unicode letters.
- The test in `test_api.py` that expects an unknown `voice_id` to be rejected is not followed. `generate_speech` deliberately accepts any voice (`Routes.UnknownVoiceUsesDefaultSpeaker`).
- The exporter's manifest is not read back by the ONNX loader, since the two formats differ: `OnnxInference.ExportedManifestListsNoFiles` states what the loader does with an exported manifest, and `VoicePresetExport.ManifestRoundTrip` reads it back by its own keys.
- OnnxInference.VocabValue: a truthy vocabulary that is not an object of integer values is refused as `UnsupportedVocab`. Python goes on with it: a list or string vocabulary is searched with `in`, and fails only when an id is looked up or the int64 array is built.
- OnnxInference.ManifestFiles: the contract covers the list and missing-key cases. The dict-keyed-by-name case is left to the function's definition (`VoiceFiles`).
- BatchTts.FrontMatter: the contract proves soundness (a reported match is a match), and the two header lemmas prove completeness for one-line headers only, not for every input.

## Findings

| source | as written | input that shows it | evidently intended | confidence | as-written member | corrected member |
|---|---|---|---|---|---|---|
| src/scenario-04-meai/backend/app/services/ready_state.py:174-189 | `to_dict` holds the non-reentrant `threading.Lock` `_state_lock` (created at line 82) and, inside the `with` block, calls `is_ready`, which enters `with self._state_lock:` again (line 166) | any manager state and any call to `to_dict()`, e.g. on a freshly constructed manager | return the readiness snapshot, with `ready` computed under the lock already held (or with an `RLock`) | high; not executed | ReadyState.ToDictWithPlainLockBlocks | ReadyState.ReadyStateManager.ToDict |
