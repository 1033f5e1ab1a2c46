/** Helpers of the ONNX inference example
    (`huggingface/example_inference.py`): the vocabulary lookup tokenizer,
    the descending diffusion timestep schedule and the voice conditioning
    lookup with its zero fallback. The tokenizer file and the manifest arrive
    already decoded; file existence is a parameter. */
module OnnxInference {
  import opened Wrappers
  import opened Text
  import opened JsonValues
  import VoicePresetExport

  /** The byte-level BPE marker for a leading space, "Ġ". */
  const SPACE_MARK: char := '\U{0120}'

  const NUM_TRAIN: int := 1000
  const DEFAULT_NUM_STEPS: int := 5
  const CONDITIONING_WIDTH: nat := 256

  // ---------------------------------------------------------------------
  // Vocabulary

  datatype TokenizeError =
    | AttributeError(typeName: string)
    | ValueError(message: string)
    /** A truthy vocabulary that is not an object of integers. */
    | UnsupportedVocab
    /** `json.load` could not decode the tokenizer file. */
    | DecodeError(message: string)

  predicate IntValued(fields: seq<(string, Json)>) {
    forall i :: 0 <= i < |fields| ==> fields[i].1.JInt?
  }

  /** The dict an object of integers decodes to. */
  function ToMap(fields: seq<(string, Json)>): (m: map<string, int>)
    requires IntValued(fields)
    ensures forall k :: k in m <==> k in Keys(fields)
  {
    if fields == [] then map[]
    else
      var init := fields[..|fields| - 1];
      assert Keys(fields) == Keys(init) + [fields[|fields| - 1].0];
      ToMap(init)[fields[|fields| - 1].0 := fields[|fields| - 1].1.i]
  }

  /** Each id is the value of the key's last occurrence, as `json.load` keeps it. */
  lemma {:induction false} ToMapAgreesWithLookup(fields: seq<(string, Json)>, k: string)
    requires IntValued(fields) && k in ToMap(fields)
    ensures Lookup(fields, k) == Some(JInt(ToMap(fields)[k]))
    decreases |fields|
  {
    var init := fields[..|fields| - 1];
    if fields[|fields| - 1].0 != k {
      ToMapAgreesWithLookup(init, k);
    }
  }

  /** The tokenizer file is an object whose "model" entry, if any, is an
      object too: otherwise the `.get` chain raises. */
  predicate ModelUsable(data: Json) {
    data.JObj? && (Lookup(data.fields, "model").None? || Lookup(data.fields, "model").value.JObj?)
  }

  /** `tokenizer_data.get("model", {}).get("vocab", tokenizer_data.get("vocab", {}))`
      followed by the emptiness check. */
  function VocabOf(data: Json): (r: Result<map<string, int>, TokenizeError>)
    ensures !ModelUsable(data) ==> r.Err? && r.error.AttributeError?
    // The model's vocabulary wins ...
    ensures ModelUsable(data) && Lookup(ModelOf(data), "vocab").Some?
            ==> r == VocabValue(Lookup(ModelOf(data), "vocab").value)
    // ... and the top-level one is used only when the model has none.
    ensures ModelUsable(data) && Lookup(ModelOf(data), "vocab").None? && Lookup(data.fields, "vocab").Some?
            ==> r == VocabValue(Lookup(data.fields, "vocab").value)
    ensures ModelUsable(data) && Lookup(ModelOf(data), "vocab").None? && Lookup(data.fields, "vocab").None?
            ==> r == Err(ValueError("Could not find vocabulary in tokenizer.json"))
  {
    if !data.JObj? then Err(AttributeError(TypeName(data)))
    else
      var model := Lookup(data.fields, "model").GetOr(JObj([]));
      if !model.JObj? then Err(AttributeError(TypeName(model)))
      else
        var vocab := match Lookup(model.fields, "vocab")
          case Some(v) => v
          case None => Lookup(data.fields, "vocab").GetOr(JObj([]));
        VocabValue(vocab)
  }

  /** The `if not vocab` check on the chosen value; a usable vocabulary maps
      token strings to integer ids. */
  function VocabValue(vocab: Json): (r: Result<map<string, int>, TokenizeError>)
    ensures !Truthy(vocab) <==> r == Err(ValueError("Could not find vocabulary in tokenizer.json"))
    ensures r.Ok? ==> vocab.JObj? && vocab.fields != [] && IntValued(vocab.fields) && r.value == ToMap(vocab.fields)
  {
    if !Truthy(vocab) then Err(ValueError("Could not find vocabulary in tokenizer.json"))
    else if vocab.JObj? && IntValued(vocab.fields) then Ok(ToMap(vocab.fields))
    else Err(UnsupportedVocab)
  }

  /** The fields of the "model" entry, when it is an object. */
  function ModelOf(data: Json): seq<(string, Json)>
    requires data.JObj?
  {
    match Lookup(data.fields, "model")
    case Some(JObj(fs)) => fs
    case _ => []
  }

  // ---------------------------------------------------------------------
  // Tokenizing

  function Max(a: int, b: int): int {
    if a < b then b else a
  }

  /** One character of the fallback: with the marker while nothing has been
      emitted yet, then bare; a character found in neither form is dropped. */
  function CharToken(c: char, vocab: map<string, int>, emitted: bool): (ts: seq<int>)
    ensures |ts| <= 1
  {
    var ct := if emitted then [c] else [SPACE_MARK, c];
    if ct in vocab then [vocab[ct]]
    else if [c] in vocab then [vocab[[c]]]
    else []
  }

  /** The character fallback over a word; `emitted` says whether any token has
      been emitted so far (in the whole text). */
  function CharTokens(chars: string, vocab: map<string, int>, emitted: bool): (ts: seq<int>)
    ensures |ts| <= |chars|
  {
    if chars == [] then []
    else
      var t := CharToken(chars[0], vocab, emitted);
      t + CharTokens(chars[1..], vocab, emitted || t != [])
  }

  /** The ids of one word: "Ġ"+word, then word, then the character fallback. */
  function WordTokens(word: string, vocab: map<string, int>, emitted: bool): (ts: seq<int>)
    ensures |ts| <= Max(1, |word|)
  {
    if [SPACE_MARK] + word in vocab then [vocab[[SPACE_MARK] + word]]
    else if word in vocab then [vocab[word]]
    else CharTokens(word, vocab, emitted)
  }

  /** The loop over the words, after `acc` has been emitted. */
  function TokensFrom(words: seq<string>, vocab: map<string, int>, acc: seq<int>): seq<int> {
    if words == [] then acc
    else TokensFrom(words[1..], vocab, acc + WordTokens(words[0], vocab, acc != []))
  }

  /** The token ids of `simple_tokenize(text)`, before the 1×n wrapping. */
  function Tokenize(text: string, vocab: map<string, int>): seq<int> {
    TokensFrom(Split(text), vocab, [])
  }

  predicate AllIds(ts: seq<int>, vocab: map<string, int>) {
    forall i :: 0 <= i < |ts| ==> ts[i] in vocab.Values
  }

  lemma {:induction false} CharTokensAreIds(chars: string, vocab: map<string, int>, emitted: bool)
    ensures AllIds(CharTokens(chars, vocab, emitted), vocab)
    decreases |chars|
  {
    if chars != [] {
      var t := CharToken(chars[0], vocab, emitted);
      CharTokensAreIds(chars[1..], vocab, emitted || t != []);
      var ct := if emitted then [chars[0]] else [SPACE_MARK, chars[0]];
      if ct in vocab {
        assert vocab[ct] in vocab.Values;
      } else if [chars[0]] in vocab {
        assert vocab[[chars[0]]] in vocab.Values;
      }
    }
  }

  lemma WordTokensAreIds(word: string, vocab: map<string, int>, emitted: bool)
    ensures AllIds(WordTokens(word, vocab, emitted), vocab)
  {
    if [SPACE_MARK] + word in vocab {
      assert vocab[[SPACE_MARK] + word] in vocab.Values;
    } else if word in vocab {
      assert vocab[word] in vocab.Values;
    } else {
      CharTokensAreIds(word, vocab, emitted);
    }
  }

  lemma {:induction false} TokensFromBounds(words: seq<string>, vocab: map<string, int>, acc: seq<int>)
    requires AllIds(acc, vocab)
    requires forall i :: 0 <= i < |words| ==> words[i] != []
    ensures AllIds(TokensFrom(words, vocab, acc), vocab)
    ensures |TokensFrom(words, vocab, acc)| <= |acc| + TotalLength(words)
    decreases |words|
  {
    if words != [] {
      var ts := WordTokens(words[0], vocab, acc != []);
      WordTokensAreIds(words[0], vocab, acc != []);
      assert forall i :: 0 <= i < |words[1..]| ==> words[1..][i] == words[i + 1];
      TokensFromBounds(words[1..], vocab, acc + ts);
    }
  }

  /** Every emitted id is a vocabulary value, and there are never more ids
      than characters in the text (each word gives at most one id per
      character). */
  lemma TokenizeBounds(text: string, vocab: map<string, int>)
    ensures AllIds(Tokenize(text, vocab), vocab)
    ensures |Tokenize(text, vocab)| <= |text|
  {
    SplitWords(text);
    var ws := Split(text);
    assert forall i :: 0 <= i < |ws| ==> ws[i] != [];
    TokensFromBounds(ws, vocab, []);
  }

  /** Plain per-character lookup without the marker. */
  function BareCharTokens(chars: string, vocab: map<string, int>): seq<int> {
    if chars == [] then []
    else (if [chars[0]] in vocab then [vocab[[chars[0]]]] else []) + BareCharTokens(chars[1..], vocab)
  }

  /** Once any token has been emitted, the fallback never uses the marker. */
  lemma {:induction false} FallbackAfterFirstTokenIsBare(chars: string, vocab: map<string, int>)
    ensures CharTokens(chars, vocab, true) == BareCharTokens(chars, vocab)
    decreases |chars|
  {
    if chars != [] {
      FallbackAfterFirstTokenIsBare(chars[1..], vocab);
    }
  }

  /** In the fallback for the very first token, the marked form of the first
      character is preferred. */
  lemma FirstFallbackUsesMarker(chars: string, vocab: map<string, int>)
    requires chars != [] && [SPACE_MARK, chars[0]] in vocab
    ensures CharTokens(chars, vocab, false) == [vocab[[SPACE_MARK, chars[0]]]] + BareCharTokens(chars[1..], vocab)
  {
    FallbackAfterFirstTokenIsBare(chars[1..], vocab);
  }

  /** The character fallback as the loop runs it, appending to the ids
      emitted so far. */
  function CharTokensFrom(chars: string, vocab: map<string, int>, acc: seq<int>): seq<int>
    decreases |chars|
  {
    if chars == [] then acc
    else CharTokensFrom(chars[1..], vocab, acc + CharToken(chars[0], vocab, acc != []))
  }

  lemma {:induction false} CharTokensFromAppends(chars: string, vocab: map<string, int>, acc: seq<int>)
    ensures CharTokensFrom(chars, vocab, acc) == acc + CharTokens(chars, vocab, acc != [])
    decreases |chars|
  {
    if chars != [] {
      var t := CharToken(chars[0], vocab, acc != []);
      CharTokensFromAppends(chars[1..], vocab, acc + t);
      assert (acc + t != []) == (acc != [] || t != []);
      assert acc + t + CharTokens(chars[1..], vocab, acc != [] || t != [])
             == acc + (t + CharTokens(chars[1..], vocab, acc != [] || t != []));
    }
  }

  /** One pass of the inner loop: the marked form while `tokens` is empty,
      then the bare character, else nothing. */
  method AppendCharToken(c: char, vocab: map<string, int>, tokens0: seq<int>) returns (tokens: seq<int>)
    ensures tokens == tokens0 + CharToken(c, vocab, tokens0 != [])
  {
    tokens := tokens0;
    var charToken := if tokens == [] then [SPACE_MARK, c] else [c];
    if charToken in vocab {
      tokens := tokens + [vocab[charToken]];
    } else if [c] in vocab {
      tokens := tokens + [vocab[[c]]];
    }
  }

  /** The inner `for char in word` loop of `simple_tokenize`. */
  method AppendCharTokens(word: string, vocab: map<string, int>, tokens0: seq<int>) returns (tokens: seq<int>)
    ensures tokens == tokens0 + CharTokens(word, vocab, tokens0 != [])
  {
    tokens := tokens0;
    var ci := 0;
    assert word[0..] == word;
    while ci < |word|
      invariant 0 <= ci <= |word|
      invariant CharTokensFrom(word[ci..], vocab, tokens) == CharTokensFrom(word, vocab, tokens0)
    {
      ghost var rest := word[ci..];
      assert rest[0] == word[ci] && rest[1..] == word[ci + 1..];
      tokens := AppendCharToken(word[ci], vocab, tokens);
      ci := ci + 1;
    }
    CharTokensFromAppends(word, vocab, tokens0);
  }

  /** The nested loops of `simple_tokenize` once the vocabulary is known: the
      ids, as the single row of a 1×n array. */
  method TokenizeIds(text: string, vocab: map<string, int>) returns (ids: seq<seq<int>>)
    ensures ids == [Tokenize(text, vocab)]
  {
    var words := Split(text);
    var tokens: seq<int> := [];
    var wi := 0;
    while wi < |words|
      invariant 0 <= wi <= |words|
      invariant TokensFrom(words[wi..], vocab, tokens) == Tokenize(text, vocab)
    {
      assert words[wi..][1..] == words[wi + 1..];
      var word := words[wi];
      var withSpace := [SPACE_MARK] + word;
      if withSpace in vocab {
        tokens := tokens + [vocab[withSpace]];
      } else if word in vocab {
        tokens := tokens + [vocab[word]];
      } else {
        tokens := AppendCharTokens(word, vocab, tokens);
      }
      wi := wi + 1;
    }
    assert words[wi..] == [];
    ids := [tokens];
  }

  /** `simple_tokenize(text, tokenizer_path)` given what `json.load` made of
      the tokenizer file: the decoded value, or the message of the
      `JSONDecodeError` it raised. */
  method SimpleTokenize(text: string, tokenizerData: Result<Json, string>) returns (r: Result<seq<seq<int>>, TokenizeError>)
    ensures tokenizerData.Err? ==> r == Err(DecodeError(tokenizerData.error))
    ensures tokenizerData.Ok? && VocabOf(tokenizerData.value).Err? ==> r == Err(VocabOf(tokenizerData.value).error)
    ensures tokenizerData.Ok? && VocabOf(tokenizerData.value).Ok?
            ==> r == Ok([Tokenize(text, VocabOf(tokenizerData.value).value)])
  {
    if tokenizerData.Err? {
      return Err(DecodeError(tokenizerData.error));
    }
    var vocab := VocabOf(tokenizerData.value);
    if vocab.Err? {
      return Err(vocab.error);
    }
    var ids := TokenizeIds(text, vocab.value);
    return Ok(ids);
  }

  // ---------------------------------------------------------------------
  // Timestep schedule

  /** Python's `round` on an exact value: to the nearest integer, ties to
      the even one. */
  function RoundHalfEven(x: real): (r: int)
    ensures -(1.0 / 2.0) <= x - r as real <= 1.0 / 2.0
    ensures (x - r as real == 1.0 / 2.0 || r as real - x == 1.0 / 2.0) ==> r % 2 == 0
  {
    var f := x.Floor;
    var d := x - f as real;
    if d < 1.0 / 2.0 then f
    else if d > 1.0 / 2.0 then f + 1
    else if f % 2 == 0 then f else f + 1
  }

  lemma RoundMonotone(x: real, y: real)
    requires x <= y
    ensures RoundHalfEven(x) <= RoundHalfEven(y)
  {
  }

  lemma DivMonotone(a: real, b: real, n: real)
    requires a <= b && n > 0.0
    ensures a / n <= b / n
  {
  }

  lemma RoundOfInt(n: int)
    ensures RoundHalfEven(n as real) == n
  {
  }

  /** The i-th entry before clamping: `round(num_train - 1 - i * step_size)`. */
  function RawTimestep(numSteps: int, i: int): int
    requires numSteps > 0
  {
    RoundHalfEven(ExactTimestep(numSteps, i))
  }

  /** `num_train - 1 - i * (num_train / num_steps)`, computed exactly. */
  function ExactTimestep(numSteps: int, i: int): real
    requires numSteps > 0
  {
    ((NUM_TRAIN - 1) * numSteps - NUM_TRAIN * i) as real / numSteps as real
  }

  /** The schedule of `run_pipeline` (lines computing `step_size` and
      `timesteps`): dividing by zero steps raises, a negative count gives an
      empty range. */
  function Timesteps(numSteps: int): (r: Result<seq<int>, string>)
    ensures r.Err? <==> numSteps == 0
    ensures numSteps < 0 ==> r == Ok([])
  {
    if numSteps == 0 then Err("ZeroDivisionError: division by zero")
    else if numSteps < 0 then Ok([])
    else Ok(seq(numSteps, i requires 0 <= i < numSteps => Max(RawTimestep(numSteps, i), 0)))
  }

  /** The schedule has `num_steps` entries, starts at `num_train - 1`, stays
      within [0, num_train - 1] and never increases. */
  lemma TimestepsDescend(numSteps: int)
    requires numSteps > 0
    ensures var ts := Timesteps(numSteps).value;
            && |ts| == numSteps
            && ts[0] == NUM_TRAIN - 1
            && (forall i :: 0 <= i < |ts| ==> 0 <= ts[i] <= NUM_TRAIN - 1)
            && (forall i, j :: 0 <= i <= j < |ts| ==> ts[j] <= ts[i])
  {
    var ts := Timesteps(numSteps).value;
    var n := numSteps as real;
    assert ExactTimestep(numSteps, 0) == (NUM_TRAIN - 1) as real by {
      assert ((NUM_TRAIN - 1) * numSteps) as real == (NUM_TRAIN - 1) as real * n;
    }
    forall i | 0 <= i < |ts| ensures ts[i] <= NUM_TRAIN - 1 {
      DivMonotone(((NUM_TRAIN - 1) * numSteps - NUM_TRAIN * i) as real, ((NUM_TRAIN - 1) * numSteps) as real, n);
      assert ((NUM_TRAIN - 1) * numSteps) as real / n == ExactTimestep(numSteps, 0);
      RoundMonotone(ExactTimestep(numSteps, i), (NUM_TRAIN - 1) as real);
    }
    forall i, j | 0 <= i <= j < |ts| ensures ts[j] <= ts[i] {
      DivMonotone(((NUM_TRAIN - 1) * numSteps - NUM_TRAIN * j) as real, ((NUM_TRAIN - 1) * numSteps - NUM_TRAIN * i) as real, n);
      RoundMonotone(ExactTimestep(numSteps, j), ExactTimestep(numSteps, i));
    }
  }

  /** The default five steps. */
  lemma DefaultSchedule()
    ensures Timesteps(DEFAULT_NUM_STEPS) == Ok([999, 799, 599, 399, 199])
  {
    var ts := Timesteps(5).value;
    forall i | 0 <= i < 5 ensures ts[i] == 999 - 200 * i {
      assert ExactTimestep(5, i) == (999 - 200 * i) as real;
      RoundOfInt(999 - 200 * i);
    }
    assert ts == [999, 799, 599, 399, 199];
  }

  // ---------------------------------------------------------------------
  // Voice conditioning

  /** Where the conditioning comes from: a `.npy` file reshaped to one row,
      or the 1×256 zero vector. */
  datatype Conditioning = FromFile(path: string) | Zeros(rows: nat, cols: nat)

  /** The `files` entries the manifest lists for a voice ([] when it lists
      none), or the error its shape raises. `voice_name in voices` also works
      on a list (membership) and on a string (substring); what follows it then
      raises, since neither can be indexed by a string. Any other scalar is not
      iterable. */
  function ManifestFiles(manifest: Json, voiceName: string): (r: Result<seq<(string, Json)>, string>)
    // A list of entries, as the export tool writes `voices`, lists no files unless it holds the name itself.
    ensures manifest.JObj? && Lookup(manifest.fields, "voices").Some?
            && Lookup(manifest.fields, "voices").value.JArr?
            && JStr(voiceName) !in Lookup(manifest.fields, "voices").value.items
            ==> r == Ok([])
    ensures manifest.JObj? && Lookup(manifest.fields, "voices").None? ==> r == Ok([])
  {
    if !manifest.JObj? then Err("AttributeError: '" + TypeName(manifest) + "' object has no attribute 'get'")
    else
      var voices := Lookup(manifest.fields, "voices").GetOr(JObj([]));
      match voices
      case JArr(items) =>
        if JStr(voiceName) in items then Err("TypeError: list indices must be integers or slices, not str")
        else Ok([])
      case JStr(s) =>
        if Contains(s, voiceName) then Err("TypeError: string indices must be integers, not 'str'")
        else Ok([])
      case JObj(vfields) => VoiceFiles(vfields, voiceName)
      case _ => Err("TypeError: argument of type '" + TypeName(voices) + "' is not iterable")
  }

  /** The `files.items()` of a voice in a `voices` object: each file key
      once, where it first occurs, with its last value. */
  function VoiceFiles(voices: seq<(string, Json)>, voiceName: string): (r: Result<seq<(string, Json)>, string>)
    ensures Lookup(voices, voiceName).None? ==> r == Ok([])
    ensures r.Ok? && r.value != [] ==>
              var entry := Lookup(voices, voiceName).value;
              entry.JObj? && Lookup(entry.fields, "files").Some? && Lookup(entry.fields, "files").value.JObj?
              && r.value == Items(Lookup(entry.fields, "files").value.fields)
  {
    match Lookup(voices, voiceName)
        case None => Ok([])
        case Some(entry) =>
          if !entry.JObj? then Err("AttributeError: '" + TypeName(entry) + "' object has no attribute 'get'")
          else
            var files := Lookup(entry.fields, "files").GetOr(JObj([]));
            if !files.JObj? then Err("AttributeError: '" + TypeName(files) + "' object has no attribute 'items'")
            else Ok(Items(files.fields))
  }

  /** The manifest the export tool writes keeps its voices in a list of
      entry objects, so `voice_name in voices` never holds for it: this
      lookup finds no listed file for any voice, and the conditioning comes
      from the direct file or is the zero vector. */
  lemma ExportedManifestListsNoFiles(entries: seq<VoicePresetExport.VoiceEntry>, voiceName: string,
                                     voicesDir: string, exists_: string -> bool)
    ensures ManifestFiles(VoicePresetExport.Manifest(entries), voiceName) == Ok([])
    ensures PresetSource(voicesDir, voiceName, Some(Ok(VoicePresetExport.Manifest(entries))), exists_)
            == if exists_(DirectPath(voicesDir, voiceName)) then Ok(FromFile(DirectPath(voicesDir, voiceName)))
               else Ok(Zeros(1, CONDITIONING_WIDTH))
  {
    var m := VoicePresetExport.Manifest(entries);
    var voices := m.fields[3].1;
    assert m.fields == m.fields[..3] + [("voices", voices)];
    LookupAppended(m.fields[..3], "voices", voices);
    forall i | 0 <= i < |voices.items| ensures voices.items[i].JObj? {
      assert voices.items[i] == VoicePresetExport.EntryJson(entries[i]);
    }
    assert JStr(voiceName) !in voices.items;
  }

  /** The first listed file (in order) that exists, with its path. */
  function FirstExisting(voicesDir: string, files: seq<(string, Json)>, exists_: string -> bool): (r: Result<Option<string>, string>)
    ensures r.Ok? && r.value.Some? ==> exists_(r.value.value)
  {
    if files == [] then Ok(None)
    else if !files[0].1.JStr? then Err(JoinTypeError(files[0].1))
    else
      var npy := JoinPath(voicesDir, files[0].1.s);
      if exists_(npy) then Ok(Some(npy)) else FirstExisting(voicesDir, files[1..], exists_)
  }

  /** A file key listed twice is tried once, at its first place, with its
      last path: of `{"a": "x.npy", "b": "y.npy", "a": "z.npy"}` only
      `z.npy` and then `y.npy` are looked for, so an existing `x.npy` is
      never chosen. */
  lemma RepeatedFileKeyTakesLastPath(voicesDir: string, exists_: string -> bool)
    requires exists_(JoinPath(voicesDir, "x.npy"))
    requires !exists_(JoinPath(voicesDir, "y.npy")) && !exists_(JoinPath(voicesDir, "z.npy"))
    ensures var files := [("a", JStr("x.npy")), ("b", JStr("y.npy")), ("a", JStr("z.npy"))];
            Items(files) == [("a", JStr("z.npy")), ("b", JStr("y.npy"))]
            && FirstExisting(voicesDir, Items(files), exists_) == Ok(None)
  {
    var x, y, z := ("a", JStr("x.npy")), ("b", JStr("y.npy")), ("a", JStr("z.npy"));
    RepeatedKeyItems(x, y, z);
    var items := [z, y];
    assert items[1..] == [y] && [y][1..] == [];
    assert FirstExisting(voicesDir, [y], exists_) == Ok(None);
  }

  lemma RepeatedKeyItems(x: (string, Json), y: (string, Json), z: (string, Json))
    requires x.0 == z.0 && x.0 != y.0
    ensures Items([x, y, z]) == [z, y]
  {
    TwoKeyItems(x, y);
    ReassignFirstKey(x, y, z);
    assert [x, y, z][..2] == [x, y];
  }

  lemma ReassignFirstKey(x: (string, Json), y: (string, Json), z: (string, Json))
    requires x.0 == z.0 && x.0 != y.0
    ensures Assign([x, y], z.0, z.1) == [z, y]
  {
    assert Keys([x, y]) == [x.0, y.0];
    assert [x, y][..1] == [x];
    assert Keys([x]) == [z.0];
    assert [x][..0] == [];
    assert Assign([x], z.0, z.1) == [z];
  }

  lemma TwoKeyItems(x: (string, Json), y: (string, Json))
    requires x.0 != y.0
    ensures Items([x, y]) == [x, y]
  {
    assert [x][..0] == [];
    assert [x, y][..1] == [x];
    assert Keys([x]) == [x.0];
  }

  /** The TypeError `os.path.join` raises for a component that is not a path. */
  function JoinTypeError(v: Json): string {
    "TypeError: join() argument must be str, bytes, or os.PathLike object, not '" + TypeName(v) + "'"
  }

  function DirectPath(voicesDir: string, voiceName: string): string {
    JoinPath(JoinPath(voicesDir, voiceName), "speaker_embedding.npy")
  }

  /** What the manifest step finds: an existing file listed for the voice,
      nothing, or an error (a manifest `json.load` cannot decode raises);
      no manifest finds nothing. */
  function ManifestChoice(voicesDir: string, voiceName: string, manifest: Option<Result<Json, string>>, exists_: string -> bool)
    : Result<Option<string>, string>
  {
    if manifest.None? then Ok(None)
    else if manifest.value.Err? then Err(manifest.value.error)
    else match ManifestFiles(manifest.value.value, voiceName)
      case Err(e) => Err(e)
      case Ok(files) => FirstExisting(voicesDir, files, exists_)
  }

  /** `load_voice_preset(voices_dir, voice_name)`: `manifest` is what
      `json.load` made of manifest.json when that file exists, the decoded
      value or the message of its `JSONDecodeError`. */
  function PresetSource(voicesDir: string, voiceName: string, manifest: Option<Result<Json, string>>, exists_: string -> bool)
    : (r: Result<Conditioning, string>)
    ensures r.Ok? && r.value.FromFile? ==> exists_(r.value.path)
    // A manifest that does not decode raises before any fallback.
    ensures manifest.Some? && manifest.value.Err? ==> r == Err(manifest.value.error)
    // A listed file that exists wins over the direct file.
    ensures var m := ManifestChoice(voicesDir, voiceName, manifest, exists_);
            m.Ok? && m.value.Some? ==> r == Ok(FromFile(m.value.value))
    // The conditioning is the 1×256 zero vector exactly when neither step found a file.
    ensures r == Ok(Zeros(1, CONDITIONING_WIDTH))
            <==> ManifestChoice(voicesDir, voiceName, manifest, exists_) == Ok(None)
                 && !exists_(DirectPath(voicesDir, voiceName))
  {
    match ManifestChoice(voicesDir, voiceName, manifest, exists_)
    case Err(e) => Err(e)
    case Ok(Some(path)) => Ok(FromFile(path))
    case Ok(None) =>
      var direct := DirectPath(voicesDir, voiceName);
      if exists_(direct) then Ok(FromFile(direct)) else Ok(Zeros(1, CONDITIONING_WIDTH))
  }

  /** `load_voice_preset`, with the loop over the manifest's files and its
      guarded returns. */
  method LoadVoicePreset(voicesDir: string, voiceName: string, manifest: Option<Result<Json, string>>, exists_: string -> bool)
    returns (r: Result<Conditioning, string>)
    ensures r == PresetSource(voicesDir, voiceName, manifest, exists_)
  {
    if manifest.Some? {
      if manifest.value.Err? {
        return Err(manifest.value.error);
      }
      var files := ManifestFiles(manifest.value.value, voiceName);
      if files.Err? {
        return Err(files.error);
      }
      var i := 0;
      while i < |files.value|
        invariant 0 <= i <= |files.value|
        invariant FirstExisting(voicesDir, files.value, exists_) == FirstExisting(voicesDir, files.value[i..], exists_)
      {
        assert files.value[i..][1..] == files.value[i + 1..];
        var (tensorName, filePath) := files.value[i];
        if !filePath.JStr? {
          return Err(JoinTypeError(filePath));
        }
        var npyPath := JoinPath(voicesDir, filePath.s);
        if exists_(npyPath) {
          return Ok(FromFile(npyPath));
        }
        i := i + 1;
      }
      assert files.value[i..] == [];
    }
    var directPath := DirectPath(voicesDir, voiceName);
    if exists_(directPath) {
      return Ok(FromFile(directPath));
    }
    return Ok(Zeros(1, CONDITIONING_WIDTH));
  }
}
