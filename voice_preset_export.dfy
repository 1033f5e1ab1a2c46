/** Conversion of voice presets to NumPy files
    (`export/export_voice_presets.py`): a loaded preset is a tree of
    dictionaries, lists and tensors. It is described for inspection, flattened
    into (key path, tensor) pairs, and each pair becomes one `.npy` file listed
    in a manifest entry. `torch.load`, the downloads and the file writes are
    parameters or results: a tensor is only its dtype and shape here. */
module VoicePresetExport {
  import opened Wrappers
  import opened Text
  import opened JsonValues

  datatype TensorData = TensorData(dtype: string, shape: seq<nat>)

  /** A loaded preset: a tensor, a dict (its items in insertion order, each key
      as Python's `str(k)`), a list or tuple, or any other value (its type name
      and `repr`). */
  datatype Preset =
    | Tensor(t: TensorData)
    | Dict(entries: seq<(string, Preset)>)
    | Items(items: seq<Preset>)
    | Other(typeName: string, repr: string)

  const AVAILABLE_VOICES: seq<string> := [
    "en-Carter_man.pt", "en-Davis_man.pt", "en-Emma_woman.pt",
    "en-Frank_man.pt", "en-Grace_woman.pt", "en-Mike_man.pt"
  ]

  const MANIFEST_VERSION: int := 1
  const MANIFEST_SAMPLE_RATE: int := 24000

  // ---------------------------------------------------------------------
  // Flattening

  function DictChildKey(prefix: string, k: string): string {
    if prefix != "" then prefix + "." + k else k
  }

  function ItemChildKey(prefix: string, i: nat): string {
    prefix + "[" + NatToString(i) + "]"
  }

  /** `_flatten_tensors(data, prefix)`. */
  function Flatten(d: Preset, prefix: string): seq<(string, TensorData)>
    decreases d, 1
  {
    match d
    case Tensor(t) => [(if prefix != "" then prefix else "root", t)]
    case Dict(_) => FlattenEntries(d, prefix, 0)
    case Items(_) => FlattenItems(d, prefix, 0)
    case Other(_, _) => []
  }

  /** The pairs of the dict entries from index `i` on. */
  function FlattenEntries(d: Preset, prefix: string, i: nat): seq<(string, TensorData)>
    requires d.Dict? && i <= |d.entries|
    decreases d, 0, |d.entries| - i
  {
    if i == |d.entries| then []
    else Flatten(d.entries[i].1, DictChildKey(prefix, d.entries[i].0)) + FlattenEntries(d, prefix, i + 1)
  }

  /** The pairs of the list items from index `i` on. */
  function FlattenItems(d: Preset, prefix: string, i: nat): seq<(string, TensorData)>
    requires d.Items? && i <= |d.items|
    decreases d, 0, |d.items| - i
  {
    if i == |d.items| then []
    else Flatten(d.items[i], ItemChildKey(prefix, i)) + FlattenItems(d, prefix, i + 1)
  }

  /** The tensors of a preset in depth-first, left-to-right order: the
      reference the flattening is checked against. */
  function Leaves(d: Preset): seq<TensorData>
    decreases d, 1
  {
    match d
    case Tensor(t) => [t]
    case Dict(_) => EntryLeaves(d, 0)
    case Items(_) => ItemLeaves(d, 0)
    case Other(_, _) => []
  }

  function EntryLeaves(d: Preset, i: nat): seq<TensorData>
    requires d.Dict? && i <= |d.entries|
    decreases d, 0, |d.entries| - i
  {
    if i == |d.entries| then [] else Leaves(d.entries[i].1) + EntryLeaves(d, i + 1)
  }

  function ItemLeaves(d: Preset, i: nat): seq<TensorData>
    requires d.Items? && i <= |d.items|
    decreases d, 0, |d.items| - i
  {
    if i == |d.items| then [] else Leaves(d.items[i]) + ItemLeaves(d, i + 1)
  }

  function Values(ps: seq<(string, TensorData)>): (vs: seq<TensorData>)
    ensures |vs| == |ps| && forall i :: 0 <= i < |ps| ==> vs[i] == ps[i].1
  {
    seq(|ps|, i requires 0 <= i < |ps| => ps[i].1)
  }

  lemma ValuesAppend(a: seq<(string, TensorData)>, b: seq<(string, TensorData)>)
    ensures Values(a + b) == Values(a) + Values(b)
  {
  }

  /** Flattening keeps exactly the tensor leaves, in traversal order, whatever
      the prefix: non-tensor leaves contribute nothing. */
  lemma {:induction false} FlattenKeepsLeaves(d: Preset, prefix: string)
    ensures Values(Flatten(d, prefix)) == Leaves(d)
    decreases d, 1
  {
    match d
    case Tensor(t) =>
    case Dict(_) => EntriesKeepLeaves(d, prefix, 0);
    case Items(_) => ItemsKeepLeaves(d, prefix, 0);
    case Other(_, _) =>
  }

  lemma {:induction false} EntriesKeepLeaves(d: Preset, prefix: string, i: nat)
    requires d.Dict? && i <= |d.entries|
    ensures Values(FlattenEntries(d, prefix, i)) == EntryLeaves(d, i)
    decreases d, 0, |d.entries| - i
  {
    if i < |d.entries| {
      var head := Flatten(d.entries[i].1, DictChildKey(prefix, d.entries[i].0));
      FlattenKeepsLeaves(d.entries[i].1, DictChildKey(prefix, d.entries[i].0));
      EntriesKeepLeaves(d, prefix, i + 1);
      ValuesAppend(head, FlattenEntries(d, prefix, i + 1));
    }
  }

  lemma {:induction false} ItemsKeepLeaves(d: Preset, prefix: string, i: nat)
    requires d.Items? && i <= |d.items|
    ensures Values(FlattenItems(d, prefix, i)) == ItemLeaves(d, i)
    decreases d, 0, |d.items| - i
  {
    if i < |d.items| {
      var head := Flatten(d.items[i], ItemChildKey(prefix, i));
      FlattenKeepsLeaves(d.items[i], ItemChildKey(prefix, i));
      ItemsKeepLeaves(d, prefix, i + 1);
      ValuesAppend(head, FlattenItems(d, prefix, i + 1));
    }
  }

  /** Every pair's key extends the (non-empty) prefix it was flattened under. */
  predicate KeysExtend(ps: seq<(string, TensorData)>, prefix: string) {
    forall i :: 0 <= i < |ps| ==> prefix <= ps[i].0
  }

  lemma PrefixTrans(a: string, b: string, c: string)
    requires a <= b && b <= c
    ensures a <= c
  {
    assert c[..|b|][..|a|] == c[..|a|];
  }

  lemma {:induction false} KeysExtendPrefix(d: Preset, prefix: string)
    requires prefix != ""
    ensures KeysExtend(Flatten(d, prefix), prefix)
    decreases d, 1
  {
    match d
    case Tensor(t) =>
    case Dict(_) => EntryKeysExtendPrefix(d, prefix, 0);
    case Items(_) => ItemKeysExtendPrefix(d, prefix, 0);
    case Other(_, _) =>
  }

  lemma {:induction false} EntryKeysExtendPrefix(d: Preset, prefix: string, i: nat)
    requires prefix != "" && d.Dict? && i <= |d.entries|
    ensures KeysExtend(FlattenEntries(d, prefix, i), prefix)
    decreases d, 0, |d.entries| - i
  {
    if i < |d.entries| {
      var child := DictChildKey(prefix, d.entries[i].0);
      var head := Flatten(d.entries[i].1, child);
      KeysExtendPrefix(d.entries[i].1, child);
      EntryKeysExtendPrefix(d, prefix, i + 1);
      forall j | 0 <= j < |head| ensures prefix <= head[j].0 {
        PrefixTrans(prefix, child, head[j].0);
      }
    }
  }

  lemma {:induction false} ItemKeysExtendPrefix(d: Preset, prefix: string, i: nat)
    requires prefix != "" && d.Items? && i <= |d.items|
    ensures KeysExtend(FlattenItems(d, prefix, i), prefix)
    decreases d, 0, |d.items| - i
  {
    if i < |d.items| {
      var child := ItemChildKey(prefix, i);
      var head := Flatten(d.items[i], child);
      KeysExtendPrefix(d.items[i], child);
      ItemKeysExtendPrefix(d, prefix, i + 1);
      forall j | 0 <= j < |head| ensures prefix <= head[j].0 {
        PrefixTrans(prefix, child, head[j].0);
      }
    }
  }

  /** A tensor at top level is "root"; a top-level list names its items "[0]",
      "[1]", ...; a top-level dict names its children by their bare keys. */
  lemma TopLevelKeys(a: TensorData, b: TensorData)
    ensures Flatten(Tensor(a), "") == [("root", a)]
    ensures Flatten(Items([Tensor(a), Other("int", "3"), Tensor(b)]), "") == [("[0]", a), ("[2]", b)]
    ensures Flatten(Dict([("speaker", Items([Tensor(a)]))]), "") == [("speaker[0]", a)]
  {
    assert NatToString(0) == "0" && NatToString(2) == "2";
    assert ItemChildKey("", 0) == "[0]" && ItemChildKey("", 2) == "[2]";
    assert ItemChildKey("speaker", 0) == "speaker[0]";
    var l := Items([Tensor(a), Other("int", "3"), Tensor(b)]);
    assert FlattenItems(l, "", 3) == [];
    assert FlattenItems(l, "", 2) == [("[2]", b)];
    assert FlattenItems(l, "", 1) == [("[2]", b)];
    assert FlattenItems(l, "", 0) == [("[0]", a), ("[2]", b)];
    var sp := Items([Tensor(a)]);
    assert FlattenItems(sp, "speaker", 1) == [];
    assert FlattenItems(sp, "speaker", 0) == [("speaker[0]", a)];
    var top := Dict([("speaker", sp)]);
    assert DictChildKey("", "speaker") == "speaker";
    assert FlattenEntries(top, "", 1) == [];
    assert FlattenEntries(top, "", 0) == [("speaker[0]", a)];
  }

  /** `_flatten_tensors`, building its list with appends in loops. */
  method FlattenTensors(d: Preset, prefix: string) returns (pairs: seq<(string, TensorData)>)
    ensures pairs == Flatten(d, prefix)
    decreases d, 1
  {
    match d {
    case Tensor(t) =>
      pairs := [(if prefix != "" then prefix else "root", t)];
    case Dict(_) =>
      pairs := FlattenDictTensors(d, prefix);
    case Items(_) =>
      pairs := FlattenListTensors(d, prefix);
    case Other(_, _) =>
      pairs := [];
    }
  }

  /** The `for k, v in data.items()` loop of `_flatten_tensors`. */
  method FlattenDictTensors(d: Preset, prefix: string) returns (pairs: seq<(string, TensorData)>)
    requires d.Dict?
    ensures pairs == FlattenEntries(d, prefix, 0)
    decreases d, 0
  {
    pairs := [];
    var i := 0;
    while i < |d.entries|
      invariant 0 <= i <= |d.entries|
      invariant pairs + FlattenEntries(d, prefix, i) == FlattenEntries(d, prefix, 0)
    {
      var childKey := DictChildKey(prefix, d.entries[i].0);
      var sub := FlattenTensors(d.entries[i].1, childKey);
      assert pairs + FlattenEntries(d, prefix, i) == (pairs + sub) + FlattenEntries(d, prefix, i + 1);
      pairs := pairs + sub;
      i := i + 1;
    }
  }

  /** The `for i, v in enumerate(data)` loop of `_flatten_tensors`. */
  method FlattenListTensors(d: Preset, prefix: string) returns (pairs: seq<(string, TensorData)>)
    requires d.Items?
    ensures pairs == FlattenItems(d, prefix, 0)
    decreases d, 0
  {
    pairs := [];
    var i := 0;
    while i < |d.items|
      invariant 0 <= i <= |d.items|
      invariant pairs + FlattenItems(d, prefix, i) == FlattenItems(d, prefix, 0)
    {
      var childKey := ItemChildKey(prefix, i);
      var sub := FlattenTensors(d.items[i], childKey);
      assert pairs + FlattenItems(d, prefix, i) == (pairs + sub) + FlattenItems(d, prefix, i + 1);
      pairs := pairs + sub;
      i := i + 1;
    }
  }

  // ---------------------------------------------------------------------
  // File names

  /** `_safe_filename(key)`. */
  function SafeFilename(key: string): string {
    Replace(Replace(Replace(Replace(key, ".", "_"), "[", "_"), "]", ""), "/", "_")
  }

  /** A sanitised name has none of '.', '[', ']' or '/'; every other character
      it has comes from the key or is '_'. */
  lemma SafeFilenameIsSafe(key: string, c: char)
    ensures '.' !in SafeFilename(key) && '[' !in SafeFilename(key)
    ensures ']' !in SafeFilename(key) && '/' !in SafeFilename(key)
    ensures c in SafeFilename(key) ==> c == '_' || c in key
  {
    var s1 := Replace(key, ".", "_");
    var s2 := Replace(s1, "[", "_");
    var s3 := Replace(s2, "]", "");
    var s4 := Replace(s3, "/", "_");
    forall d | d in {'.', '[', ']', '/', c}
      ensures d in s4 ==> d == '_' || (d in key && d != '.' && d != '[' && d != ']' && d != '/')
    {
      ReplaceCharSpec(key, '.', "_", d);
      ReplaceCharSpec(s1, '[', "_", d);
      ReplaceCharSpec(s2, ']', "", d);
      ReplaceCharSpec(s3, '/', "_", d);
    }
  }

  /** The index of the last '.', or -1. */
  function LastDot(s: string): (i: int)
    ensures -1 <= i < |s|
    ensures i >= 0 ==> s[i] == '.'
    ensures forall j :: i < j < |s| ==> s[j] != '.'
  {
    if s == [] then -1
    else if s[|s| - 1] == '.' then |s| - 1
    else LastDot(s[..|s| - 1])
  }

  /** `Path(name).stem`: a final suffix is dropped unless the only dot leads
      the name or ends it. */
  function Stem(name: string): (r: string)
    ensures r <= name
  {
    var i := LastDot(name);
    if 0 < i < |name| - 1 then name[..i] else name
  }

  lemma StemOfPresetFile(name: string)
    requires |name| > 3 && EndsWith(name, ".pt")
    ensures Stem(name) == name[..|name| - 3]
  {
    assert name[|name| - 3..] == ".pt";
    assert name[|name| - 3] == '.' && name[|name| - 2] == 'p' && name[|name| - 1] == 't';
  }

  // ---------------------------------------------------------------------
  // Inspection

  function Truncate(s: string, n: nat): (r: string)
    ensures r <= s && |r| == if |s| < n then |s| else n
  {
    if |s| <= n then s else s[..n]
  }

  function ShapeJson(shape: seq<nat>): (r: Json)
    ensures r.JArr? && |r.items| == |shape| && forall i :: 0 <= i < |shape| ==> r.items[i] == JInt(shape[i])
  {
    JArr(seq(|shape|, i requires 0 <= i < |shape| => JInt(shape[i])))
  }

  /** `inspect_preset(data)`. */
  function Inspect(d: Preset): (r: Json)
    // Dicts and lists keep their keys, length and order.
    ensures d.Dict? ==> r.JObj? && Keys(r.fields) == Keys(d.entries)
                        && forall i :: 0 <= i < |d.entries| ==> r.fields[i].1 == Inspect(d.entries[i].1)
    ensures d.Items? ==> r.JArr? && |r.items| == |d.items|
                         && forall i :: 0 <= i < |d.items| ==> r.items[i] == Inspect(d.items[i])
    // A tensor becomes its description; any other value its type name and at most 200 characters of its repr.
    ensures d.Tensor? ==> r.JObj? && Keys(r.fields) == ["type", "dtype", "shape"] && r.fields[0].1 == JStr("tensor")
                          && r.fields[1].1 == JStr(d.t.dtype) && r.fields[2].1 == ShapeJson(d.t.shape)
    ensures d.Other? ==> r.JObj? && Keys(r.fields) == ["type", "value"] && r.fields[0].1 == JStr(d.typeName)
                         && r.fields[1].1 == JStr(Truncate(d.repr, 200))
    decreases d
  {
    match d
    case Tensor(t) => JObj([("type", JStr("tensor")), ("dtype", JStr(t.dtype)), ("shape", ShapeJson(t.shape))])
    case Dict(entries) =>
      JObj(seq(|entries|, i requires 0 <= i < |entries| => (entries[i].0, Inspect(entries[i].1))))
    case Items(items) => JArr(seq(|items|, i requires 0 <= i < |items| => Inspect(items[i])))
    case Other(typeName, repr) => JObj([("type", JStr(typeName)), ("value", JStr(Truncate(repr, 200)))])
  }

  // ---------------------------------------------------------------------
  // Manifest entries

  datatype TensorFile = TensorFile(key: string, file: string, dtype: string, shape: seq<nat>)
  datatype VoiceEntry = VoiceEntry(name: string, sourceFile: string, directory: string, tensors: seq<TensorFile>)

  /** The record written for one flattened pair: every tensor is converted
      with `.float()`, so its dtype is always float32. */
  function TensorFileFor(p: (string, TensorData)): TensorFile {
    TensorFile(p.0, SafeFilename(p.0) + ".npy", "float32", p.1.shape)
  }

  /** The manifest entry `convert_voice` returns for a preset file and the
      outcome of loading it. */
  function VoiceEntryFor(ptName: string, loaded: Result<Preset, string>): (e: Option<VoiceEntry>)
    ensures e.None? <==> loaded.Err? || Flatten(loaded.value, "") == []
    ensures e.Some? ==> e.value.name == Stem(ptName) && e.value.directory == Stem(ptName)
                        && e.value.sourceFile == ptName
                        && |e.value.tensors| == |Flatten(loaded.value, "")|
                        && forall i :: 0 <= i < |e.value.tensors| ==>
                             e.value.tensors[i] == TensorFileFor(Flatten(loaded.value, "")[i])
  {
    if loaded.Err? then None
    else
      var pairs := Flatten(loaded.value, "");
      if pairs == [] then None
      else Some(VoiceEntry(Stem(ptName), ptName, Stem(ptName),
                           seq(|pairs|, i requires 0 <= i < |pairs| => TensorFileFor(pairs[i]))))
  }

  /** One file per tensor leaf, each a safe name ending in ".npy". */
  lemma VoiceEntryFiles(ptName: string, loaded: Result<Preset, string>)
    requires VoiceEntryFor(ptName, loaded).Some?
    ensures var e := VoiceEntryFor(ptName, loaded).value;
            |e.tensors| == |Leaves(loaded.value)|
            && forall i :: 0 <= i < |e.tensors| ==>
                 EndsWith(e.tensors[i].file, ".npy") && '/' !in e.tensors[i].file[..|e.tensors[i].file| - 4]
                 && '.' !in e.tensors[i].file[..|e.tensors[i].file| - 4]
  {
    var e := VoiceEntryFor(ptName, loaded).value;
    FlattenKeepsLeaves(loaded.value, "");
    forall i | 0 <= i < |e.tensors|
      ensures EndsWith(e.tensors[i].file, ".npy") && '/' !in e.tensors[i].file[..|e.tensors[i].file| - 4]
              && '.' !in e.tensors[i].file[..|e.tensors[i].file| - 4]
    {
      var key := e.tensors[i].key;
      SafeFilenameIsSafe(key, '.');
      assert e.tensors[i].file[..|e.tensors[i].file| - 4] == SafeFilename(key);
    }
  }

  /** `convert_voice(pt_path, output_dir)`: the structure written to
      structure.json (when the preset loaded) and the manifest entry. */
  method ConvertVoice(ptName: string, loaded: Result<Preset, string>)
    returns (structure: Option<Json>, entry: Option<VoiceEntry>)
    ensures structure == if loaded.Ok? then Some(Inspect(loaded.value)) else None
    ensures entry == VoiceEntryFor(ptName, loaded)
  {
    var voiceName := Stem(ptName);
    if loaded.Err? {
      return None, None;
    }
    structure := Some(Inspect(loaded.value));
    var tensors := FlattenTensors(loaded.value, "");
    if tensors == [] {
      return structure, None;
    }
    var tensorFiles: seq<TensorFile> := [];
    var i := 0;
    while i < |tensors|
      invariant 0 <= i <= |tensors|
      invariant |tensorFiles| == i
      invariant forall j :: 0 <= j < i ==> tensorFiles[j] == TensorFileFor(tensors[j])
    {
      var (key, tensor) := tensors[i];
      var fname := SafeFilename(key) + ".npy";
      assert TensorFile(key, fname, "float32", tensor.shape) == TensorFileFor(tensors[i]);
      tensorFiles := tensorFiles + [TensorFile(key, fname, "float32", tensor.shape)];
      i := i + 1;
    }
    assert tensorFiles == seq(|tensors|, j requires 0 <= j < |tensors| => TensorFileFor(tensors[j]));
    entry := Some(VoiceEntry(voiceName, ptName, voiceName, tensorFiles));
  }

  // ---------------------------------------------------------------------
  // The export run

  /** The names kept from `names`, in order. */
  function Kept(names: seq<string>, ok: string -> bool): seq<string> {
    if names == [] then []
    else (if ok(names[0]) then [names[0]] else []) + Kept(names[1..], ok)
  }

  /** Exactly the names that pass are kept, and no more of them than were
      listed. */
  lemma {:induction false} KeptMembers(names: seq<string>, ok: string -> bool)
    ensures |Kept(names, ok)| <= |names|
    ensures forall x :: x in Kept(names, ok) <==> x in names && ok(x)
  {
    if names != [] {
      KeptMembers(names[1..], ok);
      assert forall x :: x in names <==> x == names[0] || x in names[1..];
    }
  }

  lemma {:induction false} KeptSnoc(names: seq<string>, x: string, ok: string -> bool)
    ensures Kept(names + [x], ok) == Kept(names, ok) + (if ok(x) then [x] else [])
  {
    if names != [] {
      assert (names + [x])[1..] == names[1..] + [x];
      KeptSnoc(names[1..], x, ok);
    }
  }

  /** The loop of `ensure_voices` over a list of names. */
  method KeepFetched(names: seq<string>, fetched: string -> bool) returns (paths: seq<string>)
    ensures paths == Kept(names, fetched)
  {
    paths := [];
    var i := 0;
    while i < |names|
      invariant 0 <= i <= |names|
      invariant paths == Kept(names[..i], fetched)
    {
      KeptSnoc(names[..i], names[i], fetched);
      assert names[..i] + [names[i]] == names[..i + 1];
      if fetched(names[i]) {
        paths := paths + [names[i]];
      }
      i := i + 1;
    }
    assert names[..i] == names;
  }

  /** `ensure_voices`: the preset paths whose download succeeded (or that
      were already cached), in the listed order. */
  method EnsureVoices(fetched: string -> bool) returns (paths: seq<string>)
    ensures paths == Kept(AVAILABLE_VOICES, fetched)
  {
    paths := KeepFetched(AVAILABLE_VOICES, fetched);
  }

  /** The preset files `main` converts: the (sorted) listing of an existing
      --voices-dir, or the downloaded presets; empty means it exits early. */
  function PresetFiles(voicesDir: Option<string>, dirExists: bool, listing: seq<string>, fetched: string -> bool)
    : seq<string>
  {
    if voicesDir.Some? && voicesDir.value != "" then (if dirExists then listing else [])
    else Kept(AVAILABLE_VOICES, fetched)
  }

  /** The entries of the presets that converted, in file order. */
  function ConvertAll(files: seq<string>, load: string -> Result<Preset, string>): (es: seq<VoiceEntry>)
    ensures |es| <= |files|
  {
    if files == [] then []
    else
      var e := VoiceEntryFor(files[0], load(files[0]));
      (if e.Some? then [e.value] else []) + ConvertAll(files[1..], load)
  }

  /** The conversion from file `i` on: that file's entry, if any, then the
      rest, also after the entries `done` before it. */
  lemma ConvertAllFrom(files: seq<string>, load: string -> Result<Preset, string>, i: nat, done: seq<VoiceEntry>)
    requires i < |files|
    ensures var e := VoiceEntryFor(files[i], load(files[i]));
            var here := if e.Some? then [e.value] else [];
            && ConvertAll(files[i..], load) == here + ConvertAll(files[i + 1..], load)
            && done + ConvertAll(files[i..], load) == (done + here) + ConvertAll(files[i + 1..], load)
  {
    assert files[i..][0] == files[i] && files[i..][1..] == files[i + 1..];
  }

  /** No entry goes missing exactly when every preset converted. */
  lemma {:induction false} ConvertAllComplete(files: seq<string>, load: string -> Result<Preset, string>)
    ensures |ConvertAll(files, load)| == |files|
            <==> forall i :: 0 <= i < |files| ==> VoiceEntryFor(files[i], load(files[i])).Some?
  {
    if files != [] {
      ConvertAllComplete(files[1..], load);
      assert forall i :: 1 <= i < |files| ==> files[1..][i - 1] == files[i];
    }
  }

  /** A tensor record of the manifest. */
  function TensorFileJson(f: TensorFile): (j: Json)
    ensures j.JObj? && Keys(j.fields) == ["key", "file", "dtype", "shape"]
    ensures j.fields[0].1 == JStr(f.key) && j.fields[1].1 == JStr(f.file) && j.fields[2].1 == JStr(f.dtype)
            && j.fields[3].1 == ShapeJson(f.shape)
  {
    JObj([("key", JStr(f.key)), ("file", JStr(f.file)), ("dtype", JStr(f.dtype)), ("shape", ShapeJson(f.shape))])
  }

  /** A voice entry of the manifest, its tensor records in order. */
  function EntryJson(e: VoiceEntry): (j: Json)
    ensures j.JObj? && Keys(j.fields) == ["name", "source_file", "directory", "tensors"]
    ensures j.fields[0].1 == JStr(e.name) && j.fields[1].1 == JStr(e.sourceFile) && j.fields[2].1 == JStr(e.directory)
    ensures j.fields[3].1.JArr? && |j.fields[3].1.items| == |e.tensors|
            && forall i :: 0 <= i < |e.tensors| ==> j.fields[3].1.items[i] == TensorFileJson(e.tensors[i])
  {
    JObj([("name", JStr(e.name)), ("source_file", JStr(e.sourceFile)), ("directory", JStr(e.directory)),
          ("tensors", JArr(seq(|e.tensors|, i requires 0 <= i < |e.tensors| => TensorFileJson(e.tensors[i]))))])
  }

  /** The manifest.json document. */
  function Manifest(entries: seq<VoiceEntry>): (m: Json)
    ensures m.JObj? && Keys(m.fields) == ["version", "sample_rate", "description", "voices"]
    ensures m.fields[0].1 == JInt(MANIFEST_VERSION) && m.fields[1].1 == JInt(MANIFEST_SAMPLE_RATE)
    ensures m.fields[3].1.JArr? && |m.fields[3].1.items| == |entries|
            && forall i :: 0 <= i < |entries| ==> m.fields[3].1.items[i] == EntryJson(entries[i])
  {
    JObj([("version", JInt(MANIFEST_VERSION)), ("sample_rate", JInt(MANIFEST_SAMPLE_RATE)),
          ("description", JStr("VibeVoice voice presets exported as NumPy arrays")),
          ("voices", JArr(seq(|entries|, i requires 0 <= i < |entries| => EntryJson(entries[i]))))])
  }

  // ---------------------------------------------------------------------
  // Reading the manifest back

  /** A shape read back: every dimension a non-negative integer. */
  function ShapeOf(items: seq<Json>): Option<seq<nat>> {
    if items == [] then Some([])
    else match (items[0], ShapeOf(items[1..]))
      case (JInt(n), Some(rest)) => if n >= 0 then Some([n as nat] + rest) else None
      case _ => None
  }

  /** A tensor record read back by its keys. */
  function TensorFileOf(j: Json): Option<TensorFile> {
    if !j.JObj? then None
    else match (Lookup(j.fields, "key"), Lookup(j.fields, "file"), Lookup(j.fields, "dtype"), Lookup(j.fields, "shape"))
      case (Some(JStr(key)), Some(JStr(file)), Some(JStr(dtype)), Some(JArr(dims))) =>
        (match ShapeOf(dims)
         case Some(shape) => Some(TensorFile(key, file, dtype, shape))
         case None => None)
      case _ => None
  }

  /** Every item read back by `dec`, in order; None when one of them does
      not read back. */
  function DecodeAll<T>(items: seq<Json>, dec: Json -> Option<T>): Option<seq<T>> {
    if items == [] then Some([])
    else match (dec(items[0]), DecodeAll(items[1..], dec))
      case (Some(x), Some(rest)) => Some([x] + rest)
      case _ => None
  }

  /** A voice entry read back by its keys. */
  function EntryOf(j: Json): Option<VoiceEntry> {
    if !j.JObj? then None
    else match (Lookup(j.fields, "name"), Lookup(j.fields, "source_file"), Lookup(j.fields, "directory"),
                Lookup(j.fields, "tensors"))
      case (Some(JStr(name)), Some(JStr(source)), Some(JStr(dir)), Some(JArr(items))) =>
        (match DecodeAll(items, TensorFileOf)
         case Some(tensors) => Some(VoiceEntry(name, source, dir, tensors))
         case None => None)
      case _ => None
  }

  /** The voice entries of a manifest document. */
  function ManifestEntries(m: Json): Option<seq<VoiceEntry>> {
    if !m.JObj? then None
    else match Lookup(m.fields, "voices")
      case Some(JArr(items)) => DecodeAll(items, EntryOf)
      case _ => None
  }

  lemma {:induction false} ShapeRoundTrip(shape: seq<nat>)
    ensures ShapeOf(ShapeJson(shape).items) == Some(shape)
  {
    if shape != [] {
      ShapeRoundTrip(shape[1..]);
      assert ShapeJson(shape).items[1..] == ShapeJson(shape[1..]).items;
      assert [shape[0]] + shape[1..] == shape;
    }
  }

  lemma TensorFileRoundTrip(f: TensorFile)
    ensures TensorFileOf(TensorFileJson(f)) == Some(f)
  {
    var fields := TensorFileJson(f).fields;
    assert Distinct(Keys(fields));
    LookupDistinct(fields, 0);
    LookupDistinct(fields, 1);
    LookupDistinct(fields, 2);
    LookupDistinct(fields, 3);
    ShapeRoundTrip(f.shape);
  }

  /** A list whose items each read back reads back whole. */
  lemma {:induction false} DecodeAllOk<T>(items: seq<Json>, dec: Json -> Option<T>, xs: seq<T>)
    requires |items| == |xs| && forall i :: 0 <= i < |xs| ==> dec(items[i]) == Some(xs[i])
    ensures DecodeAll(items, dec) == Some(xs)
  {
    if xs != [] {
      DecodeAllOk(items[1..], dec, xs[1..]);
      assert [xs[0]] + xs[1..] == xs;
    }
  }

  lemma TensorFilesRoundTrip(fs: seq<TensorFile>, items: seq<Json>)
    requires |items| == |fs| && forall i :: 0 <= i < |fs| ==> items[i] == TensorFileJson(fs[i])
    ensures DecodeAll(items, TensorFileOf) == Some(fs)
  {
    forall i | 0 <= i < |fs| ensures TensorFileOf(items[i]) == Some(fs[i]) {
      TensorFileRoundTrip(fs[i]);
    }
    DecodeAllOk(items, TensorFileOf, fs);
  }

  lemma EntryRoundTrip(e: VoiceEntry)
    ensures EntryOf(EntryJson(e)) == Some(e)
  {
    var fields := EntryJson(e).fields;
    assert Distinct(Keys(fields));
    LookupDistinct(fields, 0);
    LookupDistinct(fields, 1);
    LookupDistinct(fields, 2);
    LookupDistinct(fields, 3);
    TensorFilesRoundTrip(e.tensors, fields[3].1.items);
  }

  lemma EntriesRoundTrip(es: seq<VoiceEntry>, items: seq<Json>)
    requires |items| == |es| && forall i :: 0 <= i < |es| ==> items[i] == EntryJson(es[i])
    ensures DecodeAll(items, EntryOf) == Some(es)
  {
    forall i | 0 <= i < |es| ensures EntryOf(items[i]) == Some(es[i]) {
      EntryRoundTrip(es[i]);
    }
    DecodeAllOk(items, EntryOf, es);
  }

  /** Reading the written manifest back by its keys gives the entries that
      were written, in order. */
  lemma ManifestRoundTrip(entries: seq<VoiceEntry>)
    ensures ManifestEntries(Manifest(entries)) == Some(entries)
  {
    var fields := Manifest(entries).fields;
    assert Distinct(Keys(fields));
    LookupDistinct(fields, 3);
    EntriesRoundTrip(entries, fields[3].1.items);
  }

  /** The conversion loop of `main`: the entries of the presets that
      converted, in file order. */
  method ConvertEach(files: seq<string>, load: string -> Result<Preset, string>) returns (entries: seq<VoiceEntry>)
    ensures entries == ConvertAll(files, load)
  {
    entries := [];
    var i := 0;
    while i < |files|
      invariant 0 <= i <= |files|
      invariant entries + ConvertAll(files[i..], load) == ConvertAll(files, load)
    {
      var structure, entry := ConvertVoice(files[i], load(files[i]));
      ConvertAllFrom(files, load, i, entries);
      if entry.Some? {
        entries := entries + [entry.value];
      }
      i := i + 1;
    }
    assert files[i..] == [];
  }

  /** `main()`: the exit status and the manifest written, if any. `listing`
      is the sorted `*.pt` listing of --voices-dir, `fetched` says which
      downloads succeeded, `load` is `torch.load`. */
  method ExportMain(voicesDir: Option<string>, dirExists: bool, listing: seq<string>,
                    fetched: string -> bool, load: string -> Result<Preset, string>)
    returns (exitCode: int, manifest: Option<Json>)
    ensures var files := PresetFiles(voicesDir, dirExists, listing, fetched);
            && (files == [] ==> exitCode == 1 && manifest.None?)
            && (files != [] ==> manifest == Some(Manifest(ConvertAll(files, load))))
            && (files != [] ==> (exitCode == 1 <==> |ConvertAll(files, load)| < |files|))
            && (exitCode == 0 || exitCode == 1)
  {
    var ptFiles: seq<string>;
    if voicesDir.Some? && voicesDir.value != "" {
      if !dirExists {
        return 1, None;
      }
      ptFiles := listing;
      if ptFiles == [] {
        return 1, None;
      }
    } else {
      ptFiles := EnsureVoices(fetched);
    }
    if ptFiles == [] {
      return 1, None;
    }
    var entries := ConvertEach(ptFiles, load);
    manifest := Some(Manifest(entries));
    exitCode := if |entries| < |ptFiles| then 1 else 0;
  }
}
