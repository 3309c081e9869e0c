/** The living profile store (mirror_mnt_data_living_profile.py): a JSON
    object of settings in one file, shown, previewed or updated one key at a
    time from the command line. The JSON text format itself is a parameter:
    a `Codec` says what `json.loads` makes of a text (`None` when it raises)
    and what `json.dumps` writes for a value. */
module LivingProfile {
  import opened Json

  const DefaultPath := "/mnt/data/_state/profile.json"

  /** The state of the profile path: missing, present but unreadable (not
      UTF-8, a directory), or readable text. */
  datatype ProfileFile = Absent | Unreadable | Text(content: string)

  /** Path text to file state; a path with no entry is missing. */
  type Files = map<string, ProfileFile>

  datatype Codec = Codec(parse: string -> Option<Value>, dump: Value -> string)

  /** The state of `path`. */
  function FileAt(files: Files, path: string): ProfileFile
  {
    if path in files then files[path] else Absent
  }

  /** `load_profile`: whatever the file decodes to; `{}` when it is missing,
      unreadable, blank (after `str.strip()`) or not valid JSON. */
  function LoadProfile(files: Files, path: string, codec: Codec): (r: Value)
    ensures !FileAt(files, path).Text? ==> r == Object(map[])
    ensures FileAt(files, path).Text? && Blank(FileAt(files, path).content, PySpace) ==> r == Object(map[])
    ensures FileAt(files, path).Text? && !Blank(FileAt(files, path).content, PySpace) ==>
      r == (match codec.parse(FileAt(files, path).content)
            case Some(v) => v
            case None => Object(map[]))
  {
    match FileAt(files, path)
    case Text(s) =>
      if Strip(s, PySpace) == "" then Object(map[])
      else (match codec.parse(s)
            case Some(v) => v
            case None => Object(map[]))
    case _ => Object(map[])
  }

  /** `coerce_value_auto`: the decoded JSON when `raw` is valid JSON, else the string itself. */
  function Coerce(raw: string, codec: Codec): (r: Value)
    ensures codec.parse(raw).Some? ==> r == codec.parse(raw).value
    ensures codec.parse(raw).None? ==> r == Str(raw)
  {
    match codec.parse(raw)
    case Some(v) => v
    case None => Str(raw)
  }

  datatype Action = Show | Set | DryRun

  /** The JSON object `main` prints. */
  datatype Output =
    | Shown(path: string, profile: Value)
    | Previewed(path: string, profile: Value, preview: Value)
    | Saved(path: string, profile: Value)
    | ArgumentsMissing(action: Action)     // "--key and --value required for ..."

  /** What `main` prints and returns, and the files afterwards; or an exception. */
  datatype Outcome = Exit(output: Output, code: int, files: Files) | Crash

  /** `not args.key or args.value is None`. */
  predicate MissingArguments(key: Option<string>, value: Option<string>)
  {
    key.None? || key.value == "" || value.None?
  }

  /** `main` for `show`, `set` and `dry_run`. `show` always succeeds;
      `set` and `dry_run` exit 2 without touching anything when the key is
      empty or the value absent; `dry_run` never writes; `set` writes the
      updated object and nothing else. A profile that is not a JSON object
      cannot take a key and raises. */
  function ProfileMain(action: Action, key: Option<string>, value: Option<string>,
                       path: string, files: Files, codec: Codec): (r: Outcome)
    ensures r.Exit? ==> (r.code == 0 || r.code == 2)
    ensures r.Exit? && r.code == 2 <==> action != Show && MissingArguments(key, value)
    ensures r.Exit? && action != Set ==> r.files == files
    ensures r.Exit? && r.code == 2 ==> r.files == files && r.output == ArgumentsMissing(action)
    ensures action == Show ==> r == Exit(Shown(path, LoadProfile(files, path, codec)), 0, files)
    ensures r.Crash? <==>
      action != Show && !MissingArguments(key, value) && !LoadProfile(files, path, codec).Object?
    ensures r.Exit? && action == Set && r.code == 0 ==>
      r.files.Keys == files.Keys + {path} &&
      (forall p :: p in files && p != path ==> r.files[p] == files[p]) &&
      r.output.Saved? && r.files[path] == Text(codec.dump(r.output.profile))
  {
    var data := LoadProfile(files, path, codec);
    match action
    case Show => Exit(Shown(path, data), 0, files)
    case DryRun =>
      if MissingArguments(key, value) then Exit(ArgumentsMissing(DryRun), 2, files)
      else if !data.Object? then Crash
      else
        var preview := Object(data.fields[key.value := Coerce(value.value, codec)]);
        Exit(Previewed(path, data, preview), 0, files)
    case Set =>
      if MissingArguments(key, value) then Exit(ArgumentsMissing(Set), 2, files)
      else if !data.Object? then Crash
      else
        var updated := Object(data.fields[key.value := Coerce(value.value, codec)]);
        Exit(Saved(path, updated), 0, files[path := Text(codec.dump(updated))])
  }

  /** The profile `set` stores and the preview `dry_run` shows are the same
      object: the old one with the key bound to the coerced value. */
  lemma DryRunPreviewsSet(key: string, value: string, path: string, files: Files, codec: Codec)
    requires key != ""
    requires LoadProfile(files, path, codec).Object?
    ensures var m := LoadProfile(files, path, codec).fields;
      var preview := ProfileMain(DryRun, Some(key), Some(value), path, files, codec);
      var saved := ProfileMain(Set, Some(key), Some(value), path, files, codec);
      preview.Exit? && saved.Exit? &&
      preview.output.preview == saved.output.profile &&
      saved.output.profile == Object(m[key := Coerce(value, codec)]) &&
      preview.files == files
  {
  }

  /** Whether the codec reads back what it writes for `v`: the dump is
      not blank and parses to `v` again. */
  predicate RoundTrips(codec: Codec, v: Value)
  {
    !Blank(codec.dump(v), PySpace) && codec.parse(codec.dump(v)) == Some(v)
  }

  /** After `set`, loading the file gives back the object `set` saved: the
      old one with the key bound to the coerced value. */
  lemma SavedLoadsBack(key: string, value: string, path: string, files: Files, codec: Codec)
    requires key != ""
    requires LoadProfile(files, path, codec).Object?
    requires RoundTrips(codec, Object(LoadProfile(files, path, codec).fields[key := Coerce(value, codec)]))
    ensures var saved := ProfileMain(Set, Some(key), Some(value), path, files, codec);
      saved.Exit? && saved.output.Saved? &&
      saved.output.profile == Object(LoadProfile(files, path, codec).fields[key := Coerce(value, codec)]) &&
      LoadProfile(saved.files, path, codec) == saved.output.profile
  {
    var saved := ProfileMain(Set, Some(key), Some(value), path, files, codec);
    var dumped := codec.dump(saved.output.profile);
    assert FileAt(saved.files, path) == Text(dumped);
    assert Strip(dumped, PySpace) != "";
  }

  /** `set` followed by `show` shows the key bound to the coerced value and
      every other key as it was, given a codec that reads back what it writes. */
  lemma SetThenShow(key: string, value: string, path: string, files: Files, codec: Codec)
    requires key != ""
    requires LoadProfile(files, path, codec).Object?
    requires RoundTrips(codec, Object(LoadProfile(files, path, codec).fields[key := Coerce(value, codec)]))
    ensures var m := LoadProfile(files, path, codec).fields;
      var after := ProfileMain(Set, Some(key), Some(value), path, files, codec).files;
      var shown := ProfileMain(Show, None, None, path, after, codec);
      shown.output.profile.Object? &&
      key in shown.output.profile.fields &&
      shown.output.profile.fields[key] == Coerce(value, codec) &&
      forall k :: k in m && k != key ==> k in shown.output.profile.fields && shown.output.profile.fields[k] == m[k]
  {
    SavedLoadsBack(key, value, path, files, codec);
  }

  /** Setting the same key to the same value twice leaves the same file as setting it once. */
  lemma SetIsIdempotent(key: string, value: string, path: string, files: Files, codec: Codec)
    requires key != ""
    requires LoadProfile(files, path, codec).Object?
    requires RoundTrips(codec, Object(LoadProfile(files, path, codec).fields[key := Coerce(value, codec)]))
    ensures var once := ProfileMain(Set, Some(key), Some(value), path, files, codec);
      var twice := ProfileMain(Set, Some(key), Some(value), path, once.files, codec);
      twice.Exit? && twice.files == once.files
  {
    SavedLoadsBack(key, value, path, files, codec);
    var once := ProfileMain(Set, Some(key), Some(value), path, files, codec);
    var m := once.output.profile.fields;
    assert m[key := Coerce(value, codec)] == m;
    var twice := ProfileMain(Set, Some(key), Some(value), path, once.files, codec);
    assert twice.files == once.files[path := once.files[path]];
  }

  /** `script_entry_suppress`: the code `main` returned (always an integer
      here), or `None` when `main` raised something other than `SystemExit`. */
  function ScriptEntrySuppress(r: Outcome): (code: Option<int>)
    ensures r.Exit? ==> code == Some(r.code)
    ensures r.Crash? ==> code.None?
  {
    if r.Exit? then Some(r.code) else None
  }

  /** Self-test cases 1, 4 and 12: `show` on a missing file exits 0 with `{}`;
      `set` without key and value exits 2 and writes nothing. */
  lemma MissingFileAndMissingArguments(path: string, codec: Codec)
    ensures ProfileMain(Show, None, None, path, map[], codec) == Exit(Shown(path, Object(map[])), 0, map[])
    ensures ProfileMain(Set, None, None, path, map[], codec) == Exit(ArgumentsMissing(Set), 2, map[])
    ensures ScriptEntrySuppress(ProfileMain(Show, None, None, path, map[], codec)) == Some(0)
    ensures ScriptEntrySuppress(ProfileMain(Set, None, None, path, map[], codec)) == Some(2)
  {
  }

  /** Self-test case 3: a value that is not JSON is stored as a string and read back. */
  lemma PlainStringPersists(path: string, codec: Codec)
    requires codec.parse("dark") == None
    requires RoundTrips(codec, Object(map["theme" := Str("dark")]))
    ensures var saved := ProfileMain(Set, Some("theme"), Some("dark"), path, map[], codec);
      saved.Exit? && saved.code == 0 &&
      LoadProfile(saved.files, path, codec) == Object(map["theme" := Str("dark")])
  {
    var saved := ProfileMain(Set, Some("theme"), Some("dark"), path, map[], codec);
    assert saved.output.profile == Object(map["theme" := Str("dark")]);
    assert Strip(codec.dump(saved.output.profile), PySpace) != "";
  }
}
