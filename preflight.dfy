/** The preflight validator (mirror_mnt_data_preflight_lite.py): before a
    pipeline run it checks that the command-centre document and the
    run-manifest schema are present (falling back to another base directory
    when they are not), that the schema parses, and that the output
    directories exist or can be created. The file system is an abstract map
    from path text to entry; creating a directory adds an entry. */
module Preflight {
  import opened Json

  const Version := "0.4.4"
  const DefaultBase := "/mnt/data"
  const ToolName := "mirror_mnt_data_tool.md"
  const SchemaName := "mirror_mnt_data_run_manifest_schema.json"

  // ---------------------------------------------------------------------
  // The abstract file system

  /** A file (its size, and whether `json.load` succeeds on it) or a directory. */
  datatype Entry = File(size: nat, parses: bool) | Directory

  /** What exists, and which directory creations would fail (permissions). */
  datatype FileSystem = FileSystem(entries: map<string, Entry>, mkdirFails: set<string>)

  /** Where the fallback search may look besides `/mnt/data`: the working
      directory and the script's own directory, each absent when resolving it fails. */
  datatype Environment = Environment(fs: FileSystem, cwd: Option<string>, scriptDir: Option<string>)

  predicate Exists(fs: FileSystem, p: string)
  {
    p in fs.entries
  }

  /** `_is_nonempty_file`: an existing regular file of positive size. */
  predicate NonEmptyFile(fs: FileSystem, p: string)
  {
    p in fs.entries && fs.entries[p].File? && fs.entries[p].size > 0
  }

  /** Opening the path and `json.load` on it succeed. */
  predicate LoadsAsJson(fs: FileSystem, p: string)
  {
    p in fs.entries && fs.entries[p].File? && fs.entries[p].parses
  }

  /** `path and _exists(path)` for an optional configured path. */
  predicate Present(fs: FileSystem, p: Option<string>)
  {
    p.Some? && Exists(fs, p.value)
  }

  // ---------------------------------------------------------------------
  // Configuration

  datatype Config = Config(
    baseDir: string,
    lane: string,
    timezone: string,
    toolMd: Option<string>,
    schemaJson: Option<string>,
    outDir: Option<string>,
    doctorDir: Option<string>,
    applyDir: Option<string>)

  /** Every configured path is the standard one under `base`. */
  predicate RootedAt(cfg: Config, base: string)
  {
    cfg.baseDir == base &&
    cfg.toolMd == Some(JoinPath(base, ToolName)) &&
    cfg.schemaJson == Some(JoinPath(base, SchemaName)) &&
    cfg.outDir == Some(JoinPath(base, "_out")) &&
    cfg.doctorDir == Some(JoinPath(base, "_out/doctor")) &&
    cfg.applyDir == Some(JoinPath(base, "_out/apply"))
  }

  /** `base or "/mnt/data"`. */
  function BaseOrDefault(base: Option<string>): string
  {
    if base.Some? && base.value != "" then base.value else DefaultBase
  }

  /** The config with all five paths re-rooted under `base`; lane and time zone kept. */
  function Reroot(cfg: Config, base: string): (r: Config)
    ensures RootedAt(r, base)
    ensures r.lane == cfg.lane && r.timezone == cfg.timezone
  {
    cfg.(baseDir := base,
         toolMd := Some(JoinPath(base, ToolName)),
         schemaJson := Some(JoinPath(base, SchemaName)),
         outDir := Some(JoinPath(base, "_out")),
         doctorDir := Some(JoinPath(base, "_out/doctor")),
         applyDir := Some(JoinPath(base, "_out/apply")))
  }

  /** `PreflightConfig.default(base)`. */
  function Default(base: Option<string>): (cfg: Config)
    ensures RootedAt(cfg, BaseOrDefault(base))
    ensures cfg.lane == "A_FAST" && cfg.timezone == "Europe/Vilnius"
  {
    Reroot(Config("", "A_FAST", "Europe/Vilnius", None, None, None, None, None), BaseOrDefault(base))
  }

  // ---------------------------------------------------------------------
  // Issues and reports

  datatype Level = Error | Warning

  datatype Code =
    | MissingToolMd | EmptyToolMd | MissingSchema | SchemaInvalidJson | MkdirFailed | BaseFallback

  /** A finding; `subject` is the path text its message names (`None` when unset). */
  datatype Issue = Issue(level: Level, code: Code, subject: string)

  /** `str(p)` inside a message. */
  function Mention(p: Option<string>): string
  {
    if p.Some? then p.value else "None"
  }

  /** The report's `files` entry for a path: its text, or `""` when unset. */
  function PathText(p: Option<string>): string
  {
    if p.Some? then p.value else ""
  }

  datatype Report = Report(
    ok: bool,
    version: string,
    lane: string,
    timezone: string,
    baseDir: string,
    files: map<string, string>,
    issues: seq<Issue>)

  predicate NoErrors(issues: seq<Issue>)
  {
    forall i :: 0 <= i < |issues| ==> issues[i].level != Error
  }

  /** How many issues carry `code`. */
  function CountCode(issues: seq<Issue>, code: Code): (n: nat)
    ensures n <= |issues|
    ensures n == 0 <==> forall i :: 0 <= i < |issues| ==> issues[i].code != code
  {
    if issues == [] then 0
    else (if issues[0].code == code then 1 else 0) + CountCode(issues[1..], code)
  }

  lemma {:induction false} CountCodeConcat(a: seq<Issue>, b: seq<Issue>, code: Code)
    ensures CountCode(a + b, code) == CountCode(a, code) + CountCode(b, code)
  {
    if a == [] {
      assert a + b == b;
    } else {
      assert (a + b)[0] == a[0];
      assert (a + b)[1..] == a[1..] + b;
      CountCodeConcat(a[1..], b, code);
    }
  }

  // ---------------------------------------------------------------------
  // Base fallback

  /** Both expected files are present under `base`. */
  predicate HasBoth(fs: FileSystem, base: string)
  {
    Exists(fs, JoinPath(base, ToolName)) && Exists(fs, JoinPath(base, SchemaName))
  }

  /** The fallback search order: `/mnt/data`, the working directory, the script's directory. */
  function Candidates(env: Environment): (r: seq<string>)
    ensures |r| >= 1 && r[0] == DefaultBase
  {
    [DefaultBase] + (if env.cwd.Some? then [env.cwd.value] else []) +
    (if env.scriptDir.Some? then [env.scriptDir.value] else [])
  }

  /** The position of the first candidate holding both files. */
  function FirstWithBoth(cands: seq<string>, fs: FileSystem): (r: Option<nat>)
    ensures r.Some? ==> r.value < |cands| && HasBoth(fs, cands[r.value])
    ensures r.Some? ==> forall k :: 0 <= k < r.value ==> !HasBoth(fs, cands[k])
    ensures r.None? ==> forall k :: 0 <= k < |cands| ==> !HasBoth(fs, cands[k])
  {
    if cands == [] then None
    else if HasBoth(fs, cands[0]) then Some(0)
    else match FirstWithBoth(cands[1..], fs)
      case None => None
      case Some(i) => Some(i + 1)
  }

  /** The fallback is needed when it is allowed and a file is missing. */
  predicate NeedsFallback(cfg: Config, allow: bool, fs: FileSystem)
  {
    allow && !(Present(fs, cfg.toolMd) && Present(fs, cfg.schemaJson))
  }

  /** What `_try_fallback_base` leaves in the config and adds to the issues. */
  function FallbackResult(cfg: Config, allow: bool, cands: seq<string>, fs: FileSystem): (r: (Config, seq<Issue>))
    ensures !NeedsFallback(cfg, allow, fs) ==> r == (cfg, [])
    ensures NeedsFallback(cfg, allow, fs) && FirstWithBoth(cands, fs).None? ==> r == (cfg, [])
    ensures NeedsFallback(cfg, allow, fs) && FirstWithBoth(cands, fs).Some? ==>
      var base := cands[FirstWithBoth(cands, fs).value];
      RootedAt(r.0, base) && r.0.lane == cfg.lane && r.0.timezone == cfg.timezone &&
      r.1 == [Issue(Warning, BaseFallback, base)]
    ensures forall i :: 0 <= i < |r.1| ==> r.1[i].code == BaseFallback && r.1[i].level == Warning
  {
    if !NeedsFallback(cfg, allow, fs) then (cfg, [])
    else match FirstWithBoth(cands, fs)
      case None => (cfg, [])
      case Some(i) => (Reroot(cfg, cands[i]), [Issue(Warning, BaseFallback, cands[i])])
  }

  /** `_try_fallback_base`: scans the candidates in order and re-roots the
      config under the first that holds both files. */
  method TryFallbackBase(cfg: Config, allow: bool, cands: seq<string>, fs: FileSystem)
      returns (cfg': Config, added: seq<Issue>)
    ensures (cfg', added) == FallbackResult(cfg, allow, cands, fs)
  {
    cfg', added := cfg, [];
    if !allow {
      return;
    }
    var needTool := !Present(fs, cfg.toolMd);
    var needSchema := !Present(fs, cfg.schemaJson);
    if !(needTool || needSchema) {
      return;
    }
    var k := 0;
    while k < |cands|
      invariant 0 <= k <= |cands|
      invariant forall j :: 0 <= j < k ==> !HasBoth(fs, cands[j])
    {
      var base := cands[k];
      var tool := JoinPath(base, ToolName);
      var schema := JoinPath(base, SchemaName);
      if Exists(fs, tool) && Exists(fs, schema) {
        cfg' := cfg'.(baseDir := base);
        cfg' := cfg'.(toolMd := Some(tool));
        cfg' := cfg'.(schemaJson := Some(schema));
        cfg' := cfg'.(outDir := Some(JoinPath(base, "_out")));
        cfg' := cfg'.(doctorDir := Some(JoinPath(base, "_out/doctor")));
        cfg' := cfg'.(applyDir := Some(JoinPath(base, "_out/apply")));
        added := [Issue(Warning, BaseFallback, base)];
        assert cfg' == Reroot(cfg, base);
        assert NeedsFallback(cfg, allow, fs);
        assert FirstWithBoth(cands, fs) == Some(k);
        return;
      }
      k := k + 1;
    }
  }

  // ---------------------------------------------------------------------
  // File checks

  /** The tool.md check: missing and empty are exclusive, and a present,
      non-empty file adds nothing. */
  function ToolIssues(cfg: Config, fs: FileSystem): (r: seq<Issue>)
    ensures |r| <= 1
    ensures r == [] <==> cfg.toolMd.Some? && NonEmptyFile(fs, cfg.toolMd.value)
    ensures r != [] ==> r[0].level == Error && (r[0].code == MissingToolMd || r[0].code == EmptyToolMd)
    ensures !Present(fs, cfg.toolMd) ==> r == [Issue(Error, MissingToolMd, Mention(cfg.toolMd))]
    ensures Present(fs, cfg.toolMd) && !NonEmptyFile(fs, cfg.toolMd.value) ==>
      r == [Issue(Error, EmptyToolMd, cfg.toolMd.value)]
  {
    if !Present(fs, cfg.toolMd) then [Issue(Error, MissingToolMd, Mention(cfg.toolMd))]
    else if !NonEmptyFile(fs, cfg.toolMd.value) then [Issue(Error, EmptyToolMd, cfg.toolMd.value)]
    else []
  }

  /** The schema check: a missing schema is reported whatever the flag; an
      invalid one only when validation is on. */
  function SchemaIssues(cfg: Config, fs: FileSystem, validate: bool): (r: seq<Issue>)
    ensures |r| <= 1
    ensures r != [] ==> r[0].level == Error && (r[0].code == MissingSchema || r[0].code == SchemaInvalidJson)
    ensures !Present(fs, cfg.schemaJson) ==> r == [Issue(Error, MissingSchema, Mention(cfg.schemaJson))]
    ensures Present(fs, cfg.schemaJson) && !validate ==> r == []
    ensures Present(fs, cfg.schemaJson) && validate ==>
      (r == [] <==> LoadsAsJson(fs, cfg.schemaJson.value))
    ensures r != [] && r[0].code == SchemaInvalidJson ==> validate
  {
    if !Present(fs, cfg.schemaJson) then [Issue(Error, MissingSchema, Mention(cfg.schemaJson))]
    else if validate && !LoadsAsJson(fs, cfg.schemaJson.value) then
      [Issue(Error, SchemaInvalidJson, cfg.schemaJson.value)]
    else []
  }

  // ---------------------------------------------------------------------
  // Output directories

  /** The three output directories in the order they are checked. */
  function OutputDirs(cfg: Config): seq<Option<string>>
  {
    [cfg.outDir, cfg.doctorDir, cfg.applyDir]
  }

  /** One directory step: an absent directory is created unless creation fails. */
  function MakeDir(p: Option<string>, fs: FileSystem): FileSystem
  {
    if p.Some? && !Exists(fs, p.value) && p.value !in fs.mkdirFails
    then fs.(entries := fs.entries[p.value := Directory])
    else fs
  }

  /** The issue one directory step adds. */
  function MakeDirIssue(p: Option<string>, fs: FileSystem): seq<Issue>
  {
    if p.Some? && !Exists(fs, p.value) && p.value in fs.mkdirFails
    then [Issue(Error, MkdirFailed, p.value)]
    else []
  }

  /** The file system after the steps for `dirs`, in order. */
  function MakeDirs(dirs: seq<Option<string>>, fs: FileSystem): (r: FileSystem)
    ensures r.mkdirFails == fs.mkdirFails
    ensures forall p :: p in fs.entries ==> p in r.entries && r.entries[p] == fs.entries[p]
    ensures forall p :: p in r.entries && p !in fs.entries ==>
      r.entries[p] == Directory && p !in fs.mkdirFails && Some(p) in dirs
    ensures forall k :: 0 <= k < |dirs| && dirs[k].Some? && dirs[k].value !in fs.mkdirFails ==>
      dirs[k].value in r.entries
    decreases |dirs|
  {
    if dirs == [] then fs
    else
      var prefix := dirs[..|dirs| - 1];
      var before := MakeDirs(prefix, fs);
      assert forall d :: d in prefix ==> d in dirs;
      assert forall k :: 0 <= k < |prefix| ==> prefix[k] == dirs[k];
      MakeDir(dirs[|dirs| - 1], before)
  }

  /** The issues the steps for `dirs` add, each checked against the file
      system the earlier steps left. */
  function DirIssues(dirs: seq<Option<string>>, fs: FileSystem): (r: seq<Issue>)
    ensures |r| <= |dirs|
    ensures forall i :: 0 <= i < |r| ==> r[i].level == Error && r[i].code == MkdirFailed
    decreases |dirs|
  {
    if dirs == [] then []
    else
      var prefix := dirs[..|dirs| - 1];
      DirIssues(prefix, fs) + MakeDirIssue(dirs[|dirs| - 1], MakeDirs(prefix, fs))
  }

  /** A directory that is absent at the start and cannot be created. */
  predicate CannotCreate(p: Option<string>, fs: FileSystem)
  {
    p.Some? && !Exists(fs, p.value) && p.value in fs.mkdirFails
  }

  /** The same issues judged against the initial file system alone: one
      `MKDIR_FAILED` error, in order, per directory absent at the start whose
      creation fails; existing and creatable ones add nothing. */
  function FailedDirs(dirs: seq<Option<string>>, fs: FileSystem): (r: seq<Issue>)
    ensures |r| <= |dirs|
    ensures r == [] <==> forall k :: 0 <= k < |dirs| ==> !CannotCreate(dirs[k], fs)
    ensures forall i :: 0 <= i < |r| ==> r[i].level == Error && r[i].code == MkdirFailed
    decreases |dirs|
  {
    if dirs == [] then []
    else
      var prefix := dirs[..|dirs| - 1];
      var rest := FailedDirs(prefix, fs);
      assert forall k :: 0 <= k < |prefix| ==> prefix[k] == dirs[k];
      rest + (if CannotCreate(dirs[|dirs| - 1], fs) then [Issue(Error, MkdirFailed, dirs[|dirs| - 1].value)] else [])
  }

  /** An earlier creation never hides a later failure, so checking each
      directory against the current file system gives the same issues as
      checking it against the initial one. */
  lemma {:induction false} DirIssuesAgainstInitial(dirs: seq<Option<string>>, fs: FileSystem)
    ensures DirIssues(dirs, fs) == FailedDirs(dirs, fs)
    decreases |dirs|
  {
    if dirs != [] {
      var prefix := dirs[..|dirs| - 1];
      DirIssuesAgainstInitial(prefix, fs);
      var now := MakeDirs(prefix, fs);
      var p := dirs[|dirs| - 1];
      assert MakeDirIssue(p, now) == (if CannotCreate(p, fs) then [Issue(Error, MkdirFailed, p.value)] else []);
    }
  }

  // ---------------------------------------------------------------------
  // The preflight run

  /** The report's `files` map. */
  function FilesOf(cfg: Config): map<string, string>
  {
    map["tool_md" := PathText(cfg.toolMd), "schema_json" := PathText(cfg.schemaJson),
        "out_dir" := PathText(cfg.outDir), "doctor_dir" := PathText(cfg.doctorDir),
        "apply_dir" := PathText(cfg.applyDir)]
  }

  /** The issues of a run on the (possibly re-rooted) config, after the fallback's own. */
  function CheckIssues(cfg: Config, fs: FileSystem, validate: bool): seq<Issue>
  {
    ToolIssues(cfg, fs) + SchemaIssues(cfg, fs, validate) + DirIssues(OutputDirs(cfg), fs)
  }

  /** The report `preflight` returns. `ok` holds exactly when no issue is an
      error, so the fallback's warning never makes it false, and the tool.md
      codes never both appear. */
  function ReportOf(cfg: Config, env: Environment, allowFallback: bool, validate: bool): (r: Report)
    ensures r.ok <==> NoErrors(r.issues)
    ensures var fb := FallbackResult(cfg, allowFallback, Candidates(env), env.fs);
      r.issues == fb.1 + CheckIssues(fb.0, env.fs, validate) &&
      (r.ok <==> NoErrors(CheckIssues(fb.0, env.fs, validate)))
    ensures CountCode(r.issues, MissingToolMd) + CountCode(r.issues, EmptyToolMd) <= 1
    ensures !validate ==> CountCode(r.issues, SchemaInvalidJson) == 0
  {
    var fb := FallbackResult(cfg, allowFallback, Candidates(env), env.fs);
    var c := fb.0;
    var checks := CheckIssues(c, env.fs, validate);
    var issues := fb.1 + checks;
    CodesOfReport(fb.1, c, env.fs, validate);
    Report(NoErrors(issues), Version, c.lane, c.timezone, c.baseDir, FilesOf(c), issues)
  }

  /** The report's fields, read off `ReportOf`'s definition. */
  lemma ReportOfParts(cfg: Config, env: Environment, allowFallback: bool, validate: bool)
    ensures var fb := FallbackResult(cfg, allowFallback, Candidates(env), env.fs);
      var issues := fb.1 + CheckIssues(fb.0, env.fs, validate);
      ReportOf(cfg, env, allowFallback, validate) ==
        Report(NoErrors(issues), Version, fb.0.lane, fb.0.timezone, fb.0.baseDir, FilesOf(fb.0), issues)
  {
  }

  /** Where each code can come from, counted over the whole issue list. */
  lemma {:induction false} CodesOfReport(fb: seq<Issue>, cfg: Config, fs: FileSystem, validate: bool)
    requires forall i :: 0 <= i < |fb| ==> fb[i].code == BaseFallback && fb[i].level == Warning
    ensures NoErrors(fb + CheckIssues(cfg, fs, validate)) <==> NoErrors(CheckIssues(cfg, fs, validate))
    ensures CountCode(fb + CheckIssues(cfg, fs, validate), MissingToolMd) +
            CountCode(fb + CheckIssues(cfg, fs, validate), EmptyToolMd) <= 1
    ensures !validate ==> CountCode(fb + CheckIssues(cfg, fs, validate), SchemaInvalidJson) == 0
  {
    var t := ToolIssues(cfg, fs);
    var s := SchemaIssues(cfg, fs, validate);
    var d := DirIssues(OutputDirs(cfg), fs);
    WarningsKeepNoErrors(fb, CheckIssues(cfg, fs, validate));
    DirIssuesAgainstInitial(OutputDirs(cfg), fs);
    CountInChecks(fb, t, s, d, MissingToolMd);
    CountInChecks(fb, t, s, d, EmptyToolMd);
    CountInChecks(fb, t, s, d, SchemaInvalidJson);
    AtMostOneCode(t, MissingToolMd, EmptyToolMd);
    assert CountCode(s, MissingToolMd) == 0 && CountCode(s, EmptyToolMd) == 0;
    assert CountCode(t, SchemaInvalidJson) == 0;
  }

  /** A code carried by neither the fallback warnings nor the directory
      errors is counted in the tool and schema groups alone. */
  lemma CountInChecks(fb: seq<Issue>, t: seq<Issue>, s: seq<Issue>, d: seq<Issue>, c: Code)
    requires c != BaseFallback && c != MkdirFailed
    requires forall i :: 0 <= i < |fb| ==> fb[i].code == BaseFallback
    requires forall i :: 0 <= i < |d| ==> d[i].code == MkdirFailed
    ensures CountCode(fb + (t + s + d), c) == CountCode(t, c) + CountCode(s, c)
  {
    CountParts(fb, t, s, d, c);
  }

  /** A list of at most one issue holds at most one of two different codes. */
  lemma AtMostOneCode(xs: seq<Issue>, c1: Code, c2: Code)
    requires |xs| <= 1 && c1 != c2
    ensures CountCode(xs, c1) + CountCode(xs, c2) <= 1
  {
    if xs != [] { assert xs[1..] == []; }
  }

  /** Warnings in front of a list of issues do not change whether it holds an error. */
  lemma WarningsKeepNoErrors(fb: seq<Issue>, checks: seq<Issue>)
    requires forall i :: 0 <= i < |fb| ==> fb[i].level == Warning
    ensures NoErrors(fb + checks) <==> NoErrors(checks)
  {
    var all := fb + checks;
    if NoErrors(all) {
      forall j | 0 <= j < |checks| ensures checks[j].level != Error {
        assert all[|fb| + j] == checks[j];
      }
    }
    if NoErrors(checks) {
      forall i | 0 <= i < |all| ensures all[i].level != Error {
        if i >= |fb| { assert all[i] == checks[i - |fb|]; }
      }
    }
  }

  /** A code's count over the fallback warnings and the three check groups. */
  lemma CountParts(fb: seq<Issue>, t: seq<Issue>, s: seq<Issue>, d: seq<Issue>, c: Code)
    ensures CountCode(fb + (t + s + d), c) == CountCode(fb, c) + CountCode(t, c) + CountCode(s, c) + CountCode(d, c)
  {
    CountCodeConcat(fb, t + s + d, c);
    CountCodeConcat(t + s, d, c);
    CountCodeConcat(t, s, c);
  }

  /** The steps for the first `k + 1` directories are those for the first `k`, then one more. */
  lemma DirStep(dirs: seq<Option<string>>, k: nat, fs0: FileSystem)
    requires k < |dirs|
    ensures MakeDirs(dirs[..k + 1], fs0) == MakeDir(dirs[k], MakeDirs(dirs[..k], fs0))
    ensures DirIssues(dirs[..k + 1], fs0) == DirIssues(dirs[..k], fs0) + MakeDirIssue(dirs[k], MakeDirs(dirs[..k], fs0))
  {
    assert dirs[..k + 1][..k] == dirs[..k];
  }

  /** The directory loop of `preflight`: each absent directory is created
      (with its parents) unless creation fails, which is reported instead. */
  method CreateDirs(dirs: seq<Option<string>>, fs0: FileSystem) returns (fs: FileSystem, issues: seq<Issue>)
    ensures fs == MakeDirs(dirs, fs0)
    ensures issues == DirIssues(dirs, fs0)
  {
    fs, issues := fs0, [];
    var k := 0;
    while k < |dirs|
      invariant 0 <= k <= |dirs|
      invariant fs == MakeDirs(dirs[..k], fs0)
      invariant issues == DirIssues(dirs[..k], fs0)
    {
      var p := dirs[k];
      DirStep(dirs, k, fs0);
      if p.Some? && !Exists(fs, p.value) {
        if p.value in fs.mkdirFails {
          issues := issues + [Issue(Error, MkdirFailed, p.value)];
        } else {
          fs := fs.(entries := fs.entries[p.value := Directory]);
        }
      }
      k := k + 1;
    }
    assert dirs[..k] == dirs;
  }

  lemma Regroup(a: seq<Issue>, b: seq<Issue>, c: seq<Issue>, d: seq<Issue>)
    ensures a + b + c + d == a + (b + c + d)
  {
  }

  /** `preflight(cfg, allow_fallback=..., validate_schema_json=...)`: runs the
      fallback, checks both files, then creates the missing output directories
      one by one. Returns the report, the config as the fallback left it (the
      source updates the caller's object), and the file system afterwards. */
  method Preflight(cfg: Config, env: Environment, allowFallback: bool, validate: bool)
      returns (rep: Report, cfgAfter: Config, fsAfter: FileSystem)
    ensures rep == ReportOf(cfg, env, allowFallback, validate)
    ensures cfgAfter == FallbackResult(cfg, allowFallback, Candidates(env), env.fs).0
    ensures fsAfter == MakeDirs(OutputDirs(cfgAfter), env.fs)
  {
    var issues: seq<Issue>;
    cfgAfter, issues := TryFallbackBase(cfg, allowFallback, Candidates(env), env.fs);
    ghost var fallbackIssues := issues;
    issues := issues + ToolIssues(cfgAfter, env.fs);
    issues := issues + SchemaIssues(cfgAfter, env.fs, validate);
    var dirIssues;
    fsAfter, dirIssues := CreateDirs(OutputDirs(cfgAfter), env.fs);
    issues := issues + dirIssues;
    Regroup(fallbackIssues, ToolIssues(cfgAfter, env.fs), SchemaIssues(cfgAfter, env.fs, validate), dirIssues);
    ReportOfParts(cfg, env, allowFallback, validate);
    var ok := NoErrors(issues);
    rep := Report(ok, Version, cfgAfter.lane, cfgAfter.timezone, cfgAfter.baseDir, FilesOf(cfgAfter), issues);
  }

  /** `_exit_code_from_report`. */
  function ExitCode(ok: bool, softFail: bool): (code: int)
    ensures code == 0 <==> ok || softFail
    ensures code == 0 || code == 1
  {
    if ok || softFail then 0 else 1
  }

  /** The command line `main` acts on (the flags that change the result). */
  datatype Options = Options(
    base: string, lane: string, timezone: string,
    strict: bool, noFallback: bool, noValidateSchema: bool)

  /** The config `main` builds: the default for `--base` with `--lane` and `--tz` applied. */
  function MainConfig(opts: Options): (cfg: Config)
    ensures RootedAt(cfg, BaseOrDefault(Some(opts.base)))
    ensures cfg.lane == opts.lane && cfg.timezone == opts.timezone
  {
    Default(Some(opts.base)).(lane := opts.lane, timezone := opts.timezone)
  }

  /** `main` without `--self-test`: soft-fail is the default and `--strict`
      turns it off, so the exit code is 0 unless the report failed under
      `--strict`. */
  method RunPreflight(opts: Options, env: Environment) returns (exitCode: int, rep: Report)
    ensures rep == ReportOf(MainConfig(opts), env, !opts.noFallback, !opts.noValidateSchema)
    ensures exitCode == 0 <==> rep.ok || !opts.strict
    ensures !rep.ok && opts.strict ==> exitCode == 1
  {
    var cfg := MainConfig(opts);
    var cfgAfter, fsAfter;
    rep, cfgAfter, fsAfter := Preflight(cfg, env, !opts.noFallback, !opts.noValidateSchema);
    var softFail := !opts.strict;
    exitCode := ExitCode(rep.ok, softFail);
  }
}
