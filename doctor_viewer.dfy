/** The doctor report viewer (mirror_mnt_data_doctor_viewer.py): picks the
    newest `doctor-*.json[.gz]` report of a directory (or an explicit file),
    decodes it and prints one page of its issues and files. The directory
    tree is a map from path text to node; a node's listing is in the order
    the operating system yields it, and a file carries what `json.load`
    makes of it read as text and read through gzip. */
module DoctorViewer {
  import opened Json
  import Order

  const DefaultDir := "/mnt/data/_out/doctor"

  // ---------------------------------------------------------------------
  // Paging

  function Min(a: int, b: int): int
  {
    if a <= b then a else b
  }

  /** A page number or page size below 1 is read as 1. */
  function AtLeastOne(x: int): (n: nat)
    ensures n >= 1 && (x >= 1 ==> n == x)
  {
    if x < 1 then 1 else x
  }

  /** `page_items`: the `page`-th run of `pageSize` items, cut at the end of
      the list (Python slicing never fails). */
  function PageItems<T>(items: seq<T>, page: int, pageSize: int): (r: seq<T>)
    ensures |r| <= AtLeastOne(pageSize)
    ensures (AtLeastOne(page) - 1) * AtLeastOne(pageSize) >= |items| ==> r == []
    ensures AtLeastOne(page) * AtLeastOne(pageSize) <= |items| ==> |r| == AtLeastOne(pageSize)
  {
    var size := AtLeastOne(pageSize);
    var start := (AtLeastOne(page) - 1) * size;
    var end := start + size;
    assert AtLeastOne(page) * size == end;
    items[Min(start, |items|)..Min(end, |items|)]
  }

  /** Item `i` is at position `i % size` of page `i / size + 1`. */
  lemma ItemOnItsPage<T>(items: seq<T>, pageSize: int, i: nat)
    requires pageSize >= 1 && i < |items|
    ensures i % pageSize < |PageItems(items, i / pageSize + 1, pageSize)|
    ensures PageItems(items, i / pageSize + 1, pageSize)[i % pageSize] == items[i]
  {
    var q, m := i / pageSize, i % pageSize;
    assert q * pageSize + m == i;
    assert i < q * pageSize + pageSize;
  }

  /** Pages 1 to `n` one after the other. */
  function FirstPages<T>(items: seq<T>, n: nat, pageSize: int): seq<T>
  {
    if n == 0 then [] else FirstPages(items, n - 1, pageSize) + PageItems(items, n, pageSize)
  }

  /** Reading pages 1, 2, ..., n in turn yields the first `n * pageSize`
      items in order, without gaps or repeats. */
  lemma {:induction false} FirstPagesArePrefix<T>(items: seq<T>, n: nat, pageSize: int)
    requires pageSize >= 1
    ensures FirstPages(items, n, pageSize) == items[..Min(n * pageSize, |items|)]
  {
    if n > 0 {
      FirstPagesArePrefix(items, n - 1, pageSize);
      PageIsSlice(items, n, pageSize);
      var a := Min((n - 1) * pageSize, |items|);
      var b := Min(n * pageSize, |items|);
      SliceJoin(items, a, b);
    }
  }

  lemma SliceJoin<T>(s: seq<T>, a: int, b: int)
    requires 0 <= a <= b <= |s|
    ensures s[..a] + s[a..b] == s[..b]
  {
  }

  /** Page `n` is the slice between the ends of pages `n - 1` and `n`. */
  lemma PageIsSlice<T>(items: seq<T>, n: nat, pageSize: int)
    requires n >= 1 && pageSize >= 1
    ensures 0 <= Min((n - 1) * pageSize, |items|) <= Min(n * pageSize, |items|) <= |items|
    ensures PageItems(items, n, pageSize) == items[Min((n - 1) * pageSize, |items|)..Min(n * pageSize, |items|)]
  {
    PageEnds(n, pageSize);
    assert AtLeastOne(n) == n && AtLeastOne(pageSize) == pageSize;
  }

  lemma PageEnds(n: nat, size: int)
    requires n >= 1 && size >= 1
    ensures 0 <= (n - 1) * size && (n - 1) * size + size == n * size
  {
  }

  // ---------------------------------------------------------------------
  // Finding reports

  /** A name the two globs `doctor-*.json` and `doctor-*.json.gz` match. */
  predicate IsReportName(n: string)
  {
    StartsWith(n, "doctor-") && (EndsWith(n, ".json") || EndsWith(n, ".json.gz"))
  }

  datatype Node =
    | Directory(names: seq<string>)
    | File(asText: Option<Value>, asGzip: Option<Value>)

  type Tree = map<string, Node>

  /** The report names of a listing, ascending. */
  ghost function ReportListing(names: seq<string>): (r: seq<string>)
    ensures Order.StrictlySorted(r)
    ensures forall n :: n in r <==> n in names && IsReportName(n)
  {
    Order.SortedList(set n | n in names && IsReportName(n))
  }

  /** `find_reports`: nothing for a missing directory (or a plain file), else
      the matching entries sorted by name. */
  ghost function FindReports(tree: Tree, dir: string): (r: seq<string>)
    ensures dir !in tree || !tree[dir].Directory? ==> r == []
    ensures dir in tree && tree[dir].Directory? ==>
      |r| == |ReportListing(tree[dir].names)| &&
      forall i :: 0 <= i < |r| ==> r[i] == JoinPath(dir, ReportListing(tree[dir].names)[i])
  {
    if dir !in tree || !tree[dir].Directory? then []
    else
      var ns := ReportListing(tree[dir].names);
      seq(|ns|, i requires 0 <= i < |ns| => JoinPath(dir, ns[i]))
  }

  /** The greatest report name of a listing. */
  function Latest(names: seq<string>): (r: Option<string>)
    ensures r.None? <==> forall i :: 0 <= i < |names| ==> !IsReportName(names[i])
    ensures r.Some? ==> r.value in names && IsReportName(r.value)
    ensures r.Some? ==> forall n :: n in names && IsReportName(n) ==> Order.LexLe(n, r.value)
  {
    if names == [] then None
    else
      var rest := Latest(names[1..]);
      assert forall n :: n in names <==> n == names[0] || n in names[1..];
      if !IsReportName(names[0]) then rest
      else if rest.None? then
        Order.LexLeReflexive(names[0]);
        Some(names[0])
      else
        Order.LexLeTotal(rest.value, names[0]);
        if Order.LexLe(rest.value, names[0]) then
          Order.LexLeReflexive(names[0]);
          assert forall n :: n in names[1..] && IsReportName(n) ==> Order.LexLe(n, names[0]) by {
            forall n | n in names[1..] && IsReportName(n) ensures Order.LexLe(n, names[0]) {
              Order.LexLeTransitive(n, rest.value, names[0]);
            }
          }
          Some(names[0])
        else
          rest
  }

  /** The path `main` picks from a directory: `reports[-1] if reports else None`. */
  function LatestReport(tree: Tree, dir: string): (r: Option<string>)
    ensures r.None? <==> (dir !in tree || !tree[dir].Directory? ||
      forall i :: 0 <= i < |tree[dir].names| ==> !IsReportName(tree[dir].names[i]))
    ensures r.Some? ==> (dir in tree && tree[dir].Directory? &&
      var n := Latest(tree[dir].names).value;
      r.value == JoinPath(dir, n) && n in tree[dir].names && IsReportName(n) &&
      forall m :: m in tree[dir].names && IsReportName(m) ==> Order.LexLe(m, n))
  {
    if dir !in tree || !tree[dir].Directory? then None
    else match Latest(tree[dir].names)
      case None => None
      case Some(n) => Some(JoinPath(dir, n))
  }

  /** Taking the greatest name directly selects the last entry of the sorted listing. */
  lemma LatestIsLastFound(tree: Tree, dir: string)
    ensures FindReports(tree, dir) == [] ==> LatestReport(tree, dir) == None
    ensures FindReports(tree, dir) != [] ==>
      LatestReport(tree, dir) == Some(FindReports(tree, dir)[|FindReports(tree, dir)| - 1])
  {
    if dir in tree && tree[dir].Directory? {
      var names := tree[dir].names;
      var ns := ReportListing(names);
      var latest := Latest(names);
      if ns == [] {
        if latest.Some? {
          assert false;
        }
      } else {
        assert ns[0] in names;
        var last := ns[|ns| - 1];
        Order.LastIsGreatest(ns);
        assert latest.value in ns;
        assert last in names && IsReportName(last);
        Order.LexLeAntisymmetric(last, latest.value);
      }
    }
  }

  // ---------------------------------------------------------------------
  // Loading and the command line

  /** `load_json` on an existing path: gzip when the name ends in `.gz`;
      `None` when opening or decoding raises. */
  function LoadJson(tree: Tree, src: string): (r: Option<Value>)
    requires src in tree
    ensures tree[src].Directory? ==> r.None?
    ensures tree[src].File? && EndsWith(src, ".gz") ==> r == tree[src].asGzip
    ensures tree[src].File? && !EndsWith(src, ".gz") ==> r == tree[src].asText
  {
    match tree[src]
    case Directory(_) => None
    case File(text, gz) => if EndsWith(src, ".gz") then gz else text
  }

  /** The options of `main` that change the result; `--last` and `--pretty` do not. */
  datatype Args = Args(file: Option<string>, dir: string, page: int, pageSize: int, okIfEmpty: bool)

  datatype Payload =
    | Empty(ok: bool, dir: string)         // "no report files found"
    | NotFound(file: string)               // "Selected report path does not exist"
    | LoadFailed(file: string)             // "Failed to load report: ..."
    | Page(file: string, ts: Value, baseDir: Value, lane: Value, timezone: Value,
           issuesTotal: nat, filesTotal: nat, issues: Value, files: Value)

  /** What `main` prints and returns, or an uncaught exception. */
  datatype Outcome = Printed(payload: Payload, code: int) | Crash

  /** `--file` when it is a non-empty string, else the latest report of `--dir`. */
  function SelectSource(args: Args, tree: Tree): (src: Option<string>)
    ensures args.file.Some? && args.file.value != "" ==> src == args.file
    ensures !(args.file.Some? && args.file.value != "") ==> src == LatestReport(tree, args.dir)
  {
    if args.file.Some? && args.file.value != "" then args.file else LatestReport(tree, args.dir)
  }

  /** `len(v)` and `page_items(v, ...)` for a list or a string; anything else raises. */
  function Paged(v: Value, page: int, pageSize: int): (r: Option<(nat, Value)>)
    ensures r.Some? <==> v.Array? || v.Str?
    ensures v.Array? ==> r == Some((|v.items|, Array(PageItems(v.items, page, pageSize))))
    ensures v.Str? ==> r == Some((|v.s|, Str(PageItems(v.s, page, pageSize))))
  {
    match v
    case Array(xs) => Some((|xs|, Array(PageItems(xs, page, pageSize))))
    case Str(s) => Some((|s|, Str(PageItems(s, page, pageSize))))
    case _ => None
  }

  /** The page payload of a decoded report object: `issues` and `files`
      default to empty lists, the four header fields to `null`, and the
      totals count the whole of each. */
  function PageOf(src: string, m: map<string, Value>, page: int, pageSize: int): (r: Outcome)
    ensures var issues := Get(m, "issues", Array([]));
      var files := Get(m, "files", Array([]));
      (r.Crash? <==> !(issues.Array? || issues.Str?) || !(files.Array? || files.Str?)) &&
      (r.Printed? ==> (r.code == 0 && r.payload.Page? && r.payload.file == src &&
         r.payload.ts == Get(m, "ts", Null) && r.payload.baseDir == Get(m, "base_dir", Null) &&
         r.payload.lane == Get(m, "lane", Null) && r.payload.timezone == Get(m, "timezone", Null) &&
         Paged(issues, page, pageSize) == Some((r.payload.issuesTotal, r.payload.issues)) &&
         Paged(files, page, pageSize) == Some((r.payload.filesTotal, r.payload.files))))
  {
    var issues := Paged(Get(m, "issues", Array([])), page, pageSize);
    var files := Paged(Get(m, "files", Array([])), page, pageSize);
    if issues.None? || files.None? then Crash
    else Printed(Page(src, Get(m, "ts", Null), Get(m, "base_dir", Null), Get(m, "lane", Null),
                      Get(m, "timezone", Null), issues.value.0, files.value.0,
                      issues.value.1, files.value.1), 0)
  }

  /** `main` without `--selftest`. Exit 0 exactly for a page, or for an empty
      selection under `--ok-if-empty`; a report that is not an object, or
      whose issues or files are neither list nor string, raises. */
  function ViewerMain(args: Args, tree: Tree): (r: Outcome)
    ensures r.Printed? ==> (r.code == 0 <==> r.payload.Page? || (r.payload.Empty? && args.okIfEmpty))
    ensures r.Printed? ==> r.code == 0 || r.code == 1
    ensures SelectSource(args, tree).None? ==> r == Printed(Empty(args.okIfEmpty, args.dir), if args.okIfEmpty then 0 else 1)
    ensures SelectSource(args, tree).Some? && SelectSource(args, tree).value !in tree ==>
      r == Printed(NotFound(SelectSource(args, tree).value), 1)
    ensures r.Printed? && r.payload.Page? ==>
      var src := SelectSource(args, tree).value;
      src in tree && LoadJson(tree, src).Some? && LoadJson(tree, src).value.Object? &&
      r.payload.file == src
    ensures r.Crash? ==>
      var src := SelectSource(args, tree);
      src.Some? && src.value in tree && LoadJson(tree, src.value).Some?
    ensures var src := SelectSource(args, tree);
      src.Some? && src.value in tree && LoadJson(tree, src.value).None? ==>
        r == Printed(LoadFailed(src.value), 1)
    ensures var src := SelectSource(args, tree);
      (src.Some? && src.value in tree && LoadJson(tree, src.value).Some? &&
       !LoadJson(tree, src.value).value.Object?) ==> r.Crash?
    ensures var src := SelectSource(args, tree);
      (src.Some? && src.value in tree && LoadJson(tree, src.value).Some? &&
       LoadJson(tree, src.value).value.Object?) ==>
        r == PageOf(src.value, LoadJson(tree, src.value).value.fields, args.page, args.pageSize)
    ensures r.Printed? && r.payload.Page? ==>
      var m := LoadJson(tree, SelectSource(args, tree).value).value.fields;
      Paged(Get(m, "issues", Array([])), args.page, args.pageSize) ==
        Some((r.payload.issuesTotal, r.payload.issues)) &&
      Paged(Get(m, "files", Array([])), args.page, args.pageSize) ==
        Some((r.payload.filesTotal, r.payload.files)) &&
      r.payload.ts == Get(m, "ts", Null) && r.payload.baseDir == Get(m, "base_dir", Null) &&
      r.payload.lane == Get(m, "lane", Null) && r.payload.timezone == Get(m, "timezone", Null)
  {
    match SelectSource(args, tree)
    case None => Printed(Empty(args.okIfEmpty, args.dir), if args.okIfEmpty then 0 else 1)
    case Some(src) =>
      if src !in tree then Printed(NotFound(src), 1)
      else match LoadJson(tree, src)
        case None => Printed(LoadFailed(src), 1)
        case Some(data) =>
          if !data.Object? then Crash
          else PageOf(src, data.fields, args.page, args.pageSize)
  }

  /** The counts are the totals of the whole report, whichever page is shown. */
  lemma CountsIgnorePage(args: Args, tree: Tree, page: int, pageSize: int)
    ensures var other := args.(page := page, pageSize := pageSize);
      ViewerMain(args, tree).Printed? && ViewerMain(args, tree).payload.Page? ==>
        ViewerMain(other, tree).Printed? && ViewerMain(other, tree).payload.Page? &&
        ViewerMain(other, tree).payload.issuesTotal == ViewerMain(args, tree).payload.issuesTotal &&
        ViewerMain(other, tree).payload.filesTotal == ViewerMain(args, tree).payload.filesTotal
  {
  }

  /** At script entry `SystemExit` is swallowed, so the process status is 0
      whenever `main` returns, whatever code it returned. */
  function ScriptStatus(r: Outcome): (status: int)
    ensures r.Printed? ==> status == 0
    ensures r.Crash? ==> status != 0
  {
    if r.Printed? then 0 else 1
  }

  // ---------------------------------------------------------------------
  // The built-in self-test cases

  /** Case A: an empty directory exits 1, and 0 under `--ok-if-empty`. */
  lemma EmptyDirectoryCase(d: string)
    ensures ViewerMain(Args(None, d, 1, 50, false), map[d := Directory([])]) ==
      Printed(Empty(false, d), 1)
    ensures ViewerMain(Args(None, d, 1, 50, true), map[d := Directory([])]) ==
      Printed(Empty(true, d), 0)
  {
    assert Latest([]) == None;
  }

  const SampleName := "doctor-2000-01-01T00-00-00Z.json.gz"
  const SampleDir := "/tmp/d"
  const SamplePath := SampleDir + "/" + SampleName

  lemma SampleNameMatches()
    ensures IsReportName(SampleName)
  {
    var name := SampleName;
    assert name[..7] == "doctor-";
    assert name[|name| - 8..] == ".json.gz";
  }

  lemma SamplePathJoins()
    ensures JoinPath(SampleDir, SampleName) == SamplePath
  {
    var base := SampleDir;
    assert base[|base| - 1] == 'd';
  }

  lemma SamplePathIsGzip()
    ensures EndsWith(SamplePath, ".gz")
  {
    var p, name := SamplePath, SampleName;
    assert p[|p| - 3..] == name[|name| - 3..];
  }

  /** The sample report of case B is the one `--last` picks. */
  lemma SampleIsPicked(tree: Tree)
    requires SampleDir in tree && tree[SampleDir] == Directory([SampleName])
    ensures LatestReport(tree, SampleDir) == Some(SamplePath)
  {
    SampleNameMatches();
    LatestOfOne(SampleName);
    SamplePathJoins();
  }

  lemma LatestOfOne(name: string)
    requires IsReportName(name)
    ensures Latest([name]) == Some(name)
  {
    assert [name][0] == name;
  }

  /** Case B: a valid gzip report found by `--last` shows page 1 of size 1. */
  /** The report case B writes: a header, one issue and one file; `ts` is the time of the run. */
  function SampleReport(ts: string, issue: Value, file: Value): map<string, Value>
  {
    map["ok" := Bool(true), "ts" := Str(ts), "base_dir" := Str("/tmp"), "lane" := Str("A_FAST"),
        "timezone" := Str("Europe/Vilnius"), "issues" := Array([issue]), "files" := Array([file])]
  }

  lemma GzipReportCase(tree: Tree, ts: string, issue: Value, file: Value)
    requires tree == map[SampleDir := Directory([SampleName]),
                         SamplePath := File(None, Some(Object(SampleReport(ts, issue, file))))]
    ensures ViewerMain(Args(None, SampleDir, 1, 1, false), tree) ==
      Printed(Page(SamplePath, Str(ts), Str("/tmp"), Str("A_FAST"), Str("Europe/Vilnius"),
                   1, 1, Array([issue]), Array([file])), 0)
  {
    assert SampleDir != SamplePath by { assert |SamplePath| > |SampleDir|; }
    assert tree[SampleDir] == Directory([SampleName]);
    SampleIsPicked(tree);
    SamplePathIsGzip();
    assert LoadJson(tree, SamplePath) == Some(Object(SampleReport(ts, issue, file)));
    SamplePage(ts, issue, file);
    assert SelectSource(Args(None, SampleDir, 1, 1, false), tree) == Some(SamplePath);
  }

  lemma SamplePage(ts: string, issue: Value, file: Value)
    ensures PageOf(SamplePath, SampleReport(ts, issue, file), 1, 1) ==
      Printed(Page(SamplePath, Str(ts), Str("/tmp"), Str("A_FAST"), Str("Europe/Vilnius"),
                   1, 1, Array([issue]), Array([file])), 0)
  {
    var m := SampleReport(ts, issue, file);
    assert PageItems([issue], 1, 1) == [issue];
    assert PageItems([file], 1, 1) == [file];
    assert m["issues"] == Array([issue]) && m["files"] == Array([file]);
    assert m["ts"] == Str(ts) && m["base_dir"] == Str("/tmp");
    assert m["lane"] == Str("A_FAST") && m["timezone"] == Str("Europe/Vilnius");
  }

  /** Case C: a file that does not decode exits 1 with a load error. */
  lemma CorruptReportCase(path: string)
    requires path != "" && !EndsWith(path, ".gz")
    ensures ViewerMain(Args(Some(path), DefaultDir, 1, 50, false), map[path := File(None, None)]) ==
      Printed(LoadFailed(path), 1)
  {
  }
}
