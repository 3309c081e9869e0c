/** The alert dispatcher (data/tools/alert_dispatch.py): outside the quiet
    hours of its configuration it reads the queued alerts of
    `alerts/outbox.jsonl`, dispatches each one and then removes the outbox.
    Times of day are microseconds since midnight; the wall clock is a
    parameter giving the current local time of day in a named zone, and
    the time-zone database is the set of names it accepts. */
module AlertDispatch {
  import opened Json

  const Micro := 1_000_000
  const SecondsPerDay := 86_400

  // ---------------------------------------------------------------------
  // Times of day

  function TwoDigits(hi: char, lo: char): (n: nat)
    requires IsDigit(hi) && IsDigit(lo)
    ensures n <= 99
  {
    10 * (hi as int - '0' as int) + (lo as int - '0' as int)
  }

  /** `time.fromisoformat` for the forms `HH`, `HH:MM` and `HH:MM:SS`
      (hours up to 23, minutes and seconds up to 59); `None` where it raises. */
  function ParseTime(s: string): (r: Option<nat>)
    ensures r.Some? ==> r.value < SecondsPerDay * Micro && r.value % Micro == 0
    ensures r.Some? ==> |s| == 2 || |s| == 5 || |s| == 8
  {
    var n := |s|;
    if !(n == 2 || n == 5 || n == 8) then None
    else if !(IsDigit(s[0]) && IsDigit(s[1])) then None
    else if n >= 5 && !(s[2] == ':' && IsDigit(s[3]) && IsDigit(s[4])) then None
    else if n == 8 && !(s[5] == ':' && IsDigit(s[6]) && IsDigit(s[7])) then None
    else
      var h := TwoDigits(s[0], s[1]);
      var m := if n >= 5 then TwoDigits(s[3], s[4]) else 0;
      var sec := if n == 8 then TwoDigits(s[6], s[7]) else 0;
      if h > 23 || m > 59 || sec > 59 then None
      else Some(((h * 60 + m) * 60 + sec) * Micro)
  }

  function DigitChar(d: nat): (c: char)
    requires d <= 9
    ensures IsDigit(c)
  {
    ('0' as int + d) as char
  }

  /** A field of a time of day as two digits, with a leading zero. */
  function TwoDigitText(n: nat): (s: string)
    requires n <= 99
    ensures |s| == 2 && IsDigit(s[0]) && IsDigit(s[1])
  {
    [DigitChar(n / 10), DigitChar(n % 10)]
  }

  /** The ISO text of a time of day in one of the three forms: `HH` for one
      field, `HH:MM` for two and `HH:MM:SS` for three. */
  function FormatTime(h: nat, m: nat, sec: nat, fields: nat): (s: string)
    requires h <= 99 && m <= 99 && sec <= 99 && 1 <= fields <= 3
    ensures |s| == 3 * fields - 1
  {
    TwoDigitText(h) +
    (if fields >= 2 then ":" + TwoDigitText(m) else "") +
    (if fields == 3 then ":" + TwoDigitText(sec) else "")
  }

  /** Every well-formed time with hours up to 23 and minutes and seconds up
      to 59 parses to its microseconds since midnight; a field the form
      leaves out counts as zero. */
  lemma {:induction false} ParseFormatted(h: nat, m: nat, sec: nat, fields: nat)
    requires h <= 23 && m <= 59 && sec <= 59 && 1 <= fields <= 3
    requires fields < 2 ==> m == 0
    requires fields < 3 ==> sec == 0
    ensures ParseTime(FormatTime(h, m, sec, fields)) == Some(((h * 60 + m) * 60 + sec) * Micro)
  {
    var s := FormatTime(h, m, sec, fields);
    var hs, ms, ss := TwoDigitText(h), TwoDigitText(m), TwoDigitText(sec);
    TextOfTwo(h);
    assert s[0] == hs[0] && s[1] == hs[1];
    if fields >= 2 {
      TextOfTwo(m);
      assert s[2] == ':' && s[3] == ms[0] && s[4] == ms[1];
    }
    if fields == 3 {
      TextOfTwo(sec);
      assert s[5] == ':' && s[6] == ss[0] && s[7] == ss[1];
    }
  }

  /** Conversely, every text `ParseTime` accepts is such a formatted time,
      and its value is read from its fields. */
  lemma {:induction false} ParsedIsFormatted(s: string)
    requires ParseTime(s).Some?
    ensures var fields := (|s| + 1) / 3;
      var h := TwoDigits(s[0], s[1]);
      var m := if fields >= 2 then TwoDigits(s[3], s[4]) else 0;
      var sec := if fields == 3 then TwoDigits(s[6], s[7]) else 0;
      h <= 23 && m <= 59 && sec <= 59 &&
      s == FormatTime(h, m, sec, fields) &&
      ParseTime(s) == Some(((h * 60 + m) * 60 + sec) * Micro)
  {
    var fields := (|s| + 1) / 3;
    var h := TwoDigits(s[0], s[1]);
    var m := if fields >= 2 then TwoDigits(s[3], s[4]) else 0;
    var sec := if fields == 3 then TwoDigits(s[6], s[7]) else 0;
    DigitsOfTwo(s[0], s[1]);
    if fields >= 2 {
      DigitsOfTwo(s[3], s[4]);
    }
    if fields == 3 {
      DigitsOfTwo(s[6], s[7]);
    }
    var t := FormatTime(h, m, sec, fields);
    assert forall k :: 0 <= k < |s| ==> s[k] == t[k];
  }

  /** A number written as two digits reads back as itself. */
  lemma TextOfTwo(n: nat)
    requires n <= 99
    ensures TwoDigits(TwoDigitText(n)[0], TwoDigitText(n)[1]) == n
  {
  }

  /** Two digits read as a number and written back are the same two digits. */
  lemma DigitsOfTwo(hi: char, lo: char)
    requires IsDigit(hi) && IsDigit(lo)
    ensures TwoDigitText(TwoDigits(hi, lo)) == [hi, lo]
  {
    var n := TwoDigits(hi, lo);
    assert n / 10 == hi as int - '0' as int;
    assert n % 10 == lo as int - '0' as int;
  }

  /** The quiet window `[start, end)`; when `start` is later than `end` it
      runs over midnight. The comparison is the one `is_quiet_hours` makes. */
  function InWindow(start: int, end: int, now: int): (quiet: bool)
    ensures start <= end ==> (quiet <==> start <= now && now < end)
    ensures start > end ==> (quiet <==> !(end <= now && now < start))
  {
    if start > end then now >= start || now < end else start <= now < end
  }

  /** A window and the window with its ends swapped split the day between them. */
  lemma SwappedWindowIsComplement(start: int, end: int, now: int)
    requires start != end
    ensures InWindow(end, start, now) <==> !InWindow(start, end, now)
  {
  }

  /** A window whose ends coincide is never quiet. */
  lemma EqualEndsNeverQuiet(t: int, now: int)
    ensures !InWindow(t, t, now)
  {
  }

  // ---------------------------------------------------------------------
  // Configuration and quiet hours

  /** The state of `config/alerts.json`: missing, or what `json.load` makes of it. */
  datatype ConfigFile = NoConfig | ConfigText(parsed: Option<Value>)

  /** The configuration used when the file is missing. */
  function DefaultConfig(): Value
  {
    Object(map[
      "quiet_hours" := Object(map["start" := Str("22:00"), "end" := Str("07:00"), "tz" := Str("Europe/Vilnius")]),
      "channels" := Object(map[])])
  }

  /** `load_config`: the default when the file is missing, else its JSON;
      `None` when it does not parse (the exception is not caught). */
  function LoadConfig(file: ConfigFile): (r: Option<Value>)
    ensures file.NoConfig? ==> r == Some(DefaultConfig())
    ensures file.ConfigText? ==> r == file.parsed
  {
    match file
    case NoConfig => Some(DefaultConfig())
    case ConfigText(parsed) => parsed
  }

  /** The local time of day, in microseconds, in each zone the database knows. */
  type Clock = f: string -> nat | forall zone :: f(zone) < SecondsPerDay * Micro
    witness (zone: string) => 0

  /** `is_quiet_hours`: `None` when the configuration or its `quiet_hours`
      is not an object (the lookups before the `try` raise); `false` for an
      unknown zone or an unparsable bound; otherwise whether the zone's
      current time lies in the window. */
  function IsQuietHours(config: Value, zones: set<string>, clock: Clock): (r: Option<bool>)
    ensures r.None? <==> !config.Object? || !Get(config.fields, "quiet_hours", Object(map[])).Object?
    ensures r.Some? ==>
      var quiet := Get(config.fields, "quiet_hours", Object(map[])).fields;
      var tz := Get(quiet, "tz", Str("Europe/Vilnius"));
      var start := Get(quiet, "start", Str("22:00"));
      var end := Get(quiet, "end", Str("07:00"));
      (r.value <==>
        tz.Str? && tz.s in zones && start.Str? && end.Str? &&
        ParseTime(start.s).Some? && ParseTime(end.s).Some? &&
        InWindow(ParseTime(start.s).value, ParseTime(end.s).value, clock(tz.s)))
  {
    if !config.Object? then None
    else
      var quiet := Get(config.fields, "quiet_hours", Object(map[]));
      if !quiet.Object? then None
      else
        var tz := Get(quiet.fields, "tz", Str("Europe/Vilnius"));
        var start := Get(quiet.fields, "start", Str("22:00"));
        var end := Get(quiet.fields, "end", Str("07:00"));
        if !tz.Str? || tz.s !in zones then Some(false)
        else
          var now := clock(tz.s);
          if !start.Str? || !end.Str? then Some(false)
          else match (ParseTime(start.s), ParseTime(end.s))
            case (Some(s), Some(e)) => Some(InWindow(s, e, now))
            case _ => Some(false)
  }

  /** With no configuration file the quiet hours are 22:00 to 07:00 in
      Vilnius whenever that zone is known, and never otherwise. */
  lemma DefaultQuietHours(zones: set<string>, clock: Clock)
    ensures "Europe/Vilnius" in zones ==>
      IsQuietHours(DefaultConfig(), zones, clock) ==
        Some(clock("Europe/Vilnius") >= 22 * 3600 * Micro || clock("Europe/Vilnius") < 7 * 3600 * Micro)
    ensures "Europe/Vilnius" !in zones ==> IsQuietHours(DefaultConfig(), zones, clock) == Some(false)
  {
    DefaultBoundsParse();
    var quiet := Get(DefaultConfig().fields, "quiet_hours", Object(map[]));
    assert quiet == Object(map["start" := Str("22:00"), "end" := Str("07:00"), "tz" := Str("Europe/Vilnius")]);
    assert Get(quiet.fields, "tz", Str("Europe/Vilnius")) == Str("Europe/Vilnius");
    assert Get(quiet.fields, "start", Str("22:00")) == Str("22:00");
    assert Get(quiet.fields, "end", Str("07:00")) == Str("07:00");
  }

  lemma DefaultBoundsParse()
    ensures ParseTime("22:00") == Some(22 * 3600 * Micro)
    ensures ParseTime("07:00") == Some(7 * 3600 * Micro)
  {
    assert FormatTime(22, 0, 0, 2) == "22:00";
    assert FormatTime(7, 0, 0, 2) == "07:00";
    ParseFormatted(22, 0, 0, 2);
    ParseFormatted(7, 0, 0, 2);
  }

  // ---------------------------------------------------------------------
  // The outbox

  /** `alerts/outbox.jsonl`: missing, present but unreadable as text (a
      directory, no permission, bytes that are not UTF-8), or its lines. */
  datatype Outbox = NoOutbox | UnreadableOutbox | Outbox(lines: seq<string>)

  /** What one line contributes: nothing when blank or not valid JSON. */
  function LineAlert(line: string, parse: string -> Option<Value>): (r: seq<Value>)
    ensures |r| <= 1
    ensures Blank(line, PySpace) ==> r == []
  {
    var stripped := Strip(line, PySpace);
    if stripped == "" then []
    else match parse(stripped)
      case Some(v) => [v]
      case None => []
  }

  /** The alerts of a sequence of lines, in order. */
  function Kept(lines: seq<string>, parse: string -> Option<Value>): (r: seq<Value>)
    ensures |r| <= |lines|
  {
    if lines == [] then [] else LineAlert(lines[0], parse) + Kept(lines[1..], parse)
  }

  /** An outbox of blank lines holds no alerts. */
  lemma {:induction false} KeptOfBlank(lines: seq<string>, parse: string -> Option<Value>)
    requires forall i :: 0 <= i < |lines| ==> Blank(lines[i], PySpace)
    ensures Kept(lines, parse) == []
  {
    if lines != [] {
      assert Blank(lines[0], PySpace);
      KeptOfBlank(lines[1..], parse);
    }
  }

  /** Every line is valid JSON once stripped, and none is blank. */
  predicate AllValid(lines: seq<string>, parse: string -> Option<Value>)
  {
    forall i :: 0 <= i < |lines| ==> !Blank(lines[i], PySpace) && parse(Strip(lines[i], PySpace)).Some?
  }

  /** The decoded value of every line, in order. */
  function Decoded(lines: seq<string>, parse: string -> Option<Value>): (r: seq<Value>)
    requires AllValid(lines, parse)
    ensures |r| == |lines|
    ensures forall i :: 0 <= i < |lines| ==> r[i] == parse(Strip(lines[i], PySpace)).value
  {
    if lines == [] then []
    else
      assert AllValid(lines[1..], parse) by {
        forall k | 0 <= k < |lines| - 1 ensures lines[1..][k] == lines[k + 1] { }
      }
      [parse(Strip(lines[0], PySpace)).value] + Decoded(lines[1..], parse)
  }

  /** When every line is valid JSON and none is blank, the outbox gives
      each line's decoded value, in order. */
  lemma {:induction false} KeptOfValid(lines: seq<string>, parse: string -> Option<Value>)
    requires AllValid(lines, parse)
    ensures Kept(lines, parse) == Decoded(lines, parse)
  {
    if lines != [] {
      var line, rest := lines[0], lines[1..];
      assert !Blank(line, PySpace) && parse(Strip(line, PySpace)).Some?;
      assert LineAlert(line, parse) == [parse(Strip(line, PySpace)).value];
      assert AllValid(rest, parse) by {
        forall k | 0 <= k < |rest| ensures rest[k] == lines[k + 1] { }
      }
      KeptOfValid(rest, parse);
    }
  }

  /** Reading two runs of lines one after the other keeps the alerts of each, in order. */
  lemma {:induction false} KeptConcat(a: seq<string>, b: seq<string>, parse: string -> Option<Value>)
    ensures Kept(a + b, parse) == Kept(a, parse) + Kept(b, parse)
  {
    if a == [] {
      assert a + b == b;
    } else {
      assert (a + b)[0] == a[0];
      assert (a + b)[1..] == a[1..] + b;
      KeptConcat(a[1..], b, parse);
    }
  }

  /** Reading one more line adds what that line contributes. */
  lemma KeptStep(lines: seq<string>, i: nat, parse: string -> Option<Value>)
    requires i < |lines|
    ensures Kept(lines[..i + 1], parse) == Kept(lines[..i], parse) + LineAlert(lines[i], parse)
  {
    var before, line := lines[..i], lines[i];
    assert lines[..i + 1] == before + [line];
    KeptConcat(before, [line], parse);
    KeptOne(line, parse);
  }

  lemma KeptOne(line: string, parse: string -> Option<Value>)
    ensures Kept([line], parse) == LineAlert(line, parse)
  {
    assert [line][1..] == [];
    assert LineAlert(line, parse) + [] == LineAlert(line, parse);
  }

  /** `load_alerts`: strips each line of the outbox and keeps the ones
      that decode, skipping blank and invalid lines; `None` when the file
      cannot be read, which raises. */
  method LoadAlerts(outbox: Outbox, parse: string -> Option<Value>) returns (loaded: Option<seq<Value>>)
    ensures outbox.NoOutbox? ==> loaded == Some([])
    ensures outbox.UnreadableOutbox? ==> loaded == None
    ensures outbox.Outbox? ==> loaded == Some(Kept(outbox.lines, parse))
  {
    if outbox.NoOutbox? {
      return Some([]);
    }
    if outbox.UnreadableOutbox? {
      return None;
    }
    var alerts := [];
    var lines := outbox.lines;
    var i := 0;
    while i < |lines|
      invariant 0 <= i <= |lines|
      invariant alerts == Kept(lines[..i], parse)
    {
      KeptStep(lines, i, parse);
      ghost var kept := LineAlert(lines[i], parse);
      var line := Strip(lines[i], PySpace);
      if line != "" {
        var decoded := parse(line);
        if decoded.Some? {
          assert kept == [decoded.value];
          alerts := alerts + [decoded.value];
        } else {
          assert kept == [];
        }
      } else {
        assert kept == [];
      }
      assert alerts == Kept(lines[..i + 1], parse);
      i := i + 1;
    }
    assert lines[..i] == lines;
    loaded := Some(alerts);
  }

  // ---------------------------------------------------------------------
  // Dispatch

  /** `{alert.get('change_pct', 0):.1f}` formats numbers (booleans included) and raises otherwise. */
  predicate Formattable(v: Value)
  {
    v.Int? || v.Float? || v.Bool?
  }

  /** Whether `dispatch_alert` returns for this alert. */
  predicate Dispatchable(alert: Value, config: Value)
  {
    config.Object? && Get(config.fields, "channels", Object(map[])).Object? &&
    alert.Object? && Formattable(Get(alert.fields, "change_pct", Int(0)))
  }

  /** `dispatch_alert`: always `true` when it returns; `None` when the
      configuration, its channels or the alert is not an object, or the
      change is not a number. The channels only change what is printed. */
  function DispatchAlert(alert: Value, config: Value, dryRun: bool): (r: Option<bool>)
    ensures r.Some? <==> Dispatchable(alert, config)
    ensures r.Some? ==> r.value
  {
    if !config.Object? then None
    else
      var channels := Get(config.fields, "channels", Object(map[]));
      if !channels.Object? || !alert.Object? then None
      else if !Formattable(Get(alert.fields, "change_pct", Int(0))) then None
      else Some(true)
  }

  /** The dispatch loop of `main`: the count of alerts dispatched, or
      `None` when one of them raises. */
  method DispatchAll(alerts: seq<Value>, config: Value, dryRun: bool) returns (dispatched: Option<nat>)
    ensures dispatched.Some? <==> forall i :: 0 <= i < |alerts| ==> Dispatchable(alerts[i], config)
    ensures dispatched.Some? ==> dispatched.value == |alerts|
  {
    var count := 0;
    var i := 0;
    while i < |alerts|
      invariant 0 <= i <= |alerts|
      invariant count == i
      invariant forall j :: 0 <= j < i ==> Dispatchable(alerts[j], config)
    {
      var ok := DispatchAlert(alerts[i], config, dryRun);
      if ok.None? {
        return None;
      }
      if ok.value {
        count := count + 1;
      }
      i := i + 1;
    }
    return Some(count);
  }

  // ---------------------------------------------------------------------
  // The command line

  /** What `main` reported before returning 0. */
  datatype Summary = QuietHours | NoAlerts | Dispatched(count: nat, dryRun: bool)

  datatype RunResult = Finished(summary: Summary, code: int) | Crashed

  /** The alerts `main` would dispatch: those of a readable outbox, if any. */
  function QueuedAlerts(outbox: Outbox, parse: string -> Option<Value>): seq<Value>
  {
    if outbox.Outbox? then Kept(outbox.lines, parse) else []
  }

  /** `main` gets past the quiet-hours check: the configuration loads, and
      either `--flush` skips the check or the check answers no. */
  predicate PastQuietCheck(flush: bool, configFile: ConfigFile, zones: set<string>, clock: Clock)
  {
    LoadConfig(configFile).Some? &&
    (flush || IsQuietHours(LoadConfig(configFile).value, zones, clock) == Some(false))
  }

  /** Every queued alert can be dispatched under the configuration. */
  predicate AllDispatchable(alerts: seq<Value>, config: Value)
  {
    forall i :: 0 <= i < |alerts| ==> Dispatchable(alerts[i], config)
  }

  /** `main`: returns 0 whenever it returns. Without `--flush` nothing is
      read or removed during quiet hours. Past that check an unreadable
      outbox raises, an empty queue reports no alerts, and otherwise every
      alert is dispatched, or the run raises at the first one that cannot
      be. The outbox is removed exactly when a run that is not a dry run
      dispatched at least one alert; a run that raises removes nothing. */
  method AlertMain(flush: bool, dryRun: bool, configFile: ConfigFile, outbox: Outbox,
                   zones: set<string>, clock: Clock, parse: string -> Option<Value>)
      returns (r: RunResult, outboxAfter: Outbox)
    ensures r.Finished? ==> r.code == 0
    ensures LoadConfig(configFile).None? ==> r.Crashed?
    ensures LoadConfig(configFile).Some? && !flush ==>
      var quiet := IsQuietHours(LoadConfig(configFile).value, zones, clock);
      (quiet.None? ==> r.Crashed?) && (quiet == Some(true) ==> r == Finished(QuietHours, 0))
    ensures r.Finished? && r.summary.Dispatched? ==>
      r.summary.count == |QueuedAlerts(outbox, parse)| && r.summary.count > 0 &&
      r.summary.dryRun == dryRun
    ensures r == Finished(NoAlerts, 0) ==> QueuedAlerts(outbox, parse) == []
    ensures PastQuietCheck(flush, configFile, zones, clock) ==>
      var queued := QueuedAlerts(outbox, parse);
      var config := LoadConfig(configFile).value;
      (outbox.UnreadableOutbox? ==> r.Crashed?) &&
      (!outbox.UnreadableOutbox? && queued == [] ==> r == Finished(NoAlerts, 0)) &&
      (!outbox.UnreadableOutbox? && queued != [] && AllDispatchable(queued, config) ==>
         r == Finished(Dispatched(|queued|, dryRun), 0)) &&
      (!outbox.UnreadableOutbox? && !AllDispatchable(queued, config) ==> r.Crashed?)
    ensures outboxAfter == (if r.Finished? && r.summary.Dispatched? && !dryRun then NoOutbox else outbox)
  {
    outboxAfter := outbox;
    var config := LoadConfig(configFile);
    if config.None? {
      return Crashed, outboxAfter;
    }
    if !flush {
      var quiet := IsQuietHours(config.value, zones, clock);
      if quiet.None? {
        return Crashed, outboxAfter;
      }
      if quiet.value {
        return Finished(QuietHours, 0), outboxAfter;
      }
    }
    var loaded := LoadAlerts(outbox, parse);
    if loaded.None? {
      return Crashed, outboxAfter;
    }
    var alerts := loaded.value;
    assert alerts == QueuedAlerts(outbox, parse);
    if alerts == [] {
      return Finished(NoAlerts, 0), outboxAfter;
    }
    var dispatched := DispatchAll(alerts, config.value, dryRun);
    if dispatched.None? {
      return Crashed, outboxAfter;
    }
    if !dryRun && dispatched.value > 0 {
      outboxAfter := NoOutbox;
    }
    r := Finished(Dispatched(dispatched.value, dryRun), 0);
  }
}
