/** Values shared by every part of the model: the decoded JSON values that
    Python's `json.loads` and an Express JSON body produce, an Option type,
    path joining, and the character-level helpers (`str.strip()`,
    `String.prototype.trim()`) the components use to recognise blank text. */
module Json {

  datatype Option<+T> = None | Some(value: T)

  /** A decoded JSON document. `Float` stands for a JSON number with a
      fraction or exponent; NaN and the infinities are not represented. */
  datatype Value =
    | Null
    | Bool(b: bool)
    | Int(i: int)
    | Float(r: real)
    | Str(s: string)
    | Array(items: seq<Value>)
    | Object(fields: map<string, Value>)

  /** Python's `bool(v)` for a decoded value: `None`, `False`, zero, the empty
      string, the empty list and the empty dict are false. */
  function Truthy(v: Value): (t: bool)
    ensures !t <==> v in {Null, Bool(false), Int(0), Float(0.0), Str(""), Array([]), Object(map[])}
  {
    match v
    case Null => false
    case Bool(b) => b
    case Int(i) => i != 0
    case Float(r) => r != 0.0
    case Str(s) => s != ""
    case Array(xs) => xs != []
    case Object(m) => m != map[]
  }

  /** Python's `dict.get(key, default)` on a decoded object. */
  function Get(m: map<string, Value>, key: string, default: Value): (r: Value)
    ensures key in m ==> r == m[key]
    ensures key !in m ==> r == default
  {
    if key in m then m[key] else default
  }

  /** `base / rel`: one separator between the parts, and `rel` alone for an
      empty base (`Path("")` is the current directory). */
  function JoinPath(base: string, rel: string): (p: string)
    ensures base == "" ==> p == rel
    ensures base != "" ==>
      StartsWith(p, base) && EndsWith(p, rel) && |base| + |rel| <= |p| <= |base| + |rel| + 1 &&
      p[|p| - |rel| - 1] == '/'
  {
    if base == "" then rel
    else if base[|base| - 1] == '/' then base + rel
    else base + "/" + rel
  }

  predicate StartsWith(s: string, prefix: string)
  {
    |prefix| <= |s| && s[..|prefix|] == prefix
  }

  predicate EndsWith(s: string, suffix: string)
  {
    |suffix| <= |s| && s[|s| - |suffix|..] == suffix
  }

  /** The characters Python's `str.isspace()` accepts, which `str.strip()` removes. */
  predicate PySpace(c: char)
  {
    c == ' ' || ('\t' <= c <= '\r') || ('\U{1C}' <= c <= '\U{1F}') ||
    c == '\U{85}' || c == '\U{A0}' || c == '\U{1680}' ||
    ('\U{2000}' <= c <= '\U{200A}') || c == '\U{2028}' || c == '\U{2029}' ||
    c == '\U{202F}' || c == '\U{205F}' || c == '\U{3000}'
  }

  /** An ASCII decimal digit. */
  predicate IsDigit(c: char)
  {
    '0' <= c <= '9'
  }

  /** The value of a string of decimal digits (leading zeros allowed). */
  function DecimalValue(ds: string): nat
    requires forall k :: 0 <= k < |ds| ==> IsDigit(ds[k])
    decreases |ds|
  {
    if ds == [] then 0
    else
      assert IsDigit(ds[|ds| - 1]);
      10 * DecimalValue(ds[..|ds| - 1]) + (ds[|ds| - 1] as int - '0' as int)
  }

  /** The characters JavaScript's `trim()` and `parseInt` skip: WhiteSpace and
      LineTerminator of ECMA-262. */
  predicate JsSpace(c: char)
  {
    c == ' ' || ('\t' <= c <= '\r') ||
    c == '\U{A0}' || c == '\U{FEFF}' || c == '\U{1680}' ||
    ('\U{2000}' <= c <= '\U{200A}') || c == '\U{2028}' || c == '\U{2029}' ||
    c == '\U{202F}' || c == '\U{205F}' || c == '\U{3000}'
  }

  /** Every character of `s` is white space. */
  predicate Blank(s: string, space: char -> bool)
  {
    forall k :: 0 <= k < |s| ==> space(s[k])
  }

  /** The number of leading white-space characters of `s`. */
  function LeadingSpace(s: string, space: char -> bool): (n: nat)
    ensures n <= |s|
    ensures forall k :: 0 <= k < n ==> space(s[k])
    ensures n < |s| ==> !space(s[n])
  {
    if |s| == 0 || !space(s[0]) then 0 else 1 + LeadingSpace(s[1..], space)
  }

  /** The length of `s` once its trailing white space is dropped. */
  function TrailingCut(s: string, space: char -> bool): (n: nat)
    ensures n <= |s|
    ensures forall k :: n <= k < |s| ==> space(s[k])
    ensures n > 0 ==> !space(s[n - 1])
  {
    if |s| == 0 || !space(s[|s| - 1]) then |s| else TrailingCut(s[..|s| - 1], space)
  }

  /** `s` with leading and trailing white space removed: `str.strip()` for
      `PySpace`, `trim()` for `JsSpace`. The result is a contiguous part of `s`
      that neither starts nor ends with white space, and it is empty exactly
      when `s` is blank. */
  function Strip(s: string, space: char -> bool): (r: string)
    ensures |r| <= |s|
    ensures r == "" <==> Blank(s, space)
    ensures r != "" ==> !space(r[0]) && !space(r[|r| - 1])
    ensures LeadingSpace(s, space) + |r| <= |s|
    ensures r == s[LeadingSpace(s, space)..LeadingSpace(s, space) + |r|]
    ensures Blank(s[LeadingSpace(s, space) + |r|..], space)
  {
    var i := LeadingSpace(s, space);
    var rest := s[i..];
    var j := TrailingCut(rest, space);
    assert rest[..j] == s[i..i + j];
    assert j > 0 ==> !space(rest[0]);
    assert s[i + j..] == rest[j..];
    rest[..j]
  }
}
