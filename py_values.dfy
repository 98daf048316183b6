/**
 * Python values and the small pieces of Python's built-in behaviour that the
 * tool-signature compiler relies on: equality across bool/int/float,
 * truthiness, the keyword list, identifier syntax, `str.lower`, `str.strip`,
 * substring tests and `str.join`.
 */
module PyValues {

  datatype Option<T> = None | Some(value: T)

  datatype Result<T, E> = Ok(value: T) | Err(error: E)

  /** A Python exception: the name of its class, its `str()`, and whether its
      class derives from ValueError (the one distinction the callers make). */
  datatype PyException = PyException(kind: string, msg: string, isValueError: bool)

  /** A Python value as it appears in declarations, call arguments and the
      host configuration. `VFile` is a text handle opened on `source`. */
  datatype Value =
    | VNone
    | VBool(b: bool)
    | VInt(i: int)
    | VFloat(f: real)
    | VStr(s: string)
    | VList(items: seq<Value>)
    | VFile(source: Value)

  predicate IsNumber(v: Value) {
    v.VBool? || v.VInt? || v.VFloat?
  }

  /** The numeric value of a bool, int or float (True is 1, False is 0). */
  function NumberOf(v: Value): real
    requires IsNumber(v)
  {
    match v
    case VBool(b) => if b then 1.0 else 0.0
    case VInt(i) => i as real
    case VFloat(f) => f
  }

  /** Python's `==`: numbers compare by value across bool, int and float;
      lists compare element by element; other kinds only with their own kind. */
  predicate PyEq(a: Value, b: Value)
    decreases a
  {
    if IsNumber(a) && IsNumber(b) then NumberOf(a) == NumberOf(b)
    else match a
      case VNone => b.VNone?
      case VStr(s) => b.VStr? && b.s == s
      case VList(xs) =>
        b.VList? && |xs| == |b.items| &&
        forall i | 0 <= i < |xs| :: PyEq(xs[i], b.items[i])
      case VFile(src) => b == a
      case _ => false
  }

  lemma {:induction false} PyEqReflexive(a: Value)
    ensures PyEq(a, a)
    decreases a
  {
    match a
    case VList(xs) =>
      forall i | 0 <= i < |xs| ensures PyEq(xs[i], xs[i]) {
        PyEqReflexive(xs[i]);
      }
    case _ =>
  }

  /** Python's `bool(v)`. */
  predicate Truthy(v: Value) {
    match v
    case VNone => false
    case VBool(b) => b
    case VInt(i) => i != 0
    case VFloat(f) => f != 0.0
    case VStr(s) => s != ""
    case VList(xs) => |xs| > 0
    case VFile(_) => true
  }

  /** A list value is unhashable; putting one in a set raises TypeError. */
  predicate Hashable(v: Value) {
    !v.VList?
  }

  /** `type(v).__name__`. */
  function TypeName(v: Value): string {
    match v
    case VNone => "NoneType"
    case VBool(_) => "bool"
    case VInt(_) => "int"
    case VFloat(_) => "float"
    case VStr(_) => "str"
    case VList(_) => "list"
    case VFile(_) => "TextIOWrapper"
  }

  /** Membership in the hard keywords of Python 3 (`keyword.kwlist`), listed
      by length. */
  predicate IsKeyword(s: string) {
    match |s|
    case 2 => s in {"as", "if", "in", "is", "or"}
    case 3 => s in {"and", "def", "del", "for", "not", "try"}
    case 4 => s in {"None", "True", "elif", "else", "from", "pass", "with"}
    case 5 => s in {"False", "async", "await", "break", "class", "raise", "while", "yield"}
    case 6 => s in {"assert", "except", "global", "import", "lambda", "return"}
    case 7 => s == "finally"
    case 8 => s in {"continue", "nonlocal"}
    case _ => false
  }

  predicate IsAsciiLetter(c: char) {
    ('a' <= c <= 'z') || ('A' <= c <= 'Z')
  }

  predicate IsAsciiDigit(c: char) {
    '0' <= c <= '9'
  }

  /** `str.isidentifier()` restricted to ASCII. */
  predicate IsIdentifier(s: string) {
    |s| > 0 &&
    (IsAsciiLetter(s[0]) || s[0] == '_') &&
    forall i | 1 <= i < |s| :: IsAsciiLetter(s[i]) || IsAsciiDigit(s[i]) || s[i] == '_'
  }

  function LowerChar(c: char): char {
    if 'A' <= c <= 'Z' then (c as int + 32) as char else c
  }

  /** `str.lower()` on the ASCII range. */
  function Lower(s: string): (r: string)
    ensures |r| == |s|
    ensures forall i | 0 <= i < |s| :: r[i] == LowerChar(s[i])
  {
    seq(|s|, i requires 0 <= i < |s| => LowerChar(s[i]))
  }

  /** The characters for which `str.isspace()` holds. */
  predicate IsSpace(c: char) {
    c == ' ' || ('\t' <= c <= '\r') || ('\U{1c}' <= c <= '\U{1f}') ||
    c == '\U{85}' || c == '\U{a0}' || c == '\U{1680}' ||
    ('\U{2000}' <= c <= '\U{200a}') || c == '\U{2028}' || c == '\U{2029}' ||
    c == '\U{202f}' || c == '\U{205f}' || c == '\U{3000}'
  }

  predicate AllSpace(s: string) {
    forall i | 0 <= i < |s| :: IsSpace(s[i])
  }

  /** Number of leading whitespace characters. */
  function LeadingSpace(s: string): (n: nat)
    ensures n <= |s|
    ensures AllSpace(s[..n])
    ensures n < |s| ==> !IsSpace(s[n])
  {
    if s == [] || !IsSpace(s[0]) then 0
    else
      var k := LeadingSpace(s[1..]);
      assert s[1..][..k] == s[1..k + 1];
      1 + k
  }

  /** Number of trailing whitespace characters. */
  function TrailingSpace(s: string): (n: nat)
    ensures n <= |s|
    ensures AllSpace(s[|s| - n..])
    ensures n < |s| ==> !IsSpace(s[|s| - n - 1])
  {
    if s == [] || !IsSpace(s[|s| - 1]) then 0
    else
      var k := TrailingSpace(s[..|s| - 1]);
      assert s[..|s| - 1][|s| - 1 - k..] == s[|s| - 1 - k..|s| - 1];
      1 + k
  }

  /** `str.strip()`: the text without surrounding whitespace. */
  function Strip(s: string): (r: string)
    ensures |r| == 0 || (!IsSpace(r[0]) && !IsSpace(r[|r| - 1]))
    ensures exists i, j | 0 <= i <= j <= |s| :: r == s[i..j] && AllSpace(s[..i]) && AllSpace(s[j..])
  {
    var i := LeadingSpace(s);
    if i == |s| then
      assert s[..0] == [] && s[0..0] == [] && AllSpace(s[0..]);
      []
    else
      var u := s[i..];
      var t := TrailingSpace(u);
      var j := |s| - t;
      assert u[|u| - t..] == s[j..];
      assert t < |u|;
      var r := s[i..j];
      assert r[0] == u[0] == s[i];
      assert r[|r| - 1] == u[|u| - t - 1];
      assert r == s[i..j] && AllSpace(s[..i]) && AllSpace(s[j..]);
      r
  }

  lemma StripOfSpacesIsEmpty(s: string)
    requires AllSpace(s)
    ensures Strip(s) == []
  {
    if |s| > 0 {
      assert IsSpace(s[0]);
    }
  }

  /** `needle in haystack` for strings. */
  predicate IsSubstring(needle: string, haystack: string)
    decreases |haystack|
  {
    (|needle| <= |haystack| && haystack[..|needle|] == needle) ||
    (|haystack| > 0 && IsSubstring(needle, haystack[1..]))
  }

  predicate EndsWith(s: string, suffix: string) {
    |suffix| <= |s| && s[|s| - |suffix|..] == suffix
  }

  /** `sep.join(parts)`. */
  function Join(parts: seq<string>, sep: string): string {
    if parts == [] then ""
    else if |parts| == 1 then parts[0]
    else Join(parts[..|parts| - 1], sep) + sep + parts[|parts| - 1]
  }
}
