/** Values and string operations shared by the modules of the model: the
    JavaScript notions of "missing", "truthy" and the handful of `String`
    methods that the route handlers and helpers use. */
module Common {

  datatype Option<+T> = None | Some(value: T)

  /** `o ?? d`: the value, or the default when it is `null` or `undefined`. */
  function OrElse<T>(o: Option<T>, d: T): T {
    if o.Some? then o.value else d
  }

  /** A thrown error or a returned value. */
  datatype Result<+T, +E> = Success(value: T) | Failure(error: E)

  /** A string-valued property is truthy in JavaScript when it is present
      (neither `null` nor `undefined`) and not the empty string. */
  predicate Truthy(o: Option<string>) {
    o.Some? && o.value != ""
  }

  predicate StartsWith(s: string, prefix: string) {
    |prefix| <= |s| && s[..|prefix|] == prefix
  }

  /** `s.includes(sub)`. */
  predicate Contains(s: string, sub: string) {
    exists i | 0 <= i <= |s| :: OccursAt(s, sub, i)
  }

  predicate OccursAt(s: string, sub: string, i: int) {
    0 <= i <= |s| - |sub| && s[i..i + |sub|] == sub
  }

  /** The code points that the regular expression class `\s` matches and that
      `String.prototype.trim` removes: ECMAScript WhiteSpace and LineTerminator. */
  predicate IsJsSpace(c: char) {
    || c == ' ' || c == '\t' || c == '\n' || c == '\r'
    || c == '\U{B}' || c == '\U{C}' || c == '\U{A0}' || c == '\U{1680}'
    || ('\U{2000}' <= c <= '\U{200A}')
    || c == '\U{2028}' || c == '\U{2029}' || c == '\U{202F}' || c == '\U{205F}'
    || c == '\U{3000}' || c == '\U{FEFF}'
  }

  /** `s.trim()`: drop leading and trailing white space. */
  function Trim(s: string): (r: string)
    ensures |r| <= |s|
    ensures r != [] ==> !IsJsSpace(r[0]) && !IsJsSpace(r[|r| - 1])
    ensures s != [] && !IsJsSpace(s[0]) && !IsJsSpace(s[|s| - 1]) ==> r == s
  {
    TrimEnd(TrimStart(s))
  }

  /** A string trims to nothing exactly when it is all white space. */
  lemma TrimBlank(s: string)
    ensures Trim(s) == [] <==> forall k :: 0 <= k < |s| ==> IsJsSpace(s[k])
  {
    var t := TrimStart(s);
    assert |t| > 0 ==> t[0] == s[|s| - |t|];
  }

  function TrimStart(s: string): (r: string)
    ensures |r| <= |s| && r == s[|s| - |r|..]
    ensures forall k :: 0 <= k < |s| - |r| ==> IsJsSpace(s[k])
    ensures r != [] ==> !IsJsSpace(r[0])
  {
    if s != [] && IsJsSpace(s[0]) then TrimStart(s[1..]) else s
  }

  function TrimEnd(s: string): (r: string)
    ensures |r| <= |s| && r == s[..|r|]
    ensures forall k :: |r| <= k < |s| ==> IsJsSpace(s[k])
    ensures r != [] ==> !IsJsSpace(r[|r| - 1])
    ensures s != [] && !IsJsSpace(s[0]) ==> r != [] && r[0] == s[0]
  {
    if s != [] && IsJsSpace(s[|s| - 1]) then TrimEnd(s[..|s| - 1]) else s
  }

  /** `s.split(sep)[0]`: everything before the first `sep`, or all of `s`. */
  function Before(s: string, sep: char): (r: string)
    ensures StartsWith(s, r) && sep !in r
    ensures |r| < |s| ==> s[|r|] == sep
  {
    if s == [] then []
    else if s[0] == sep then []
    else [s[0]] + Before(s[1..], sep)
  }

  /** What follows the first `sep` in `s`; `s.split(sep)[1]` is `Before(After(s, sep), sep)`. */
  function After(s: string, sep: char): (r: string)
    requires sep in s
    ensures s == Before(s, sep) + [sep] + r
  {
    if s[0] == sep then s[1..] else After(s[1..], sep)
  }

  /** A string without the separator is its own first part. */
  lemma BeforeWhole(s: string, sep: char)
    requires sep !in s
    ensures Before(s, sep) == s
  {
  }

  /** Splitting `a + [sep] + b` on its first `sep` gives back `a` and `b`. */
  lemma {:induction false} SplitJoin(a: string, sep: char, b: string)
    requires sep !in a
    ensures sep in a + [sep] + b
    ensures Before(a + [sep] + b, sep) == a && After(a + [sep] + b, sep) == b
  {
    var s := a + [sep] + b;
    assert s[|a|] == sep;
    if a != [] {
      assert s[1..] == a[1..] + [sep] + b;
      assert a[0] in a;
      SplitJoin(a[1..], sep, b);
    }
  }

  /** `s.replace(c, "")` with a one-character string pattern: only the first
      occurrence is removed. */
  function RemoveFirst(s: string, c: char): (r: string)
    ensures c !in s ==> r == s
    ensures c in s ==> r == Before(s, c) + After(s, c)
    ensures |r| == if c in s then |s| - 1 else |s|
  {
    if s == [] then []
    else if s[0] == c then s[1..]
    else [s[0]] + RemoveFirst(s[1..], c)
  }

  /** `s.replace(/\s/g, "")`: every white-space code point removed. */
  function RemoveSpaces(s: string): (r: string)
    ensures forall k :: 0 <= k < |r| ==> !IsJsSpace(r[k])
    ensures |r| <= |s|
    ensures (forall k :: 0 <= k < |s| ==> !IsJsSpace(s[k])) ==> r == s
  {
    if s == [] then []
    else if IsJsSpace(s[0]) then RemoveSpaces(s[1..])
    else [s[0]] + RemoveSpaces(s[1..])
  }

  /** Removing white space keeps every other character, in order: the result
      is what remains of `s + t` when each part is stripped on its own. */
  lemma {:induction false} RemoveSpacesAppend(s: string, t: string)
    ensures RemoveSpaces(s + t) == RemoveSpaces(s) + RemoveSpaces(t)
  {
    if s == [] {
      assert s + t == t;
    } else {
      assert (s + t)[0] == s[0] && (s + t)[1..] == s[1..] + t;
      RemoveSpacesAppend(s[1..], t);
    }
  }

  predicate IsDigit(c: char) {
    '0' <= c <= '9'
  }

  /** The decimal rendering of a number inside a template literal. */
  function NatToDecimal(n: nat): (r: string)
    ensures r != [] && forall k :: 0 <= k < |r| ==> IsDigit(r[k])
    ensures DecimalValue(r) == n
  {
    if n < 10 then [(n + '0' as int) as char]
    else NatToDecimal(n / 10) + [(n % 10 + '0' as int) as char]
  }

  /** The value of a string of decimal digits; `Number("")` is 0. */
  function DecimalValue(s: string): nat
    requires forall k :: 0 <= k < |s| ==> IsDigit(s[k])
  {
    if s == [] then 0
    else
      assert IsDigit(s[|s| - 1]);
      10 * DecimalValue(s[..|s| - 1]) + (s[|s| - 1] as int - '0' as int)
  }
}
