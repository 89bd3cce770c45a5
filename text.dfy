/**
 * The Python string operations the three tabs rely on: `str.strip()`,
 * `str.startswith`, `str.find`/`str.split`, `str.join`, `int()` on a decimal
 * string and `str()` of an integer. Each is stated by the property that
 * characterises it, and the ones that come in pairs (`int`/`str`,
 * `join`/`split`) are proved to undo each other.
 */
module Text {
  import opened Wrappers

  /** The characters `str.isspace()` accepts, which are those `str.strip()` removes. */
  predicate IsSpace(c: char)
  {
    || c == ' '
    || ('\t' <= c <= '\r')
    || ('\U{1c}' <= c <= '\U{1f}')
    || c == '\U{85}'
    || c == '\U{a0}'
    || c == '\U{1680}'
    || ('\U{2000}' <= c <= '\U{200a}')
    || c == '\U{2028}'
    || c == '\U{2029}'
    || c == '\U{202f}'
    || c == '\U{205f}'
    || c == '\U{3000}'
  }

  /** How many whitespace characters `s` starts with. */
  function LeadingSpaces(s: string): (n: nat)
    ensures n <= |s|
    ensures forall k | 0 <= k < n :: IsSpace(s[k])
    ensures n == |s| || !IsSpace(s[n])
  {
    if s == [] || !IsSpace(s[0]) then 0 else 1 + LeadingSpaces(s[1..])
  }

  /** How many whitespace characters `s` ends with. */
  function TrailingSpaces(s: string): (n: nat)
    ensures n <= |s|
    ensures forall k | |s| - n <= k < |s| :: IsSpace(s[k])
    ensures n == |s| || !IsSpace(s[|s| - 1 - n])
  {
    if s == [] || !IsSpace(s[|s| - 1]) then 0 else 1 + TrailingSpaces(s[..|s| - 1])
  }

  /**
   * Python's `s.strip()`: the stretch of `s` left once its leading and
   * trailing whitespace is removed. It is empty exactly when `s` is all
   * whitespace, and otherwise starts and ends with a non-space.
   */
  function Strip(s: string): (r: string)
    ensures |r| <= |s|
    ensures LeadingSpaces(s) + |r| <= |s| && r == s[LeadingSpaces(s)..LeadingSpaces(s) + |r|]
    ensures forall k | LeadingSpaces(s) + |r| <= k < |s| :: IsSpace(s[k])
    ensures r != [] ==> !IsSpace(r[0]) && !IsSpace(r[|r| - 1])
    ensures r == [] <==> forall k | 0 <= k < |s| :: IsSpace(s[k])
  {
    var t := s[LeadingSpaces(s)..];
    var n := TrailingSpaces(t);
    t[..|t| - n]
  }

  /** A string with no whitespace at either end is left as it is by `strip()`. */
  lemma StripUnpadded(s: string)
    requires s != [] ==> !IsSpace(s[0]) && !IsSpace(s[|s| - 1])
    ensures Strip(s) == s
  {
    assert LeadingSpaces(s) == 0;
    assert TrailingSpaces(s) == 0;
  }

  /** Stripping twice is stripping once. */
  lemma StripIdempotent(s: string)
    ensures Strip(Strip(s)) == Strip(s)
  {
    StripUnpadded(Strip(s));
  }

  /** Python's `s.startswith(prefix)`. */
  predicate StartsWith(s: string, prefix: string)
  {
    |prefix| <= |s| && s[..|prefix|] == prefix
  }

  predicate EndsWith(s: string, suffix: string)
  {
    |suffix| <= |s| && s[|s| - |suffix|..] == suffix
  }

  /** `pat` occurs in `s` at index `i`. */
  predicate OccursAt(s: string, pat: string, i: int)
  {
    0 <= i && i + |pat| <= |s| && s[i..i + |pat|] == pat
  }

  /** The first occurrence of `pat` in `s` at or after `start`, if any. */
  function FindFrom(s: string, pat: string, start: nat): (r: Option<nat>)
    ensures r.Some? ==> start <= r.value && OccursAt(s, pat, r.value)
    ensures r.Some? ==> forall i | start <= i < r.value :: !OccursAt(s, pat, i)
    ensures r.None? ==> forall i | start <= i :: !OccursAt(s, pat, i)
    decreases |s| - start
  {
    if start + |pat| > |s| then None
    else if OccursAt(s, pat, start) then Some(start)
    else FindFrom(s, pat, start + 1)
  }

  /**
   * Python's `s.find(pat)`, with `None` for -1: the leftmost index at which
   * `pat` occurs in `s`, which is also where `s.split(pat, 1)` cuts.
   */
  function Find(s: string, pat: string): (r: Option<nat>)
    ensures r.Some? ==> OccursAt(s, pat, r.value)
    ensures r.Some? ==> forall i | 0 <= i < r.value :: !OccursAt(s, pat, i)
    ensures r.None? ==> forall i :: !OccursAt(s, pat, i)
  {
    FindFrom(s, pat, 0)
  }

  /** Python's `sep.join(parts)`. */
  function Join(sep: string, parts: seq<string>): (r: string)
  {
    if |parts| == 0 then ""
    else if |parts| == 1 then parts[0]
    else parts[0] + sep + Join(sep, parts[1..])
  }

  /** Python's `s.split(sep)` for a one-character separator: never an empty list. */
  function Split(s: string, sep: char): (parts: seq<string>)
    ensures |parts| > 0
    ensures forall i | 0 <= i < |parts| :: sep !in parts[i]
  {
    if s == [] then [""]
    else
      var rest := Split(s[1..], sep);
      if s[0] == sep then [""] + rest else [[s[0]] + rest[0]] + rest[1..]
  }

  /** A string without the separator splits into itself. */
  lemma {:induction false} SplitWithoutSeparator(a: string, sep: char)
    requires sep !in a
    ensures Split(a, sep) == [a]
  {
    if a != [] {
      SplitWithoutSeparator(a[1..], sep);
      assert [a[0]] + a[1..] == a;
    }
  }

  /** Splitting `a + sep + t`, where `a` has no separator, yields `a` and then the parts of `t`. */
  lemma {:induction false} SplitAfterFirst(a: string, sep: char, t: string)
    requires sep !in a
    ensures Split(a + [sep] + t, sep) == [a] + Split(t, sep)
  {
    var s := a + [sep] + t;
    if a == [] {
      assert s[1..] == t;
    } else {
      assert s[1..] == a[1..] + [sep] + t;
      SplitAfterFirst(a[1..], sep, t);
      assert [a[0]] + a[1..] == a;
    }
  }

  /** Joining with one character and splitting on it gives the parts back, provided none contains it. */
  lemma {:induction false} SplitJoin(parts: seq<string>, sep: char)
    requires |parts| > 0
    requires forall i | 0 <= i < |parts| :: sep !in parts[i]
    ensures Split(Join([sep], parts), sep) == parts
  {
    if |parts| == 1 {
      SplitWithoutSeparator(parts[0], sep);
    } else {
      SplitJoin(parts[1..], sep);
      SplitAfterFirst(parts[0], sep, Join([sep], parts[1..]));
      assert [parts[0]] + parts[1..] == parts;
    }
  }

  predicate IsDigit(c: char)
  {
    '0' <= c <= '9'
  }

  function DigitChar(d: nat): (c: char)
    requires d < 10
    ensures IsDigit(c)
  {
    (48 + d) as char
  }

  function DigitValue(c: char): (d: nat)
    requires IsDigit(c)
    ensures d < 10 && DigitChar(d) == c
  {
    c as int - 48
  }

  /** The decimal digits of `n`, most significant first, with no leading zero. */
  function NatDigits(n: nat): (s: string)
    ensures s != []
    ensures forall k | 0 <= k < |s| :: IsDigit(s[k])
  {
    if n < 10 then [DigitChar(n)] else NatDigits(n / 10) + [DigitChar(n % 10)]
  }

  /** Python's `str(n)` for an integer `n`: a minus sign for negatives, then decimal digits. */
  function IntToString(n: int): (s: string)
    ensures s != []
    ensures forall k | 0 <= k < |s| :: IsDigit(s[k]) || (k == 0 && n < 0 && s[k] == '-')
  {
    if n < 0 then "-" + NatDigits(-n) else NatDigits(n)
  }

  /** A run of digits as `int()` accepts it: digits, with single underscores between two digits. */
  predicate IsDigitRun(s: string)
  {
    && |s| > 0
    && IsDigit(s[0])
    && IsDigit(s[|s| - 1])
    && forall k | 0 <= k < |s| - 1 :: IsDigit(s[k]) || (s[k] == '_' && IsDigit(s[k + 1]))
  }

  /** How many digits `int()` and `str()` handle: a longer digit string raises `ValueError`. */
  const MaxStrDigits := 4300

  /** The number of digits in `s`, underscores and signs not counted. */
  function DigitCount(s: string): (n: nat)
    ensures n <= |s|
  {
    if s == [] then 0
    else DigitCount(s[..|s| - 1]) + (if IsDigit(s[|s| - 1]) then 1 else 0)
  }

  /** A string of digits only has as many digits as characters. */
  lemma {:induction false} DigitCountAll(s: string)
    requires forall k | 0 <= k < |s| :: IsDigit(s[k])
    ensures DigitCount(s) == |s|
  {
    if s != [] {
      DigitCountAll(s[..|s| - 1]);
    }
  }

  /** The number a digit run denotes, underscores ignored. */
  function DigitRunValue(s: string): nat
  {
    if s == [] then 0
    else if IsDigit(s[|s| - 1]) then 10 * DigitRunValue(s[..|s| - 1]) + DigitValue(s[|s| - 1])
    else DigitRunValue(s[..|s| - 1])
  }

  /**
   * Python's `int(s)` on a string without surrounding whitespace: an optional
   * sign and then a digit run of at most `MaxStrDigits` digits; anything else
   * raises `ValueError` (None here). Whatever it accepts holds only digits,
   * underscores and a leading sign.
   */
  function ParseInt(s: string): (r: Option<int>)
    ensures r.Some? ==> s != []
    ensures r.Some? ==> forall k | 0 <= k < |s| :: IsDigit(s[k]) || s[k] == '_' || (k == 0 && s[k] in "+-")
    ensures var body := if |s| > 0 && s[0] in "+-" then s[1..] else s;
      r.Some? <==> IsDigitRun(body) && DigitCount(body) <= MaxStrDigits
    ensures r.Some? && s[0] == '-' ==> r.value <= 0
    ensures r.Some? && s[0] != '-' ==> r.value >= 0
  {
    var signed := |s| > 0 && (s[0] == '+' || s[0] == '-');
    var body := if signed then s[1..] else s;
    var magnitude: int := DigitRunValue(body);
    if !IsDigitRun(body) || DigitCount(body) > MaxStrDigits then None
    else if signed && s[0] == '-' then Some(-magnitude)
    else Some(magnitude)
  }

  lemma {:induction false} NatDigitsValue(n: nat)
    ensures DigitRunValue(NatDigits(n)) == n
  {
    var s := NatDigits(n);
    if n >= 10 {
      NatDigitsValue(n / 10);
      assert s[..|s| - 1] == NatDigits(n / 10);
    }
  }

  /** The decimal digits of `n` form a digit run that `int()` reads as `n`. */
  lemma NatDigitsParse(n: nat)
    ensures IsDigitRun(NatDigits(n)) && DigitRunValue(NatDigits(n)) == n
  {
    NatDigitsValue(n);
  }

  /**
   * A digit run within the digit limit parses to its value, unsigned or
   * after `+`, and after `-` to its negation.
   */
  lemma ParseDigitRun(body: string)
    requires IsDigitRun(body) && DigitCount(body) <= MaxStrDigits
    ensures ParseInt(body) == Some(DigitRunValue(body))
    ensures ParseInt("+" + body) == Some(DigitRunValue(body))
    ensures var v: int := DigitRunValue(body); ParseInt("-" + body) == Some(-v)
  {
    assert body[0] != '+' && body[0] != '-';
    ParseSignedRun('+', body);
    assert "+" + body == ['+'] + body;
    ParseSignedRun('-', body);
    assert "-" + body == ['-'] + body;
  }

  lemma ParseSignedRun(sign: char, body: string)
    requires sign == '+' || sign == '-'
    requires IsDigitRun(body) && DigitCount(body) <= MaxStrDigits
    ensures var v: int := DigitRunValue(body); ParseInt([sign] + body) == Some(if sign == '-' then -v else v)
  {
    var s := [sign] + body;
    assert s[0] == sign;
    assert s[1..] == body;
  }

  /** A digit run longer than the limit is refused, with or without a sign. */
  lemma TooManyDigits(body: string)
    requires IsDigitRun(body) && DigitCount(body) > MaxStrDigits
    ensures ParseInt(body) == None
    ensures ParseInt("+" + body) == None && ParseInt("-" + body) == None
  {
    assert ("+" + body)[1..] == body;
    assert ("-" + body)[1..] == body;
  }

  /**
   * What `int()` refuses: nothing, a bare sign, an underscore at either end,
   * two underscores in a row, and a second sign.
   */
  lemma ParseIntRejects()
    ensures ParseInt("") == None
    ensures ParseInt("+") == None && ParseInt("-") == None
    ensures ParseInt("_1") == None && ParseInt("1_") == None
    ensures ParseInt("1__0") == None
    ensures ParseInt("+-1") == None
  {
  }

  /**
   * `int(str(n)) == n`: the decimal form of an integer parses back to it,
   * for every integer `str()` itself accepts (at most `MaxStrDigits` digits).
   */
  lemma IntToStringRoundTrip(n: int)
    requires |NatDigits(if n < 0 then -n else n)| <= MaxStrDigits
    ensures ParseInt(IntToString(n)) == Some(n)
  {
    var m := if n < 0 then -n else n;
    NatDigitsParse(m);
    DigitCountAll(NatDigits(m));
    ParseDigitRun(NatDigits(m));
  }

  /** A lower-case hexadecimal digit, as Python writes them in escapes. */
  function HexDigit(d: nat): (c: char)
    requires d < 16
    ensures '0' <= c <= '9' || 'a' <= c <= 'f'
  {
    if d < 10 then (48 + d) as char else (87 + d) as char
  }

  /** All characters of `s` are printable ASCII (space to tilde). */
  predicate PrintableAscii(s: string)
  {
    forall k | 0 <= k < |s| :: ' ' <= s[k] <= '~'
  }

  /** Joining printable ASCII parts with a printable ASCII separator gives printable ASCII. */
  lemma {:induction false} JoinPrintable(sep: string, parts: seq<string>)
    requires PrintableAscii(sep)
    requires forall i | 0 <= i < |parts| :: PrintableAscii(parts[i])
    ensures PrintableAscii(Join(sep, parts))
  {
    if |parts| > 1 {
      JoinPrintable(sep, parts[1..]);
    }
  }

  /** One character of a string as Python's `repr()` writes it between the quotes `q`. */
  function ReprChar(c: char, q: char): string
  {
    if c == q || c == '\\' then ['\\', c]
    else if c == '\t' then "\\t"
    else if c == '\n' then "\\n"
    else if c == '\r' then "\\r"
    else if c < ' ' || c == '\U{7f}' then ['\\', 'x', HexDigit(c as int / 16), HexDigit(c as int % 16)]
    else [c]
  }

  function ReprBody(s: string, q: char): string
  {
    if s == [] then "" else ReprChar(s[0], q) + ReprBody(s[1..], q)
  }

  /**
   * Python's `repr()` of a string: single quotes unless the string holds a
   * single quote and no double quote, with backslash escapes inside.
   */
  function ReprString(s: string): (r: string)
    ensures |r| >= 2 && (r[0] == '\'' || r[0] == '"') && r[|r| - 1] == r[0]
  {
    var q := if '\'' in s && '"' !in s then '"' else '\'';
    [q] + ReprBody(s, q) + [q]
  }
}
