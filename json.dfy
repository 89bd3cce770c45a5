/**
 * JSON values as `json.load` returns them, `json.dumps` with its default
 * settings (ASCII-only output, `", "` and `": "` separators), and the text
 * Python's f-strings produce for a loaded value (`str()`, which is `repr()`
 * for everything but a string).
 */
module Json {
  import opened Wrappers
  import opened Text

  /** A loaded JSON value. Objects keep their members in document order. */
  datatype Json =
    | JNull
    | JBool(b: bool)
    | JInt(i: int)
    | JStr(s: string)
    | JArray(items: seq<Json>)
    | JObject(members: seq<(string, Json)>)

  /** `d.get(name)` on a loaded object: the value of the member called `name`, if there is one. */
  function Get(members: seq<(string, Json)>, name: string): (r: Option<Json>)
    ensures r.None? <==> forall i | 0 <= i < |members| :: members[i].0 != name
    ensures r.Some? ==> exists i | 0 <= i < |members| :: members[i] == (name, r.value)
  {
    if members == [] then None
    else if members[0].0 == name then Some(members[0].1)
    else
      var r := Get(members[1..], name);
      assert r.Some? ==> exists i | 0 <= i < |members| :: members[i] == (name, r.value) by {
        if r.Some? {
          var i :| 0 <= i < |members| - 1 && members[1..][i] == (name, r.value);
          assert members[i + 1] == (name, r.value);
        }
      }
      r
  }

  /**
   * The members of a loaded object have distinct names, as the keys of a
   * Python dict do (`json.load` keeps the last of repeated names).
   */
  predicate DistinctNames(members: seq<(string, Json)>)
  {
    forall i, j | 0 <= i < j < |members| :: members[i].0 != members[j].0
  }

  /** Among distinct names, `Get` finds the value of the one member called `name`. */
  lemma GetDistinct(members: seq<(string, Json)>, i: nat)
    requires DistinctNames(members) && i < |members|
    ensures Get(members, members[i].0) == Some(members[i].1)
  {
    var r := Get(members, members[i].0);
    var j :| 0 <= j < |members| && members[j] == (members[i].0, r.value);
    assert i == j;
  }

  /** Four lower-case hexadecimal digits of `n`, as in `'\\u{0:04x}'.format(n)`. */
  function Hex4(n: nat): (r: string)
    requires n < 0x10000
    ensures |r| == 4 && PrintableAscii(r)
  {
    [HexDigit(n / 0x1000), HexDigit(n / 0x100 % 16), HexDigit(n / 16 % 16), HexDigit(n % 16)]
  }

  /**
   * One character as `json.dumps` writes it inside a string: the short
   * escapes, printable ASCII as itself, everything else as `\uXXXX`, with a
   * surrogate pair above the Basic Multilingual Plane.
   */
  function EscapeChar(c: char): (r: string)
    ensures PrintableAscii(r)
  {
    if c == '"' then "\\\""
    else if c == '\\' then "\\\\"
    else if c == '\n' then "\\n"
    else if c == '\r' then "\\r"
    else if c == '\t' then "\\t"
    else if c == '\U{8}' then "\\b"
    else if c == '\U{c}' then "\\f"
    else if ' ' <= c <= '~' then [c]
    else if c as int < 0x10000 then "\\u" + Hex4(c as int)
    else
      var n := c as int - 0x10000;
      "\\u" + Hex4(0xd800 + n / 0x400) + "\\u" + Hex4(0xdc00 + n % 0x400)
  }

  function EscapeBody(s: string): (r: string)
    ensures PrintableAscii(r)
  {
    if s == [] then "" else EscapeChar(s[0]) + EscapeBody(s[1..])
  }

  /** A string as `json.dumps` writes it: quoted and escaped. */
  function Quote(s: string): (r: string)
    ensures PrintableAscii(r)
    ensures |r| >= 2 && r[0] == '"' && r[|r| - 1] == '"'
  {
    "\"" + EscapeBody(s) + "\""
  }

  /**
   * `json.dumps(v)`. Whatever the value, the text is printable ASCII, so a
   * dumped entry never breaks the one-line-per-event log format.
   */
  function Dumps(v: Json): (r: string)
    ensures PrintableAscii(r)
    ensures r != []
    decreases v
  {
    match v
    case JNull => "null"
    case JBool(b) => if b then "true" else "false"
    case JInt(i) => IntToString(i)
    case JStr(s) => Quote(s)
    case JArray(items) =>
      var parts := seq(|items|, k requires 0 <= k < |items| => Dumps(items[k]));
      JoinPrintable(", ", parts);
      "[" + Join(", ", parts) + "]"
    case JObject(members) =>
      var parts := seq(|members|, k requires 0 <= k < |members| => Quote(members[k].0) + ": " + Dumps(members[k].1));
      JoinPrintable(", ", parts);
      "{" + Join(", ", parts) + "}"
  }

  /** `json.dumps({})` is `"{}"`. */
  lemma DumpsEmptyObject()
    ensures Dumps(JObject([])) == "{}"
  {
  }

  /**
   * `repr()` of a loaded value. Its first character tells a list, a dict
   * and a string apart from each other and from the other values, and a
   * list or dict is closed by its matching bracket.
   */
  function Repr(v: Json): (r: string)
    ensures r != []
    ensures r[0] == '[' <==> v.JArray?
    ensures r[0] == '{' <==> v.JObject?
    ensures r[0] == '\'' || r[0] == '"' <==> v.JStr?
    ensures v.JArray? ==> r[|r| - 1] == ']'
    ensures v.JObject? ==> r[|r| - 1] == '}'
    decreases v
  {
    match v
    case JNull => assert "None"[0] == 'N'; "None"
    case JBool(b) =>
      assert "True"[0] == 'T' && "False"[0] == 'F';
      if b then "True" else "False"
    case JInt(i) =>
      var t := IntToString(i);
      assert IsDigit(t[0]) || t[0] == '-';
      t
    case JStr(s) => ReprString(s)
    case JArray(items) =>
      "[" + Join(", ", seq(|items|, k requires 0 <= k < |items| => Repr(items[k]))) + "]"
    case JObject(members) =>
      "{" + Join(", ", seq(|members|, k requires 0 <= k < |members| => ReprString(members[k].0) + ": " + Repr(members[k].1))) + "}"
  }

  /**
   * `str()` of a loaded value, which is what `f"{v}"` inserts: a string as
   * it is, anything else as its `repr()`, which never starts with a quote.
   */
  function Str(v: Json): (r: string)
    ensures v.JStr? ==> r == v.s
    ensures !v.JStr? ==> r == Repr(v) && r != [] && r[0] != '\'' && r[0] != '"'
  {
    if v.JStr? then v.s else Repr(v)
  }
}
