/**
 * The values `JSON.parse` hands to the submit handler, the text `String(v)`
 * gives for a scalar, and the text `JSON.stringify(v, null, 2)` gives for any
 * value (the preformatted back face of a card).
 */
module JsonValue {

  datatype Option<T> = None | Some(value: T)

  /**
   * A JavaScript number as `JSON.parse` can produce it. A finite number is kept
   * abstract as the text JavaScript's Number-to-String conversion gives for it
   * (the same text `String(n)` and `JSON.stringify(n)` print). A literal too
   * large for a double (say `1e400`) parses to an infinity.
   */
  datatype Number = Finite(text: string) | Infinite(negative: bool)

  /** A parsed JSON value. An object holds its members in the order the runtime enumerates them. */
  datatype Json =
    | JNull
    | JBool(b: bool)
    | JNum(n: Number)
    | JStr(s: string)
    | JArray(elems: seq<Json>)
    | JObject(members: seq<Member>)

  datatype Member = Member(key: string, value: Json)

  /** `value !== null && typeof value === 'object'`: arrays and objects. */
  predicate IsStructured(j: Json) {
    j.JArray? || j.JObject?
  }

  /** `String(v)` for a scalar or null. */
  function ToText(j: Json): (t: string)
    requires !IsStructured(j)
    ensures j.JNull? ==> t == "null"
    ensures j.JStr? ==> t == j.s
    ensures j.JBool? ==> (t == "true" <==> j.b) && (t == "false" <==> !j.b)
  {
    match j
    case JNull => "null"
    case JBool(b) => if b then "true" else "false"
    case JNum(n) =>
      if n.Finite? then n.text else if n.negative then "-Infinity" else "Infinity"
    case JStr(s) => s
  }

  // ---------------------------------------------------------------------------
  // String literals, as QuoteJSONString writes them and as a JSON reader reads them
  // ---------------------------------------------------------------------------

  function HexDigit(d: nat): (c: char)
    requires d < 16
  {
    if d < 10 then ('0' as int + d) as char else ('a' as int + d - 10) as char
  }

  predicate IsHexDigit(c: char) {
    ('0' <= c <= '9') || ('a' <= c <= 'f') || ('A' <= c <= 'F')
  }

  function HexDigitValue(c: char): (d: nat)
    requires IsHexDigit(c)
    ensures d < 16
  {
    if '0' <= c <= '9' then c as int - '0' as int
    else if 'a' <= c <= 'f' then c as int - 'a' as int + 10
    else c as int - 'A' as int + 10
  }

  /** How one character appears inside a JSON string literal written by `JSON.stringify`. */
  function EscapeChar(c: char): string {
    if c == '"' then "\\\""
    else if c == '\\' then "\\\\"
    else if c as int == 0x08 then "\\b"
    else if c == '\t' then "\\t"
    else if c == '\n' then "\\n"
    else if c as int == 0x0C then "\\f"
    else if c == '\r' then "\\r"
    else if c as int < 0x20 then "\\u00" + [HexDigit(c as int / 16), HexDigit(c as int % 16)]
    else [c]
  }

  /**
   * The body of a serialised string: at least as long as the input, and with
   * no raw control character or unescaped quote left in it, as RFC 8259,
   * section 7, requires.
   */
  function Escape(s: string): (r: string)
    ensures |r| >= |s|
    ensures forall i :: 0 <= i < |r| ==> r[i] as int >= 0x20
    ensures forall i :: 0 <= i < |r| && r[i] == '"' ==> i > 0 && r[i - 1] == '\\'
  {
    if s == [] then [] else EscapeChar(s[0]) + Escape(s[1..])
  }

  /** `JSON.stringify` of a string: the escaped text between double quotes. */
  function Quote(s: string): (t: string)
    ensures |t| >= 2 && t[0] == '"' && t[|t| - 1] == '"'
  {
    "\"" + Escape(s) + "\""
  }

  /** The character a two-character escape `\e` stands for, if `e` is one. */
  function SimpleEscape(e: char): Option<char> {
    if e == '"' then Some('"')
    else if e == '\\' then Some('\\')
    else if e == '/' then Some('/')
    else if e == 'b' then Some(0x08 as char)
    else if e == 'f' then Some(0x0C as char)
    else if e == 'n' then Some('\n')
    else if e == 'r' then Some('\r')
    else if e == 't' then Some('\t')
    else None
  }

  function Prepend(c: char, r: Option<string>): Option<string> {
    match r
    case None => None
    case Some(s) => Some([c] + s)
  }

  /**
   * Reads the body of a JSON string literal (RFC 8259, section 7): escapes are
   * decoded, a raw quote or control character is an error. Every `\u` escape
   * naming a surrogate code unit is rejected, a valid pair included, since a
   * single escape has no `char`; `Escape` never writes one, so the round trip
   * below is unaffected.
   */
  function Unescape(t: string): Option<string>
    decreases |t|
  {
    if t == [] then Some([])
    else if t[0] == '\\' then
      if |t| < 2 then None
      else if t[1] == 'u' then
        if |t| < 6 || !(IsHexDigit(t[2]) && IsHexDigit(t[3]) && IsHexDigit(t[4]) && IsHexDigit(t[5])) then None
        else
          var v := HexDigitValue(t[2]) * 4096 + HexDigitValue(t[3]) * 256
                   + HexDigitValue(t[4]) * 16 + HexDigitValue(t[5]);
          if 0xD800 <= v < 0xE000 then None else Prepend(v as char, Unescape(t[6..]))
      else
        match SimpleEscape(t[1])
        case None => None
        case Some(c) => Prepend(c, Unescape(t[2..]))
    else if t[0] == '"' || t[0] as int < 0x20 then None
    else Prepend(t[0], Unescape(t[1..]))
  }

  /** Reads a complete JSON string literal, quotes included. */
  function ParseStringLiteral(t: string): Option<string> {
    if |t| >= 2 && t[0] == '"' && t[|t| - 1] == '"' then Unescape(t[1..|t| - 1]) else None
  }

  lemma UnescapeEscapeChar(c: char, rest: string)
    ensures Unescape(EscapeChar(c) + rest) == Prepend(c, Unescape(rest))
  {
    var t := EscapeChar(c) + rest;
    if c as int < 0x20 && c != '\t' && c != '\n' && c != '\r' && c as int != 0x08 && c as int != 0x0C {
      var n := c as int;
      assert t[0] == '\\' && t[1] == 'u' && t[2] == '0' && t[3] == '0';
      assert t[4] == HexDigit(n / 16) && t[5] == HexDigit(n % 16);
      assert HexDigitValue(t[4]) == n / 16 && HexDigitValue(t[5]) == n % 16;
      assert t[6..] == rest;
    } else if |EscapeChar(c)| == 2 {
      assert t[2..] == rest;
    } else {
      assert t[1..] == rest;
    }
  }

  /** Reading back an escaped string gives the original string. */
  lemma {:induction false} UnescapeEscape(s: string)
    ensures Unescape(Escape(s)) == Some(s)
  {
    if s != [] {
      var rest := Escape(s[1..]);
      assert Escape(s) == EscapeChar(s[0]) + rest;
      UnescapeEscape(s[1..]);
      UnescapeEscapeChar(s[0], rest);
      assert [s[0]] + s[1..] == s;
    }
  }

  /** A string serialised by `JSON.stringify` reads back as the same string. */
  lemma QuoteRoundTrip(s: string)
    ensures ParseStringLiteral(Quote(s)) == Some(s)
  {
    var t := Quote(s);
    assert t[1..|t| - 1] == Escape(s);
    UnescapeEscape(s);
  }

  // ---------------------------------------------------------------------------
  // JSON.stringify(value, null, 2)
  // ---------------------------------------------------------------------------

  function Join(parts: seq<string>, sep: string): string {
    if |parts| == 0 then ""
    else if |parts| == 1 then parts[0]
    else parts[0] + sep + Join(parts[1..], sep)
  }

  /**
   * `JSON.stringify(j, null, 2)` for a value nested at `indent` (the
   * indentation of the line the value starts on). An empty array or object is
   * `[]` or `{}`; otherwise every element or member stands on a line of its
   * own, two spaces deeper, and the closing bracket returns to `indent`. An
   * infinite number serialises as `null`.
   */
  function Stringify(j: Json, indent: string): (t: string)
    ensures |t| >= 2 || j.JNum?
    ensures j.JStr? ==> ParseStringLiteral(t) == Some(j.s)
    ensures j.JNull? || (j.JNum? && j.n.Infinite?) ==> t == "null"
    ensures IsStructured(j) ==>
      && t[0] == (if j.JArray? then '[' else '{')
      && t[|t| - 1] == (if j.JArray? then ']' else '}')
      && (t[1] == '\n' <==> (if j.JArray? then j.elems != [] else j.members != []))
    decreases j
  {
    match j
    case JNull => "null"
    case JBool(b) => if b then "true" else "false"
    case JNum(n) => if n.Finite? then n.text else "null"
    case JStr(s) => QuoteRoundTrip(s); Quote(s)
    case JArray(elems) =>
      if elems == [] then "[]"
      else
        var inner := indent + "  ";
        var parts := seq(|elems|, i requires 0 <= i < |elems| => Stringify(elems[i], inner));
        "[\n" + inner + Join(parts, ",\n" + inner) + "\n" + indent + "]"
    case JObject(members) =>
      if members == [] then "{}"
      else
        var inner := indent + "  ";
        var parts := seq(|members|, i requires 0 <= i < |members| =>
                           Quote(members[i].key) + ": " + Stringify(members[i].value, inner));
        "{\n" + inner + Join(parts, ",\n" + inner) + "\n" + indent + "}"
  }
}
