/** JSON values as Python's `json` module produces and consumes them, with
    Python's truthiness and the string encoding of `json.dumps`. */
module Json {
  import opened Wrappers

  /** A decoded JSON value. Numbers are integers; an object keeps its members
      in document order. */
  datatype Json =
    | JNull
    | JBool(b: bool)
    | JNum(n: int)
    | JStr(s: string)
    | JArr(items: seq<Json>)
    | JObj(members: seq<(string, Json)>)

  /** Python's `bool(v)` for a decoded JSON value. */
  predicate Truthy(v: Json) {
    match v
    case JNull => false
    case JBool(b) => b
    case JNum(n) => n != 0
    case JStr(s) => s != ""
    case JArr(items) => items != []
    case JObj(members) => members != []
  }

  function HexDigit(d: nat): (c: char)
    requires d < 16
    ensures '0' <= c <= '9' || 'a' <= c <= 'f'
  {
    if d < 10 then ('0' as int + d) as char else ('a' as int + d - 10) as char
  }

  /** `\uXXXX` with four lower-case hex digits, as Python's encoder writes it. */
  function UnicodeEscape(n: nat): (r: string)
    requires n < 0x1_0000
    ensures |r| == 6 && r[..2] == "\\u"
    ensures PrintableAscii(r)
  {
    var r3 := n % 4096;
    var r2 := r3 % 256;
    "\\u" + [HexDigit(n / 4096), HexDigit(r3 / 256), HexDigit(r2 / 16), HexDigit(r2 % 16)]
  }

  /** The escape `json.dumps` (with its default `ensure_ascii=True`) writes for
      one character of a string. */
  function EscapeChar(c: char): (r: string)
    ensures PrintableAscii(r) && |r| >= 1
  {
    if c == '\\' then "\\\\"
    else if c == '"' then "\\\""
    else if c == '\U{8}' then "\\b"
    else if c == '\U{C}' then "\\f"
    else if c == '\n' then "\\n"
    else if c == '\r' then "\\r"
    else if c == '\t' then "\\t"
    else if ' ' <= c <= '~' then [c]
    else if (c as int) < 0x1_0000 then UnicodeEscape(c as int)
    else
      var n := c as int - 0x1_0000;
      UnicodeEscape(0xD800 + n / 1024) + UnicodeEscape(0xDC00 + n % 1024)
  }

  predicate PrintableAscii(s: string) {
    forall i :: 0 <= i < |s| ==> ' ' <= s[i] <= '~'
  }

  function EscapeString(s: string): (r: string)
    ensures PrintableAscii(r)
    ensures |r| >= |s|
  {
    if s == [] then ""
    else
      var head, tail := EscapeChar(s[0]), EscapeString(s[1..]);
      PrintableConcat(head, tail);
      head + tail
  }

  lemma PrintableConcat(a: string, b: string)
    requires PrintableAscii(a) && PrintableAscii(b)
    ensures PrintableAscii(a + b)
  {
    forall i | 0 <= i < |a + b|
      ensures ' ' <= (a + b)[i] <= '~'
    {
      if i >= |a| {
        assert (a + b)[i] == b[i - |a|];
      }
    }
  }

  /** `json.dumps(s)` for a string `s`: quoted, escaped, pure printable ASCII. */
  function Quote(s: string): (r: string)
    ensures PrintableAscii(r)
    ensures |r| >= |s| + 2 && r[0] == '"' && r[|r| - 1] == '"'
  {
    "\"" + EscapeString(s) + "\""
  }

  /** Every character in the printable ASCII range other than the quote and the
      backslash is written as itself. */
  lemma {:induction false} EscapeStringIdentity(s: string)
    requires PrintableAscii(s)
    requires forall i :: 0 <= i < |s| ==> s[i] != '"' && s[i] != '\\'
    ensures EscapeString(s) == s
  {
    if s != [] {
      assert EscapeChar(s[0]) == [s[0]] by {
        assert s[0] in s;
      }
      EscapeStringIdentity(s[1..]);
      assert s == [s[0]] + s[1..];
    }
  }

  // ------------------------------------------------------------ decoding

  /** The value of a hexadecimal digit, either case. */
  function HexValue(c: char): (v: Option<nat>)
    ensures v.Some? ==> v.value < 16
  {
    if '0' <= c <= '9' then Some(c as int - '0' as int)
    else if 'a' <= c <= 'f' then Some(c as int - 'a' as int + 10)
    else if 'A' <= c <= 'F' then Some(c as int - 'A' as int + 10)
    else None
  }

  lemma HexValueDigit(d: nat)
    requires d < 16
    ensures HexValue(HexDigit(d)) == Some(d)
  {
  }

  /** The number written by four hexadecimal digits. */
  function Hex4(s: string): (v: Option<nat>)
    requires |s| == 4
    ensures v.Some? ==> v.value < 0x1_0000
  {
    match (HexValue(s[0]), HexValue(s[1]), HexValue(s[2]), HexValue(s[3]))
    case (Some(a), Some(b), Some(c), Some(d)) => Some(a * 4096 + b * 256 + c * 16 + d)
    case _ => None
  }

  lemma Hex4Escape(n: nat)
    requires n < 0x1_0000
    ensures Hex4(UnicodeEscape(n)[2..6]) == Some(n)
  {
    var r3 := n % 4096;
    var r2 := r3 % 256;
    HexValueDigit(n / 4096);
    HexValueDigit(r3 / 256);
    HexValueDigit(r2 / 16);
    HexValueDigit(r2 % 16);
  }

  /** The character of a surrogate pair. */
  function Combine(hi: nat, lo: nat): (c: char)
    requires 0xD800 <= hi < 0xDC00 && 0xDC00 <= lo < 0xE000
  {
    (0x1_0000 + (hi - 0xD800) * 1024 + (lo - 0xDC00)) as char
  }

  /** Reads the inside of a JSON string literal back, the partner of
      EscapeString: `None` for text no JSON encoder writes (a bare quote,
      an unknown escape, a lone surrogate). */
  function Unescape(s: string): Option<string>
    decreases |s|
  {
    if s == [] then Some("")
    else if s[0] == '"' then None
    else if s[0] != '\\' then Prepend(s[0], Unescape(s[1..]))
    else if |s| < 2 then None
    else if s[1] == '\\' || s[1] == '"' || s[1] == '/' then Prepend(s[1], Unescape(s[2..]))
    else if s[1] == 'b' then Prepend('\U{8}', Unescape(s[2..]))
    else if s[1] == 'f' then Prepend('\U{C}', Unescape(s[2..]))
    else if s[1] == 'n' then Prepend('\n', Unescape(s[2..]))
    else if s[1] == 'r' then Prepend('\r', Unescape(s[2..]))
    else if s[1] == 't' then Prepend('\t', Unescape(s[2..]))
    else if s[1] != 'u' || |s| < 6 then None
    else
      match Hex4(s[2..6])
      case None => None
      case Some(n) =>
        if n < 0xD800 || 0xE000 <= n then Prepend(n as char, Unescape(s[6..]))
        else if 0xDC00 <= n || |s| < 12 || s[6..8] != "\\u" then None
        else
          match Hex4(s[8..12])
          case Some(m) => if 0xDC00 <= m < 0xE000 then Prepend(Combine(n, m), Unescape(s[12..])) else None
          case None => None
  }

  function Prepend(c: char, rest: Option<string>): Option<string> {
    if rest.Some? then Some([c] + rest.value) else None
  }

  /** `json.loads` of a string literal. */
  function Unquote(q: string): Option<string> {
    if |q| >= 2 && q[0] == '"' && q[|q| - 1] == '"' then Unescape(q[1..|q| - 1]) else None
  }

  /** Decoding one escaped character consumes exactly its escape. */
  lemma UnescapeChar(c: char, rest: string)
    ensures Unescape(EscapeChar(c) + rest) == Prepend(c, Unescape(rest))
  {
    if c == '\\' || c == '"' || c == '\U{8}' || c == '\U{C}' || c == '\n' || c == '\r' || c == '\t' {
      UnescapeShort(c, rest);
    } else if ' ' <= c <= '~' {
      var s := EscapeChar(c) + rest;
      assert s[1..] == rest;
    } else if (c as int) < 0x1_0000 {
      UnescapeBasic(c, rest);
    } else {
      UnescapeAstral(c, rest);
    }
  }

  lemma UnescapeShort(c: char, rest: string)
    requires c == '\\' || c == '"' || c == '\U{8}' || c == '\U{C}' || c == '\n' || c == '\r' || c == '\t'
    ensures Unescape(EscapeChar(c) + rest) == Prepend(c, Unescape(rest))
  {
    var s := EscapeChar(c) + rest;
    assert |EscapeChar(c)| == 2 && s[2..] == rest;
  }

  lemma UnescapeBasic(c: char, rest: string)
    requires !(' ' <= c <= '~') && c != '\U{8}' && c != '\U{C}' && c != '\n' && c != '\r' && c != '\t'
    requires (c as int) < 0x1_0000
    ensures Unescape(EscapeChar(c) + rest) == Prepend(c, Unescape(rest))
  {
    var e := UnicodeEscape(c as int);
    assert EscapeChar(c) == e;
    var s := e + rest;
    Hex4Escape(c as int);
    assert s[0] == '\\' && s[1] == 'u' && s[2..6] == e[2..6] && s[6..] == rest;
  }

  lemma UnescapeAstral(c: char, rest: string)
    requires 0x1_0000 <= (c as int)
    ensures Unescape(EscapeChar(c) + rest) == Prepend(c, Unescape(rest))
  {
    var n := c as int - 0x1_0000;
    var hi, lo := 0xD800 + n / 1024, 0xDC00 + n % 1024;
    var e1, e2 := UnicodeEscape(hi), UnicodeEscape(lo);
    assert EscapeChar(c) == e1 + e2;
    var s := e1 + e2 + rest;
    Hex4Escape(hi);
    Hex4Escape(lo);
    EscapePairSlices(e1, e2, rest);
    UnescapePair(s, hi, lo);
    CombineSplit(c);
  }

  /** Where the two escapes of a surrogate pair sit in the text. */
  lemma EscapePairSlices(e1: string, e2: string, rest: string)
    requires |e1| == 6 && |e2| == 6
    ensures var s := e1 + e2 + rest;
      && s[0] == e1[0] && s[1] == e1[1] && s[2..6] == e1[2..6]
      && s[6..8] == e2[..2] && s[8..12] == e2[2..6] && s[12..] == rest
  {
    var s := e1 + e2 + rest;
    assert s[6..8] == e2[..2];
  }

  lemma CombineSplit(c: char)
    requires 0x1_0000 <= (c as int)
    ensures var n := c as int - 0x1_0000;
      0xD800 + n / 1024 < 0xDC00 && Combine(0xD800 + n / 1024, 0xDC00 + n % 1024) == c
  {
    var n := c as int - 0x1_0000;
    assert n == n / 1024 * 1024 + n % 1024;
    assert n < 0x10_0000;
  }

  /** A high surrogate escape followed by a low one decodes to one character. */
  lemma UnescapePair(s: string, hi: nat, lo: nat)
    requires |s| >= 12 && s[0] == '\\' && s[1] == 'u' && s[6..8] == "\\u"
    requires 0xD800 <= hi < 0xDC00 && 0xDC00 <= lo < 0xE000
    requires Hex4(s[2..6]) == Some(hi) && Hex4(s[8..12]) == Some(lo)
    ensures Unescape(s) == Prepend(Combine(hi, lo), Unescape(s[12..]))
  {
  }

  /** `json.loads(json.dumps(s)) == s` for every string. */
  lemma {:induction false} UnescapeRoundTrip(s: string)
    ensures Unescape(EscapeString(s)) == Some(s)
  {
    if s != [] {
      UnescapeChar(s[0], EscapeString(s[1..]));
      UnescapeRoundTrip(s[1..]);
      assert s == [s[0]] + s[1..];
    }
  }

  lemma UnquoteRoundTrip(s: string)
    ensures Unquote(Quote(s)) == Some(s)
  {
    var q := Quote(s);
    assert q[1..|q| - 1] == EscapeString(s);
    UnescapeRoundTrip(s);
  }
}
