/** Escaping of outgoing text for the chat platform: HTML entities, and the
    MarkdownV2 style of the Telegram Bot API ("Formatting options"). The
    Markdown-to-HTML converter is not part of this module. */
module Formatters {
  import opened Wrappers

  // ---------------------------------------------------------------- HTML

  /** The entity Python's `html.escape(s, quote=True)` writes for one character. */
  function HtmlEntity(c: char): string {
    if c == '&' then "&amp;"
    else if c == '<' then "&lt;"
    else if c == '>' then "&gt;"
    else if c == '"' then "&quot;"
    else if c == '\'' then "&#x27;"
    else [c]
  }

  predicate HtmlSpecial(c: char) {
    c == '&' || c == '<' || c == '>' || c == '"' || c == '\''
  }

  function HtmlEscape(s: string): (r: string)
    ensures |r| >= |s|
    ensures forall i :: 0 <= i < |r| ==> r[i] != '<' && r[i] != '>' && r[i] != '"' && r[i] != '\''
  {
    if s == [] then "" else HtmlEntity(s[0]) + HtmlEscape(s[1..])
  }

  /** `escape_html`: falsy input (None or "") gives "", anything else is
      entity-escaped. */
  function EscapeHtml(text: Option<string>): (r: string)
    ensures text.None? ==> r == ""
    ensures text.Some? ==> |r| >= |text.value| && (r == "" <==> text.value == "")
    ensures text.Some? && text.value != "" ==> r == HtmlEscape(text.value)
    ensures text.Some? ==> HtmlUnescape(r) == text.value
  {
    match text
    case None => ""
    case Some(s) =>
      HtmlRoundTrip(s);
      if s == "" then "" else HtmlEscape(s)
  }

  /** Escaping works character by character: the escape of a concatenation
      is the concatenation of the escapes. With `HtmlEscape([c]) ==
      HtmlEntity(c)` this fixes the output for every input. */
  lemma {:induction false} HtmlEscapeAppend(a: string, b: string)
    ensures HtmlEscape(a + b) == HtmlEscape(a) + HtmlEscape(b)
  {
    if a == [] {
      assert a + b == b;
    } else {
      assert (a + b)[0] == a[0] && (a + b)[1..] == a[1..] + b;
      HtmlEscapeAppend(a[1..], b);
    }
  }

  lemma HtmlEscapeChar(c: char)
    ensures HtmlEscape([c]) == HtmlEntity(c)
  {
    assert [c][1..] == [];
  }

  /** Reads the five entities back; the partner of HtmlEscape. */
  function HtmlUnescape(s: string): string
  {
    if s == [] then ""
    else if |s| >= 5 && s[..5] == "&amp;" then "&" + HtmlUnescape(s[5..])
    else if |s| >= 4 && s[..4] == "&lt;" then "<" + HtmlUnescape(s[4..])
    else if |s| >= 4 && s[..4] == "&gt;" then ">" + HtmlUnescape(s[4..])
    else if |s| >= 6 && s[..6] == "&quot;" then "\"" + HtmlUnescape(s[6..])
    else if |s| >= 6 && s[..6] == "&#x27;" then "'" + HtmlUnescape(s[6..])
    else [s[0]] + HtmlUnescape(s[1..])
  }

  lemma {:induction false} HtmlRoundTrip(s: string)
    ensures HtmlUnescape(HtmlEscape(s)) == s
  {
    if s != [] {
      assert HtmlEscape(s) == HtmlEntity(s[0]) + HtmlEscape(s[1..]);
      HtmlUnescapeEntity(s[0], HtmlEscape(s[1..]));
      HtmlRoundTrip(s[1..]);
    }
  }

  lemma HtmlUnescapeEntity(c: char, rest: string)
    ensures HtmlUnescape(HtmlEntity(c) + rest) == [c] + HtmlUnescape(rest)
  {
    if c == '&' {
      UnescapeAmp(rest);
    } else if HtmlSpecial(c) {
      UnescapeNamed(c, rest);
    } else {
      UnescapePlain(c, rest);
    }
  }

  /** A character that starts no entity is read back as itself. */
  lemma UnescapePlain(c: char, rest: string)
    requires c != '&'
    ensures HtmlUnescape([c] + rest) == [c] + HtmlUnescape(rest)
  {
    var e := [c] + rest;
    assert e[1..] == rest;
    assert |e| >= 4 ==> e[..4][0] == c;
    assert |e| >= 5 ==> e[..5][0] == c;
    assert |e| >= 6 ==> e[..6][0] == c;
  }

  lemma UnescapeAmp(rest: string)
    ensures HtmlUnescape("&amp;" + rest) == "&" + HtmlUnescape(rest)
  {
    var e := "&amp;" + rest;
    assert e[..5] == "&amp;" && e[5..] == rest;
  }

  lemma UnescapeNamed(c: char, rest: string)
    requires HtmlSpecial(c) && c != '&'
    ensures HtmlUnescape(HtmlEntity(c) + rest) == [c] + HtmlUnescape(rest)
  {
    var ent := HtmlEntity(c);
    var e := ent + rest;
    var n := |ent|;
    assert e[..n] == ent && e[n..] == rest;
    assert e[1] == ent[1] != 'a';
    assert |e| >= 5 ==> e[..5] != "&amp;" by {
      if |e| >= 5 { assert e[..5][1] == e[1]; }
    }
    if c == '>' {
      assert e[..4][1] == e[1];
    } else if c == '"' || c == '\'' {
      assert e[..4][1] == e[1];
      assert e[..4] != "&lt;" && e[..4] != "&gt;";
      if c == '\'' {
        assert e[..6][1] == e[1];
      }
    }
  }

  /** Every ampersand of the output opens one of the five entities. */
  lemma {:induction false} HtmlAmpersandsOpenEntities(s: string, i: nat)
    requires i < |HtmlEscape(s)| && HtmlEscape(s)[i] == '&'
    ensures exists k :: 0 <= k < |s| && HtmlSpecial(s[k])
  {
    var head := HtmlEntity(s[0]);
    if HtmlSpecial(s[0]) {
    } else {
      assert head == [s[0]];
      assert HtmlEscape(s) == head + HtmlEscape(s[1..]);
      HtmlAmpersandsOpenEntities(s[1..], i - 1);
      var k :| 0 <= k < |s[1..]| && HtmlSpecial(s[1..][k]);
      assert HtmlSpecial(s[k + 1]);
    }
  }

  // ---------------------------------------------------------- MarkdownV2

  /** The characters `escape_markdown_v2` prefixes with a backslash. The raw
      character class in the source also holds the backslash itself. */
  predicate MarkdownSpecial(c: char) {
    c in "_\\*[]()~`>#+-=|{}.!"
  }

  function EscapeMarkdownV2(s: string): (r: string)
    ensures |r| == |s| + CountMarkdownSpecial(s)
  {
    if s == [] then ""
    else (if MarkdownSpecial(s[0]) then ['\\', s[0]] else [s[0]]) + EscapeMarkdownV2(s[1..])
  }

  /** Escaping works character by character: the escape of a concatenation
      is the concatenation of the escapes. */
  lemma {:induction false} MarkdownAppend(a: string, b: string)
    ensures EscapeMarkdownV2(a + b) == EscapeMarkdownV2(a) + EscapeMarkdownV2(b)
  {
    if a == [] {
      assert a + b == b;
    } else {
      assert (a + b)[0] == a[0] && (a + b)[1..] == a[1..] + b;
      MarkdownAppend(a[1..], b);
    }
  }

  /** A special character gains a backslash in front; any other stays as it is. */
  lemma MarkdownChar(c: char)
    ensures EscapeMarkdownV2([c]) == if MarkdownSpecial(c) then ['\\', c] else [c]
  {
    assert [c][1..] == [];
  }

  /** Where each input character lands: the `i`-th character of the input is
      preceded in the output by one backslash per earlier special character,
      and a special character is written after a backslash of its own. */
  lemma MarkdownPosition(s: string, i: nat)
    requires i < |s|
    ensures var j := i + CountMarkdownSpecial(s[..i]);
            var r := EscapeMarkdownV2(s);
            if MarkdownSpecial(s[i]) then j + 1 < |r| && r[j] == '\\' && r[j + 1] == s[i]
            else j < |r| && r[j] == s[i]
  {
    assert s == s[..i] + ([s[i]] + s[i + 1..]);
    MarkdownAppend(s[..i], [s[i]] + s[i + 1..]);
    MarkdownAppend([s[i]], s[i + 1..]);
    MarkdownChar(s[i]);
  }

  function CountMarkdownSpecial(s: string): nat {
    if s == [] then 0 else (if MarkdownSpecial(s[0]) then 1 else 0) + CountMarkdownSpecial(s[1..])
  }

  /** Drops the backslash in front of each escaped character: the partner of
      EscapeMarkdownV2. */
  function UnescapeMarkdownV2(s: string): string
  {
    if s == [] then ""
    else if |s| >= 2 && s[0] == '\\' then [s[1]] + UnescapeMarkdownV2(s[2..])
    else [s[0]] + UnescapeMarkdownV2(s[1..])
  }

  lemma {:induction false} MarkdownRoundTrip(s: string)
    ensures UnescapeMarkdownV2(EscapeMarkdownV2(s)) == s
  {
    if s != [] {
      var e := EscapeMarkdownV2(s);
      if MarkdownSpecial(s[0]) {
        assert e == ['\\', s[0]] + EscapeMarkdownV2(s[1..]);
        assert e[2..] == EscapeMarkdownV2(s[1..]);
      } else {
        assert s[0] != '\\';
        assert e == [s[0]] + EscapeMarkdownV2(s[1..]);
        assert e[1..] == EscapeMarkdownV2(s[1..]);
      }
      MarkdownRoundTrip(s[1..]);
    }
  }

  /** Characters outside the set pass through unchanged. */
  lemma {:induction false} MarkdownPlainUnchanged(s: string)
    requires forall i :: 0 <= i < |s| ==> !MarkdownSpecial(s[i])
    ensures EscapeMarkdownV2(s) == s
  {
    if s != [] {
      MarkdownPlainUnchanged(s[1..]);
    }
  }

  /** Every special character of the input is preceded by a backslash in the output,
      so the output holds at least as many specials as the input. */
  lemma {:induction false} EscapedHasMoreSpecials(s: string)
    ensures CountMarkdownSpecial(EscapeMarkdownV2(s)) >= 2 * CountMarkdownSpecial(s)
  {
    if s != [] {
      EscapedHasMoreSpecials(s[1..]);
      var tail := EscapeMarkdownV2(s[1..]);
      if MarkdownSpecial(s[0]) {
        assert EscapeMarkdownV2(s) == ['\\', s[0]] + tail;
        CountAppend(['\\', s[0]], tail);
        assert CountMarkdownSpecial(['\\', s[0]]) == 2;
      } else {
        assert EscapeMarkdownV2(s) == [s[0]] + tail;
        CountAppend([s[0]], tail);
      }
    }
  }

  lemma {:induction false} CountAppend(a: string, b: string)
    ensures CountMarkdownSpecial(a + b) == CountMarkdownSpecial(a) + CountMarkdownSpecial(b)
  {
    if a == [] {
      assert a + b == b;
    } else {
      assert (a + b)[0] == a[0] && (a + b)[1..] == a[1..] + b;
      CountAppend(a[1..], b);
    }
  }

  /** Escaping is not idempotent: a second pass escapes the inserted
      backslashes again, so any text with a special character grows. */
  lemma NotIdempotent(s: string)
    requires CountMarkdownSpecial(s) > 0
    ensures EscapeMarkdownV2(EscapeMarkdownV2(s)) != EscapeMarkdownV2(s)
  {
    EscapedHasMoreSpecials(s);
  }
}
