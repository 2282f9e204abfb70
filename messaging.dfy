/** Sending a long reply: text over MaxMessageLength characters is cut into
    chunks at line boundaries, the first one sent as a reply to the user's
    message and the rest as plain messages. */
module Messaging {

  const MaxMessageLength := 4000

  /** `s.split('\n')`: the text between newlines, always at least one piece. */
  function SplitLines(s: string): (lines: seq<string>)
    ensures |lines| >= 1
    ensures forall k :: 0 <= k < |lines| ==> '\n' !in lines[k]
    decreases |s|
  {
    if s == [] then [""]
    else
      var init := SplitLines(s[..|s| - 1]);
      if s[|s| - 1] == '\n' then init + [""]
      else init[..|init| - 1] + [init[|init| - 1] + [s[|s| - 1]]]
  }

  /** `'\n'.join(lines)`. */
  function JoinLines(lines: seq<string>): string
  {
    if lines == [] then ""
    else if |lines| == 1 then lines[0]
    else JoinLines(lines[..|lines| - 1]) + "\n" + lines[|lines| - 1]
  }

  lemma JoinSnoc(xs: seq<string>, x: string)
    requires xs != []
    ensures JoinLines(xs + [x]) == JoinLines(xs) + "\n" + x
  {
    assert (xs + [x])[..|xs|] == xs;
  }

  lemma JoinExtendLast(xs: seq<string>, y: string, t: string)
    ensures JoinLines(xs + [y + t]) == JoinLines(xs + [y]) + t
  {
    if xs != [] {
      JoinSnoc(xs, y + t);
      JoinSnoc(xs, y);
    }
  }

  /** Splitting and joining again gives back the text. */
  lemma {:induction false} JoinSplitLines(s: string)
    ensures JoinLines(SplitLines(s)) == s
    decreases |s|
  {
    if s != [] {
      var p := s[..|s| - 1];
      JoinSplitLines(p);
      assert s == p + [s[|s| - 1]];
      if s[|s| - 1] == '\n' {
        JoinSplitNewline(p, SplitLines(p));
      } else {
        JoinSplitChar(p, SplitLines(p), s[|s| - 1]);
      }
    }
  }

  lemma JoinSplitNewline(p: string, init: seq<string>)
    requires init == SplitLines(p) && JoinLines(init) == p
    ensures JoinLines(SplitLines(p + "\n")) == p + "\n"
  {
    var s := p + "\n";
    assert s[..|s| - 1] == p;
    assert SplitLines(s) == init + [""];
    JoinSnoc(init, "");
  }

  lemma JoinSplitChar(p: string, init: seq<string>, c: char)
    requires init == SplitLines(p) && JoinLines(init) == p && c != '\n'
    ensures JoinLines(SplitLines(p + [c])) == p + [c]
  {
    var s := p + [c];
    assert s[..|s| - 1] == p;
    var front := init[..|init| - 1];
    assert SplitLines(s) == front + [init[|init| - 1] + [c]];
    JoinExtendLast(front, init[|init| - 1], [c]);
    assert front + [init[|init| - 1]] == init;
  }

  predicate NoEmptyLine(lines: seq<string>) {
    forall k :: 0 <= k < |lines| ==> lines[k] != ""
  }

  /** The chunk loop of `send_long_message`: lines are appended to the current
      chunk while it stays within the limit; a line that does not fit closes
      the chunk and starts the next one, even when that line alone is longer
      than the limit. Empty chunks are never produced. */
  method SplitIntoChunks(text: string) returns (chunks: seq<string>)
    ensures forall k :: 0 <= k < |chunks| ==> chunks[k] != ""
    ensures forall k :: 0 <= k < |chunks| ==>
      |chunks[k]| <= MaxMessageLength || chunks[k] in SplitLines(text)
    ensures NoEmptyLine(SplitLines(text)) ==> JoinLines(chunks) == text
  {
    chunks := ChunkLines(SplitLines(text));
    JoinSplitLines(text);
  }

  method ChunkLines(lines: seq<string>) returns (chunks: seq<string>)
    requires lines != []
    ensures forall k :: 0 <= k < |chunks| ==> chunks[k] != ""
    ensures forall k :: 0 <= k < |chunks| ==> |chunks[k]| <= MaxMessageLength || chunks[k] in lines
    ensures NoEmptyLine(lines) ==> JoinLines(chunks) == JoinLines(lines)
  {
    chunks := [];
    var current := "";
    for i := 0 to |lines|
      invariant forall k :: 0 <= k < |chunks| ==> chunks[k] != ""
      invariant forall k :: 0 <= k < |chunks| ==> |chunks[k]| <= MaxMessageLength || chunks[k] in lines
      invariant |current| <= MaxMessageLength || current in lines
      invariant i == 0 ==> chunks == [] && current == ""
      invariant NoEmptyLine(lines) && i > 0 ==> current != "" && JoinLines(chunks + [current]) == JoinLines(lines[..i])
    {
      ghost var prev := current;
      var line := lines[i];
      if |current| + |line| + 1 > MaxMessageLength {
        if current != "" {
          chunks := chunks + [current];
        }
        current := line;
        if NoEmptyLine(lines) && i > 0 {
          JoinSnoc(chunks, line);
        }
      } else {
        if current != "" {
          current := current + "\n" + line;
          if NoEmptyLine(lines) && i > 0 {
            JoinExtendLast(chunks, prev, "\n" + line);
            assert prev + ("\n" + line) == current;
          }
        } else {
          current := line;
        }
      }
      if NoEmptyLine(lines) && i > 0 {
        assert lines[..i + 1] == lines[..i] + [lines[i]];
        JoinSnoc(lines[..i], lines[i]);
      }
    }
    if current != "" {
      chunks := chunks + [current];
    }
    assert lines[..|lines|] == lines;
  }

  /** One message handed to the chat platform. */
  datatype Outgoing =
    | ReplyTo(text: string, parseMode: string)
    | SendTo(chatId: int, text: string, parseMode: string)
  {
    function Text(): string {
      match this
      case ReplyTo(t, _) => t
      case SendTo(_, t, _) => t
    }
  }

  /** `send_long_message`. In HTML mode the text first goes through the
      Markdown-to-HTML converter, given here as `render`. Text within the
      limit goes out whole; longer text goes out chunk by chunk, and only the
      first chunk answers the user's message. */
  method SendLongMessage(chatId: int, text: string, replyTo: bool, parseMode: string, render: string -> string)
    returns (sent: seq<Outgoing>)
    ensures var t := if parseMode == "HTML" then render(text) else text;
      (|t| <= MaxMessageLength ==>
         sent == [if replyTo then ReplyTo(t, parseMode) else SendTo(chatId, t, parseMode)])
      && (|t| > MaxMessageLength ==>
         (forall k :: 0 <= k < |sent| ==>
            && sent[k].Text() != ""
            && (|sent[k].Text()| <= MaxMessageLength || sent[k].Text() in SplitLines(t))
            && (sent[k].ReplyTo? <==> replyTo && k == 0)
            && (sent[k].SendTo? ==> sent[k].chatId == chatId)
            && sent[k].parseMode == parseMode)
         && (NoEmptyLine(SplitLines(t)) ==> JoinLines(Texts(sent)) == t))
  {
    var t := if parseMode == "HTML" then render(text) else text;
    if |t| <= MaxMessageLength {
      return [if replyTo then ReplyTo(t, parseMode) else SendTo(chatId, t, parseMode)];
    }
    var chunks := SplitIntoChunks(t);
    sent := [];
    for i := 0 to |chunks|
      invariant |sent| == i
      invariant forall k :: 0 <= k < i ==>
        sent[k].Text() == chunks[k] && sent[k].parseMode == parseMode
        && (sent[k].ReplyTo? <==> replyTo && k == 0)
        && (sent[k].SendTo? ==> sent[k].chatId == chatId)
    {
      if replyTo && i == 0 {
        sent := sent + [ReplyTo(chunks[i], parseMode)];
      } else {
        sent := sent + [SendTo(chatId, chunks[i], parseMode)];
      }
    }
    assert Texts(sent) == chunks;
  }

  function Texts(sent: seq<Outgoing>): (r: seq<string>)
    ensures |r| == |sent| && forall k :: 0 <= k < |sent| ==> r[k] == sent[k].Text()
  {
    seq(|sent|, k requires 0 <= k < |sent| => sent[k].Text())
  }
}
