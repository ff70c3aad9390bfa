/**
 * The text handling of substack_to_telegram.py: `escape_html`, the length
 * cut in `send_message`, the fallback summary of `build_digest`, and the
 * tokenising of a command message in `handle_message`.
 */
module BotText {
  import opened Wrappers
  import opened Text
  import opened Summarizer

  // ----- escape_html -----

  /** What escaping does to one character. */
  function EscapeChar(c: char): (r: string)
    ensures '<' !in r && '>' !in r
    ensures c != '&' && c != '<' && c != '>' ==> r == [c]
  {
    if c == '&' then "&amp;" else if c == '<' then "&lt;" else if c == '>' then "&gt;" else [c]
  }

  /** Escaping character by character: the reference `escape_html` must agree with. */
  function EscapeEach(s: string): (r: string)
    ensures '<' !in r && '>' !in r
    ensures |r| >= |s|
  {
    if s == [] then [] else EscapeChar(s[0]) + EscapeEach(s[1..])
  }

  /** The three `.replace` calls, "&" first. */
  function ReplaceChain(s: string): string
  {
    ReplaceAll(ReplaceAll(ReplaceAll(s, "&", "&amp;"), "<", "&lt;"), ">", "&gt;")
  }

  /** `escape_html`: empty text gives ""; otherwise the result holds no '<' and no '>'. */
  function EscapeHtml(text: string): (r: string)
    ensures text == [] ==> r == []
    ensures '<' !in r && '>' !in r
  {
    if text == [] then []
    else
      var a := ReplaceAll(text, "&", "&amp;");
      var b := ReplaceAll(a, "<", "&lt;");
      ReplaceRemoves(a, '<', "&lt;");
      ReplaceAvoids(b, ">", "&gt;", '<');
      ReplaceRemoves(b, '>', "&gt;");
      ReplaceAll(b, ">", "&gt;")
  }

  lemma ChainAppend(a: string, b: string)
    ensures ReplaceChain(a + b) == ReplaceChain(a) + ReplaceChain(b)
  {
    var a1, b1 := ReplaceAll(a, "&", "&amp;"), ReplaceAll(b, "&", "&amp;");
    ReplaceCharAppend(a, b, '&', "&amp;");
    var a2, b2 := ReplaceAll(a1, "<", "&lt;"), ReplaceAll(b1, "<", "&lt;");
    ReplaceCharAppend(a1, b1, '<', "&lt;");
    ReplaceCharAppend(a2, b2, '>', "&gt;");
  }

  lemma ChainChar(c: char)
    ensures ReplaceChain([c]) == EscapeChar(c)
  {
    if c == '&' { ChainAmp(); }
    else if c == '<' { ChainLt(); }
    else if c == '>' { ChainGt(); }
    else {
      ReplaceAbsent([c], "&", "&amp;");
      ReplaceAbsent([c], "<", "&lt;");
      ReplaceAbsent([c], ">", "&gt;");
    }
  }

  /** Replacing a one-character pattern in the one-character text that is that pattern. */
  lemma ReplaceWhole(c: char, rep: string)
    ensures ReplaceAll([c], [c], rep) == rep
  {
    assert [c][..1] == [c] && [c][1..] == [];
  }

  lemma ChainAmp()
    ensures ReplaceChain("&") == "&amp;"
  {
    ReplaceWhole('&', "&amp;");
    ReplaceAbsent("&amp;", "<", "&lt;");
    ReplaceAbsent("&amp;", ">", "&gt;");
  }

  lemma ChainLt()
    ensures ReplaceChain("<") == "&lt;"
  {
    ReplaceAbsent("<", "&", "&amp;");
    ReplaceWhole('<', "&lt;");
    ReplaceAbsent("&lt;", ">", "&gt;");
  }

  lemma ChainGt()
    ensures ReplaceChain(">") == "&gt;"
  {
    ReplaceAbsent(">", "&", "&amp;");
    ReplaceAbsent(">", "<", "&lt;");
    ReplaceWhole('>', "&gt;");
  }

  /**
   * Because "&" is replaced first, the chain of replacements escapes each
   * character on its own: no "&" it introduces is escaped a second time.
   */
  lemma {:induction false} EscapeIsPerCharacter(s: string)
    ensures EscapeHtml(s) == EscapeEach(s)
    decreases |s|
  {
    if s != [] {
      EscapeIsPerCharacter(s[1..]);
      ChainChar(s[0]);
      ChainAppend([s[0]], s[1..]);
      assert [s[0]] + s[1..] == s;
      if s[1..] == [] {
        ReplaceAbsent(s[1..], "&", "&amp;");
        ReplaceAbsent(s[1..], "<", "&lt;");
        ReplaceAbsent(s[1..], ">", "&gt;");
      }
    }
  }

  // ----- send_message -----

  const TruncationNote := "\n\n... (truncated)"

  /** The text `send_message` posts: over 4000 characters, the first 4000 and a note. */
  function SendText(text: string): (r: string)
    ensures |r| <= 4000 + |TruncationNote| < 4096
    ensures |text| <= 4000 ==> r == text
    ensures |text| > 4000 ==> |r| == 4000 + |TruncationNote| && r[..4000] == text[..4000] && r[4000..] == TruncationNote
  {
    if |text| > 4000 then text[..4000] + TruncationNote else text
  }

  // ----- build_digest fallback -----

  /**
   * The line `build_digest` shows for an entry without an SCQR summary: the
   * cleaned RSS summary, none when it is empty, and cut to 197 characters
   * plus "..." when longer than 200.
   */
  function FallbackSummary(summary: string): (r: Option<string>)
    ensures r.Some? <==> CleanHtml(summary) != []
    ensures r.Some? ==> 0 < |r.value| <= 200
    ensures r.Some? && |CleanHtml(summary)| <= 200 ==> r.value == CleanHtml(summary)
    ensures r.Some? && |CleanHtml(summary)| > 200 ==>
      |r.value| == 200 && r.value[..197] == CleanHtml(summary)[..197] && r.value[197..] == "..."
  {
    Cut(CleanHtml(summary))
  }

  function Cut(s: string): (r: Option<string>)
    ensures r.Some? <==> s != []
    ensures r.Some? ==> 0 < |r.value| <= 200
    ensures r.Some? && |s| <= 200 ==> r.value == s
    ensures r.Some? && |s| > 200 ==> |r.value| == 200 && r.value[..197] == s[..197] && r.value[197..] == "..."
  {
    if s == [] then None
    else if |s| > 200 then Some(s[..197] + "...")
    else Some(s)
  }

  // ----- handle_message tokenising -----

  /**
   * `text.split(maxsplit=1)` followed by `parts[0].lower().split("@")[0]`
   * and `parts[1] if len(parts) > 1 else ""`: the command is the first
   * whitespace-delimited token, lower-cased and cut at its first '@'; the
   * arguments are what follows the whitespace after it.
   */
  function ParseCommand(text: string): (r: (string, string))
    ensures '@' !in r.0
    ensures |r.1| > 0 ==> !IsSpace(r.1[0])
    ensures |r.1| <= |text|
  {
    var t := StripLeft(text);
    var first := TakeWord(t);
    (Split(Lower(first), '@')[0], StripLeft(t[|first|..]))
  }

  lemma {:induction false} TakeWordThenSpace(w: string, rest: string)
    requires forall j :: 0 <= j < |w| ==> !IsSpace(w[j])
    requires |rest| == 0 || IsSpace(rest[0])
    ensures TakeWord(w + rest) == w
    decreases |w|
  {
    if w == [] {
      assert w + rest == rest;
    } else {
      TakeWordThenSpace(w[1..], rest);
      assert (w + rest)[1..] == w[1..] + rest;
    }
  }

  /** Whitespace in front of the arguments is dropped, and nothing else. */
  lemma {:induction false} StripSpaces(sep: string, args: string)
    requires forall j :: 0 <= j < |sep| ==> IsSpace(sep[j])
    requires |args| == 0 || !IsSpace(args[0])
    ensures StripLeft(sep + args) == args
    decreases |sep|
  {
    if sep == [] {
      assert sep + args == args;
    } else {
      assert (sep + args)[1..] == sep[1..] + args;
      StripSpaces(sep[1..], args);
    }
  }

  /**
   * A command word, then any run of whitespace, then arguments, is read back
   * as the lower-cased word and exactly those arguments; with no whitespace
   * there must be no arguments, so a bare command and one with trailing
   * blanks both have "" as arguments.
   */
  lemma CommandRoundTrip(cmd: string, sep: string, args: string)
    requires Word(cmd) && '@' !in cmd
    requires forall j :: 0 <= j < |sep| ==> IsSpace(sep[j])
    requires |args| == 0 || !IsSpace(args[0])
    requires |sep| > 0 || args == []
    ensures ParseCommand(cmd + sep + args) == (Lower(cmd), args)
  {
    ParsesAs(cmd, sep, args);
    LowerNoAt(cmd);
    SplitNoSep(Lower(cmd), '@');
  }

  /** A `/command@botname` word is read as the lower-cased command without the bot's name, whatever follows. */
  lemma BotSuffixDropped(cmd: string, bot: string, sep: string, args: string)
    requires Word(cmd) && '@' !in cmd && forall j :: 0 <= j < |bot| ==> !IsSpace(bot[j])
    requires forall j :: 0 <= j < |sep| ==> IsSpace(sep[j])
    requires |args| == 0 || !IsSpace(args[0])
    requires |sep| > 0 || args == []
    ensures ParseCommand(cmd + "@" + bot + sep + args) == (Lower(cmd), args)
  {
    var w := cmd + "@" + bot;
    AtWord(cmd, bot);
    ParsesAs(w, sep, args);
    LowerAt(cmd, bot);
    LowerNoAt(cmd);
    SplitAfterSep(Lower(cmd), Lower(bot), '@');
  }

  /** A bare command, the most common message, has no arguments. */
  lemma BareCommand(cmd: string)
    requires Word(cmd) && '@' !in cmd
    ensures ParseCommand(cmd) == (Lower(cmd), "")
  {
    var none: string := [];
    assert cmd + none + none == cmd;
    CommandRoundTrip(cmd, none, none);
  }

  /** A bare `/command@botname` has no arguments either. */
  lemma BareBotCommand(cmd: string, bot: string)
    requires Word(cmd) && '@' !in cmd && forall j :: 0 <= j < |bot| ==> !IsSpace(bot[j])
    ensures ParseCommand(cmd + "@" + bot) == (Lower(cmd), "")
  {
    var none: string := [];
    assert cmd + "@" + bot + none + none == cmd + "@" + bot;
    BotSuffixDropped(cmd, bot, none, none);
  }

  lemma AtWord(cmd: string, bot: string)
    requires Word(cmd) && forall j :: 0 <= j < |bot| ==> !IsSpace(bot[j])
    ensures Word(cmd + "@" + bot)
  {
    var w := cmd + "@" + bot;
    forall j | 0 <= j < |w|
      ensures !IsSpace(w[j])
    {
      if j < |cmd| { assert w[j] == cmd[j]; }
      else if j > |cmd| { assert w[j] == bot[j - |cmd| - 1]; }
    }
  }

  lemma LowerNoAt(s: string)
    requires '@' !in s
    ensures '@' !in Lower(s)
  {
    assert forall i :: 0 <= i < |s| ==> Lower(s)[i] != '@';
  }

  lemma LowerAt(a: string, b: string)
    ensures Lower(a + "@" + b) == Lower(a) + ['@'] + Lower(b)
  {
    assert a + "@" + b == a + ("@" + b);
    LowerAppend(a, "@" + b);
    LowerAppend("@", b);
  }

  lemma ParsesAs(w: string, sep: string, args: string)
    requires Word(w)
    requires forall j :: 0 <= j < |sep| ==> IsSpace(sep[j])
    requires |args| == 0 || !IsSpace(args[0])
    requires |sep| > 0 || args == []
    ensures ParseCommand(w + sep + args) == (Split(Lower(w), '@')[0], args)
  {
    var text := w + sep + args;
    assert StripLeft(text) == text;
    assert text == w + (sep + args);
    assert |sep + args| > 0 ==> (sep + args)[0] == sep[0];
    TakeWordThenSpace(w, sep + args);
    assert text[|w|..] == sep + args;
    StripSpaces(sep, args);
  }
}
