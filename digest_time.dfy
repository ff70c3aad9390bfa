/**
 * The digest-time format `set_digest_time` accepts (manage_feeds.py): an hour
 * of one digit, or two digits up to 23, a colon, and two minute digits up to
 * 59, as matched from the start of the text with Python's `$`, which also
 * matches just before one final newline.
 */
module DigestTime {
  import opened Wrappers
  import opened Text

  function DigitValue(c: char): nat
    requires IsDigit(c)
  {
    c as int - '0' as int
  }

  /** `[01]?[0-9]|2[0-3]`. */
  predicate IsHour(h: string)
  {
    || (|h| == 1 && IsDigit(h[0]))
    || (|h| == 2 && (h[0] == '0' || h[0] == '1') && IsDigit(h[1]))
    || (|h| == 2 && h[0] == '2' && '0' <= h[1] <= '3')
  }

  /** `[0-5][0-9]`. */
  predicate IsMinute(m: string)
  {
    |m| == 2 && '0' <= m[0] <= '5' && IsDigit(m[1])
  }

  /** An hour, a colon and a minute, and nothing else. */
  predicate ClockText(t: string)
  {
    exists k :: 1 <= k <= 2 && k < |t| && IsHour(t[..k]) && t[k] == ':' && IsMinute(t[k + 1..])
  }

  /** The whole match, including the newline that `$` lets through. */
  predicate MatchesDigestTime(s: string)
  {
    ClockText(s) || (|s| > 0 && s[|s| - 1] == '\n' && ClockText(s[..|s| - 1]))
  }

  /** The position of the colon in a clock text. */
  function ColonAt(t: string): (k: nat)
    requires ClockText(t)
    ensures 1 <= k <= 2 && k < |t| && IsHour(t[..k]) && t[k] == ':' && IsMinute(t[k + 1..])
  {
    if 1 < |t| && IsHour(t[..1]) && t[1] == ':' && IsMinute(t[2..]) then 1 else 2
  }

  /** The hour and minute a matching text denotes; `None` exactly when the text does not match. */
  function ParseDigestTime(s: string): (r: Option<(nat, nat)>)
    ensures r.Some? <==> MatchesDigestTime(s)
    ensures r.Some? ==> r.value.0 < 24 && r.value.1 < 60
  {
    if !MatchesDigestTime(s) then None
    else
      var t := if ClockText(s) then s else s[..|s| - 1];
      var k := ColonAt(t);
      var h := if k == 1 then DigitValue(t[0]) else DigitValue(t[0]) * 10 + DigitValue(t[1]);
      Some((h, DigitValue(t[k + 1]) * 10 + DigitValue(t[k + 2])))
  }

  /** Two-digit, zero-padded "HH:MM". */
  function FormatDigestTime(h: nat, m: nat): (s: string)
    requires h < 24 && m < 60
    ensures |s| == 5 && s[2] == ':'
  {
    [DigitChar(h / 10), DigitChar(h % 10), ':', DigitChar(m / 10), DigitChar(m % 10)]
  }

  /** Every hour and minute of the day has a text the format test accepts, and it reads back as the same time. */
  lemma {:induction false} FormatThenParse(h: nat, m: nat)
    requires h < 24 && m < 60
    ensures MatchesDigestTime(FormatDigestTime(h, m))
    ensures ParseDigestTime(FormatDigestTime(h, m)) == Some((h, m))
  {
    var s := FormatDigestTime(h, m);
    assert IsHour(s[..2]) && IsMinute(s[3..]);
    assert ClockText(s);
    assert !(IsHour(s[..1]) && s[1] == ':');
  }

  /** The default "08:00" is an accepted time, a final newline is let through, and "24:00" and "8:60" are refused. */
  lemma DigestTimeSamples()
    ensures ParseDigestTime("08:00") == Some((8, 0))
    ensures ParseDigestTime("8:05\n") == Some((8, 5))
    ensures !MatchesDigestTime("24:00") && !MatchesDigestTime("8:60")
  {
    FormatThenParse(8, 0);
    assert FormatDigestTime(8, 0) == "08:00";
    NewlineLetThrough();
    HourOutOfRange();
    MinuteOutOfRange();
  }

  lemma NewlineLetThrough()
    ensures ParseDigestTime("8:05\n") == Some((8, 5))
  {
    var t := "8:05\n";
    assert t[..|t| - 1] == "8:05";
    assert IsHour("8:05"[..1]) && IsMinute("8:05"[2..]);
    assert ClockText("8:05");
    assert !ClockText(t) by {
      assert t[..2] == "8:" && !IsHour(t[..2]);
      assert |t[2..]| == 3 && !IsMinute(t[2..]);
    }
    assert ColonAt("8:05") == 1;
  }

  lemma HourOutOfRange()
    ensures !MatchesDigestTime("24:00")
  {
    var t := "24:00";
    assert t[..2] == "24" && !IsHour(t[..2]);
    assert t[1] != ':';
  }

  lemma MinuteOutOfRange()
    ensures !MatchesDigestTime("8:60")
  {
    var t := "8:60";
    assert t[2..] == "60" && !IsMinute(t[2..]);
    assert t[2] != ':';
  }
}
