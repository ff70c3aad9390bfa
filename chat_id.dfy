/**
 * The chat-id check migrate_state.py and setup_admin.py both make before
 * doing anything: after removing every leading '-', what is left must be a
 * non-empty run of decimal digits.
 */
module ChatId {
  import opened Text

  /** Every character of `s` is '-'. */
  predicate Dashes(s: string)
  {
    forall i :: 0 <= i < |s| ==> s[i] == '-'
  }

  /**
   * `chat_id.lstrip('-').isdigit()`: a chat id is some leading dashes
   * followed by at least one digit and nothing else.
   */
  function IsChatId(s: string): (ok: bool)
    ensures ok <==> exists k :: 0 <= k < |s| && Dashes(s[..k]) && AllDigits(s[k..])
  {
    StrippedShape(s);
    var d := LStripChar(s, '-');
    d != [] && AllDigits(d)
  }

  lemma StrippedShape(s: string)
    ensures var d := LStripChar(s, '-');
      d != [] && AllDigits(d) <==> exists k :: 0 <= k < |s| && Dashes(s[..k]) && AllDigits(s[k..])
  {
    var d := LStripChar(s, '-');
    if d != [] && AllDigits(d) {
      StrippedSplit(s);
    }
    forall k | 0 <= k < |s| && Dashes(s[..k]) && AllDigits(s[k..])
      ensures d == s[k..]
    {
      DigitStops(s, k);
    }
  }

  /** What `lstrip('-')` removed is a run of dashes, cut where the kept part starts. */
  lemma StrippedSplit(s: string)
    requires LStripChar(s, '-') != []
    ensures var k := |s| - |LStripChar(s, '-')|;
      0 <= k < |s| && Dashes(s[..k]) && s[k..] == LStripChar(s, '-')
  {
  }

  lemma DigitStops(s: string, k: nat)
    requires k < |s| && Dashes(s[..k]) && AllDigits(s[k..])
    ensures LStripChar(s, '-') == s[k..]
  {
    assert s[k..][0] == s[k];
    StripDashes(s, k);
  }

  /** `lstrip('-')` stops at the first character that is not a dash. */
  lemma {:induction false} StripDashes(s: string, k: nat)
    requires k <= |s| && Dashes(s[..k]) && (k < |s| ==> s[k] != '-')
    ensures LStripChar(s, '-') == s[k..]
    decreases k
  {
    if k > 0 {
      assert s[0] == s[..k][0];
      assert s[1..][..k - 1] == s[..k][1..];
      StripDashes(s[1..], k - 1);
    }
  }

  /** The decimal form of any user id is accepted, and so is that of a group id, which is negative. */
  lemma NumericIdsAccepted(n: nat)
    ensures IsChatId(NatToString(n))
    ensures IsChatId("-" + NatToString(n))
  {
    var d := NatToString(n);
    assert d[..0] == [] && d[0..] == d;
    var g := "-" + d;
    assert Dashes(g[..1]) && g[1..] == d;
  }

  /** The placeholder key of the old state file is not a chat id. */
  lemma PlaceholderRejected()
    ensures !IsChatId("YOUR_CHAT_ID_HERE")
  {
    var s := "YOUR_CHAT_ID_HERE";
    forall k | 0 <= k < |s| && Dashes(s[..k])
      ensures !AllDigits(s[k..])
    {
      assert s[k..][0] == s[k];
    }
  }
}
