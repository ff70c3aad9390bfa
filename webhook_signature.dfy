/**
 * `verify_webhook_signature` (stripe_webhook.py): the `t=…,v1=…` header is
 * parsed into a dictionary, the timestamp must lie within 300 seconds of the
 * clock, and `v1` must equal the hex HMAC-SHA256 (RFC 2104 over FIPS 180-4
 * SHA-256) of `"{t}.{payload}"` under the webhook secret. The MAC is a
 * function parameter; every exception the source catches is a `false`.
 */
module WebhookSignature {
  import opened Wrappers
  import opened Text

  // ----- Header parsing -----

  /** `item.split("=")` unpacked into a key and a value: exactly two parts, or the `dict` constructor raises. */
  function PairOf(item: string): (r: Option<(string, string)>)
    ensures r.Some? <==> |Split(item, '=')| == 2
    ensures r.Some? ==> '=' !in r.value.0 && '=' !in r.value.1
  {
    var kv := Split(item, '=');
    if |kv| == 2 then Some((kv[0], kv[1])) else None
  }

  /** `dict(item.split("=") for item in items)`: fails if any item fails, and a later key overwrites an earlier one. */
  function Pairs(items: seq<string>): (r: Option<map<string, string>>)
    ensures r.Some? <==> forall i :: 0 <= i < |items| ==> PairOf(items[i]).Some?
    ensures r.Some? && |items| > 0 ==>
      var last := PairOf(items[|items| - 1]).value;
      last.0 in r.value && r.value[last.0] == last.1
  {
    if items == [] then Some(map[])
    else
      var front := items[..|items| - 1];
      assert forall i :: 0 <= i < |front| ==> front[i] == items[i];
      match Pairs(front)
      case None => None
      case Some(m) =>
        match PairOf(items[|items| - 1])
        case None => None
        case Some(kv) => Some(m[kv.0 := kv.1])
  }

  function ParseHeader(header: string): Option<map<string, string>>
  {
    Pairs(Split(header, ','))
  }

  /** An item that does not split on '=' into exactly two parts makes the whole header unreadable. */
  lemma MalformedItemSpoilsHeader(header: string, i: nat)
    requires i < |Split(header, ',')| && |Split(Split(header, ',')[i], '=')| != 2
    ensures ParseHeader(header).None?
  {
    assert PairOf(Split(header, ',')[i]).None?;
  }

  /** A well-formed `key=value` item splits into its key and its value. */
  lemma {:induction false} ItemSplits(k: string, v: string)
    requires '=' !in k && '=' !in v
    ensures PairOf(k + "=" + v) == Some((k, v))
  {
    SplitAfterSep(k, v, '=');
    SplitNoSep(v, '=');
    assert k + "=" + v == k + ['='] + v;
  }

  /** With a duplicated key, the item written last decides the value. */
  lemma {:induction false} DuplicateKeyLastWins(items: seq<string>, k: string, v: string)
    requires Pairs(items).Some? && '=' !in k && '=' !in v
    ensures Pairs(items + [k + "=" + v]).Some?
    ensures k in Pairs(items + [k + "=" + v]).value && Pairs(items + [k + "=" + v]).value[k] == v
  {
    ItemSplits(k, v);
    var all := items + [k + "=" + v];
    assert all[..|all| - 1] == items;
    assert forall i :: 0 <= i < |all| ==> PairOf(all[i]).Some? by {
      forall i | 0 <= i < |all|
        ensures PairOf(all[i]).Some?
      {
        if i < |items| {
          assert all[i] == items[i];
        }
      }
    }
  }

  // ----- Python's int() on a string -----

  /** Digits with single underscores between them, as `int()` accepts. */
  predicate Grouped(s: string)
  {
    && |s| > 0 && IsDigit(s[0]) && IsDigit(s[|s| - 1])
    && (forall i :: 0 <= i < |s| ==> IsDigit(s[i]) || s[i] == '_')
    && !Contains(s, "__")
  }

  /** A run of digits alone is grouped. */
  lemma DigitsGrouped(s: string)
    requires |s| > 0 && AllDigits(s)
    ensures Grouped(s)
  {
    AbsentFirst(s, "__");
  }

  /** The number a run of digits and underscores denotes, underscores ignored. */
  function GroupedValue(s: string): (n: nat)
    requires forall i :: 0 <= i < |s| ==> IsDigit(s[i]) || s[i] == '_'
    ensures AllDigits(s) ==> n == DigitsValue(s)
  {
    if s == [] then 0
    else if s[|s| - 1] == '_' then GroupedValue(s[..|s| - 1])
    else
      assert IsDigit(s[|s| - 1]);
      GroupedValue(s[..|s| - 1]) * 10 + (s[|s| - 1] as int - '0' as int)
  }

  /**
   * `int(s)` for a string: surrounding whitespace is ignored, one optional
   * sign, then grouped ASCII digits; anything else raises (`None`).
   */
  function ParseInt(s: string): Option<int>
  {
    var t := Strip(s);
    if |t| > 0 && (t[0] == '+' || t[0] == '-') then
      var body := t[1..];
      if Grouped(body) then
        var v: int := GroupedValue(body);
        Some(if t[0] == '-' then -v else v)
      else None
    else if Grouped(t) then Some(GroupedValue(t))
    else None
  }

  /** A plain run of digits reads as the number it denotes. */
  lemma ParseDigits(s: string)
    requires |s| > 0 && AllDigits(s)
    ensures ParseInt(s) == Some(DigitsValue(s))
  {
    DigitsGrouped(s);
    assert NoEdgeSpace(s) by {
      assert IsDigit(s[0]) && IsDigit(s[|s| - 1]);
    }
    assert Strip(s) == s;
    assert s[0] != '+' && s[0] != '-' by {
      assert IsDigit(s[0]);
    }
  }

  /** A sign and underscores between digits are accepted. */
  lemma ParseIntSignedGrouped()
    ensures ParseInt("-1_5") == Some(-15)
  {
    assert NoEdgeSpace("-1_5") by {
      assert !IsSpace('-') && !IsSpace('5');
    }
    assert Strip("-1_5") == "-1_5";
    assert "-1_5"[1..] == "1_5";
    OneUnderscoreFive();
  }

  lemma OneUnderscoreFive()
    ensures Grouped("1_5") && GroupedValue("1_5") == 15
  {
    assert !Contains("1_5", "__") by {
      assert "1_5"[1..] == "_5" && "_5"[1..] == "5" && "5"[1..] == "";
      assert "1_5"[..2] == "1_" && "_5"[..2] == "_5";
      assert !Contains("", "__");
      assert !Contains("5", "__");
      assert !Contains("_5", "__");
    }
    assert "1_5"[..2] == "1_" && "1_"[..1] == "1" && "1"[..0] == "";
    assert GroupedValue("1") == 1;
    assert GroupedValue("1_") == 1;
  }

  /** A fraction is refused. */
  lemma ParseIntRefusesFraction()
    ensures ParseInt("1.5").None?
  {
    assert NoEdgeSpace("1.5") by {
      assert !IsSpace('1') && !IsSpace('5');
    }
    assert Strip("1.5") == "1.5";
    assert !Grouped("1.5") by {
      assert "1.5"[1] == '.' && !IsDigit('.');
    }
  }

  /** A doubled underscore is refused. */
  lemma ParseIntRefusesDoubleUnderscore()
    ensures ParseInt("1__0").None?
  {
    assert NoEdgeSpace("1__0") by {
      assert !IsSpace('1') && !IsSpace('0');
    }
    assert Strip("1__0") == "1__0";
    assert "1__0"[1..1 + 2] == "__";
    ContainsAt("1__0", "__", 1);
  }

  // ----- Verification -----

  /** `hmac.compare_digest` on text raises unless both strings are ASCII. */
  predicate Ascii(s: string)
  {
    forall i :: 0 <= i < |s| ==> s[i] < '\U{80}'
  }

  /** A lower-case hex digest, the form `hexdigest()` produces. */
  predicate IsHexDigest(s: string)
  {
    forall i :: 0 <= i < |s| ==> IsDigit(s[i]) || 'a' <= s[i] <= 'f'
  }

  /** The text the signature covers: the timestamp as received, a dot, then the body. */
  function SignedText(t: string, payload: string): string
  {
    t + "." + payload
  }

  /**
   * `verify_webhook_signature`. `payload` is the body decoded as UTF-8
   * (`None` when decoding raises); `secret` is the configured signing secret;
   * `mac(key, text)` is the hex HMAC-SHA256 of `text` under `key`.
   */
  function Verify(payload: Option<string>, header: string, secret: Option<string>, now: int, mac: (string, string) -> string): (ok: bool)
    ensures ok ==> secret.Some? && secret.value != "" && payload.Some?
    ensures ok ==>
      && ParseHeader(header).Some?
      && var parts := ParseHeader(header).value;
      && "t" in parts && "v1" in parts && parts["t"] != "" && parts["v1"] != ""
      && ParseInt(parts["t"]).Some?
      && -300 <= now - ParseInt(parts["t"]).value <= 300
      && parts["v1"] == mac(secret.value, SignedText(parts["t"], payload.value))
  {
    if secret.None? || secret.value == "" then false
    else CheckParts(payload, ParseHeader(header), secret.value, now, mac)
  }

  /** What `verify_webhook_signature` checks once the secret is known and the header has been read. */
  function CheckParts(payload: Option<string>, parsed: Option<map<string, string>>, secret: string, now: int, mac: (string, string) -> string): bool
  {
    match parsed
    case None => false
    case Some(parts) =>
      if "t" !in parts || "v1" !in parts || parts["t"] == "" || parts["v1"] == "" then false
      else match ParseInt(parts["t"])
        case None => false
        case Some(t) =>
          if now - t > 300 || t - now > 300 then false
          else match payload
            case None => false
            case Some(p) =>
              var expected := mac(secret, SignedText(parts["t"], p));
              Ascii(expected) && Ascii(parts["v1"]) && expected == parts["v1"]
  }

  /** The header a sender writes: timestamp first, then the signature. */
  function SignedHeader(t: string, sig: string): string
  {
    "t=" + t + ",v1=" + sig
  }

  /** A separator-free text after a fixed prefix stays separator-free. */
  lemma NoSepAfter(pre: string, x: string, c: char)
    requires c !in pre && c !in x
    ensures c !in pre + x
  {
    assert forall i :: 0 <= i < |pre + x| ==> (pre + x)[i] == if i < |pre| then pre[i] else x[i - |pre|];
  }

  /** Two items parse into the dictionary of their pairs, the second overriding the first. */
  lemma {:induction false} TwoPairs(a: string, b: string)
    requires PairOf(a).Some? && PairOf(b).Some?
    ensures Pairs([a, b]) == Some(map[PairOf(a).value.0 := PairOf(a).value.1][PairOf(b).value.0 := PairOf(b).value.1])
  {
    assert [a, b][..1] == [a];
    assert [a][..0] == [];
    assert Pairs([a]) == Some(map[PairOf(a).value.0 := PairOf(a).value.1]);
  }

  lemma {:induction false} SignedHeaderParses(t: string, sig: string)
    requires ',' !in t && '=' !in t && ',' !in sig && '=' !in sig
    ensures ParseHeader(SignedHeader(t, sig)) == Some(map["t" := t, "v1" := sig])
  {
    var a, b := "t" + "=" + t, "v1" + "=" + sig;
    assert SignedHeader(t, sig) == a + [','] + b;
    NoSepAfter("t=", t, ',');
    NoSepAfter("v1=", sig, ',');
    assert "t" + "=" == "t=" && "v1" + "=" == "v1=";
    SplitAfterSep(a, b, ',');
    SplitNoSep(b, ',');
    assert Split(SignedHeader(t, sig), ',') == [a, b];
    ItemSplits("t", t);
    ItemSplits("v1", sig);
    TwoPairs(a, b);
  }

  /** `str(t)` reads back through `int()` as `t`. */
  lemma ParseNatString(t: nat)
    ensures ParseInt(NatToString(t)) == Some(t)
  {
    NatToStringRoundTrip(t);
    ParseDigits(NatToString(t));
  }

  /**
   * Once the header has parsed into a timestamp and a signature, acceptance
   * comes down to the window and the signature.
   */
  lemma {:induction false} VerifyParsed(payload: string, header: string, secret: string, now: int, mac: (string, string) -> string, ts: string, t: int, sig: string)
    requires secret != "" && ts != "" && sig != ""
    requires ParseHeader(header) == Some(map["t" := ts, "v1" := sig]) && ParseInt(ts) == Some(t)
    requires Ascii(sig) && sig == mac(secret, SignedText(ts, payload))
    ensures Verify(Some(payload), header, Some(secret), now, mac) <==> -300 <= now - t <= 300
  {
    CheckSigned(payload, secret, now, mac, ts, t, sig);
  }

  lemma CheckSigned(payload: string, secret: string, now: int, mac: (string, string) -> string, ts: string, t: int, sig: string)
    requires ts != "" && sig != "" && ParseInt(ts) == Some(t)
    requires Ascii(sig) && sig == mac(secret, SignedText(ts, payload))
    ensures CheckParts(Some(payload), Some(map["t" := ts, "v1" := sig]), secret, now, mac) <==> -300 <= now - t <= 300
  {
    var parts := map["t" := ts, "v1" := sig];
    assert "t" in parts && "v1" in parts && parts["t"] == ts && parts["v1"] == sig;
  }

  /**
   * A correctly signed request, with the timestamp written as `str(t)`, is
   * accepted exactly when the clock is within 300 seconds of `t` either way:
   * a skew of exactly 300 passes, 301 does not.
   */
  lemma {:induction false} SignedRequestWindow(t: nat, payload: string, secret: string, now: int, mac: (string, string) -> string)
    requires secret != ""
    requires IsHexDigest(mac(secret, SignedText(NatToString(t), payload)))
    requires mac(secret, SignedText(NatToString(t), payload)) != ""
    ensures
      var sig := mac(secret, SignedText(NatToString(t), payload));
      Verify(Some(payload), SignedHeader(NatToString(t), sig), Some(secret), now, mac) <==> -300 <= now - t <= 300
  {
    var ts := NatToString(t);
    var sig := mac(secret, SignedText(ts, payload));
    assert ',' !in ts && '=' !in ts by {
      assert AllDigits(ts);
    }
    assert ',' !in sig && '=' !in sig && Ascii(sig) by {
      assert IsHexDigest(sig);
    }
    SignedHeaderParses(ts, sig);
    ParseNatString(t);
    VerifyParsed(payload, SignedHeader(ts, sig), secret, now, mac, ts, t, sig);
  }

  /** An empty header has one item without '=', so it is rejected. */
  lemma EmptyHeaderRejected(payload: Option<string>, secret: Option<string>, now: int, mac: (string, string) -> string)
    ensures !Verify(payload, "", secret, now, mac)
  {
    assert Split("", ',') == [""];
    assert Split("", '=') == [""];
  }

  /** An empty timestamp is rejected even though the header parses. */
  lemma EmptyTimestampRejected(payload: Option<string>, secret: Option<string>, now: int, mac: (string, string) -> string)
    ensures !Verify(payload, "t=,v1=ab", secret, now, mac)
  {
    SignedHeaderParses("", "ab");
    assert SignedHeader("", "ab") == "t=,v1=ab";
  }

  /** A timestamp `int()` refuses is rejected. */
  lemma NonIntegerTimestampRejected(payload: Option<string>, secret: Option<string>, now: int, mac: (string, string) -> string)
    ensures !Verify(payload, "t=1.5,v1=ab", secret, now, mac)
  {
    SignedHeaderParses("1.5", "ab");
    assert SignedHeader("1.5", "ab") == "t=1.5,v1=ab";
    ParseIntRefusesFraction();
  }

  /** An item with two '=' signs is not a pair, so the header is rejected. */
  lemma DoubleEqualsRejected(payload: Option<string>, secret: Option<string>, now: int, mac: (string, string) -> string)
    ensures !Verify(payload, "t=1=2,v1=ab", secret, now, mac)
  {
    FirstItem();
    ThreeParts();
    MalformedItemSpoilsHeader("t=1=2,v1=ab", 0);
  }

  lemma FirstItem()
    ensures Split("t=1=2,v1=ab", ',')[0] == "t=1=2"
  {
    assert "t=1=2,v1=ab" == "t=1=2" + [','] + "v1=ab";
    SplitAfterSep("t=1=2", "v1=ab", ',');
  }

  lemma ThreeParts()
    ensures |Split("t=1=2", '=')| == 3
  {
    assert "1=2" == "1" + ['='] + "2";
    SplitAfterSep("1", "2", '=');
    SplitNoSep("2", '=');
    assert "t=1=2" == "t" + ['='] + "1=2";
    SplitAfterSep("t", "1=2", '=');
  }
}
