/**
 * The pure helpers of the agent UI's call panel: the call-duration clock,
 * the phone-number formatter, the status caption and the guard in front of
 * starting a call.  JavaScript numbers are modelled as whole integers.
 */
module CallPanel {
  import opened Wrappers
  import opened Json
  import opened Text
  import Endpoints

  // ----------------------------------------------------------------- duration

  /** `s.padStart(2, '0')`. */
  function PadStart2(s: string): (r: string)
    ensures |s| >= 2 ==> r == s
    ensures |s| < 2 ==> |r| == 2
    ensures |r| >= |s| && r[|r| - |s|..] == s
  {
    if |s| >= 2 then s else if |s| == 1 then "0" + s else "00"
  }

  /** JavaScript's `a % 60`: the remainder takes the sign of `a`. */
  function Rem60(a: int): (r: int)
    ensures a >= 0 ==> 0 <= r < 60
    ensures a < 0 ==> -60 < r <= 0
    ensures (a - r) % 60 == 0
  {
    if a >= 0 then a % 60 else -((-a) % 60)
  }

  /**
   * Lines 22-27.  A falsy duration (missing or zero) shows "00:00"; otherwise
   * floored minutes and JavaScript-remainder seconds, each padded to two places.
   */
  function FormatDuration(seconds: Option<int>): (r: string)
    ensures seconds.None? || seconds == Some(0) ==> r == "00:00"
  {
    if seconds.None? || seconds.value == 0 then "00:00"
    else PadStart2(IntToString(seconds.value / 60)) + ":" + PadStart2(IntToString(Rem60(seconds.value)))
  }

  /** The general formula gives "00:00" at zero too, so the falsy case is only a shortcut. */
  lemma DurationShortcutAgrees()
    ensures PadStart2(IntToString(0 / 60)) + ":" + PadStart2(IntToString(Rem60(0))) == FormatDuration(Some(0))
  {
  }

  predicate AllDigits(s: string) {
    forall i :: 0 <= i < |s| ==> IsDigit(s[i])
  }

  /** A leading zero does not change the value of a digit string. */
  lemma {:induction false} LeadingZero(s: string)
    requires AllDigits(s)
    ensures AllDigits("0" + s) && DigitsValue("0" + s) == DigitsValue(s)
    decreases |s|
  {
    if s != [] {
      assert ("0" + s)[..|"0" + s| - 1] == "0" + s[..|s| - 1];
      LeadingZero(s[..|s| - 1]);
    }
  }

  /** Padding the rendering of `n` keeps it a digit string denoting `n`, of at least two places. */
  lemma PaddedValue(n: nat)
    ensures var p := PadStart2(NatToString(n));
            |p| >= 2 && AllDigits(p) && DigitsValue(p) == n && (n < 100 ==> |p| == 2)
  {
    NatToStringRoundTrip(n);
    var s := NatToString(n);
    if |s| == 1 {
      LeadingZero(s);
    }
    if n < 100 {
      assert n / 10 < 10;
    }
  }

  /** For whole seconds the clock is the padded quotient and remainder by 60. */
  lemma DurationFormula(s: nat)
    ensures FormatDuration(Some(s)) == PadStart2(NatToString(s / 60)) + ":" + PadStart2(NatToString(s % 60))
  {
  }

  /**
   * `r` reads as the clock `m:sec`: a minutes field of digits worth `m`, a
   * colon, and a seconds field of two digits worth `sec`.
   */
  predicate ReadsAs(r: string, m: nat, sec: nat) {
    && |r| >= 5 && r[|r| - 3] == ':'
    && AllDigits(r[..|r| - 3]) && AllDigits(r[|r| - 2..])
    && DigitsValue(r[..|r| - 3]) == m && DigitsValue(r[|r| - 2..]) == sec
  }

  /** Two digit fields, the second of two places, joined by a colon read back as their values. */
  lemma SplitClock(a: string, b: string)
    requires |a| >= 2 && AllDigits(a) && |b| == 2 && AllDigits(b)
    ensures ReadsAs(a + ":" + b, DigitsValue(a), DigitsValue(b))
  {
    var r := a + ":" + b;
    assert r[..|r| - 3] == a;
    assert r[|r| - 2..] == b;
    FieldsRead(r, a, b);
  }

  lemma FieldsRead(r: string, a: string, b: string)
    requires |r| >= 5 && r[|r| - 3] == ':' && r[..|r| - 3] == a && r[|r| - 2..] == b
    requires AllDigits(a) && AllDigits(b)
    ensures ReadsAs(r, DigitsValue(a), DigitsValue(b))
  {
  }

  /** The clock text for `m` minutes and `sec < 60` seconds reads back as those two numbers. */
  lemma ClockReadsBack(m: nat, sec: nat)
    requires sec < 60
    ensures ReadsAs(PadStart2(NatToString(m)) + ":" + PadStart2(NatToString(sec)), m, sec)
  {
    PaddedValue(m);
    PaddedValue(sec);
    SplitClock(PadStart2(NatToString(m)), PadStart2(NatToString(sec)));
  }

  /**
   * For whole seconds `s >= 0` the clock reads `mm:ss`: the seconds field is
   * two digits worth `s mod 60` (so 00-59), and the minutes field has at
   * least two digits and is worth `s div 60` in full, never truncated; the
   * two fields give back `s`.
   */
  lemma DurationFields(s: nat)
    ensures ReadsAs(FormatDuration(Some(s)), s / 60, s % 60)
    ensures exists m: nat, sec: nat :: sec < 60 && m * 60 + sec == s && ReadsAs(FormatDuration(Some(s)), m, sec)
  {
    DurationFormula(s);
    ClockReadsBack(s / 60, s % 60);
  }

  // -------------------------------------------------------------- phone number

  /** `s.replace(/\D+/g, '')`: the ASCII digits of `s`, in order. */
  function Digits(s: string): (r: string)
    ensures AllDigits(r) && |r| <= |s|
  {
    if s == [] then [] else (if IsDigit(s[0]) then [s[0]] else []) + Digits(s[1..])
  }

  lemma {:induction false} DigitsOfConcat(a: string, b: string)
    ensures Digits(a + b) == Digits(a) + Digits(b)
    decreases |a|
  {
    if a == [] {
      assert a + b == b;
    } else {
      var ab := a + b;
      assert ab[0] == a[0];
      assert ab[1..] == a[1..] + b;
      DigitsOfConcat(a[1..], b);
      var head := if IsDigit(a[0]) then [a[0]] else [];
      assert Digits(ab) == head + Digits(ab[1..]);
      assert Digits(a) == head + Digits(a[1..]);
      assert head + (Digits(a[1..]) + Digits(b)) == (head + Digits(a[1..])) + Digits(b);
    }
  }

  lemma {:induction false} DigitsOfDigits(s: string)
    requires AllDigits(s)
    ensures Digits(s) == s
    decreases |s|
  {
    if s != [] {
      DigitsOfDigits(s[1..]);
    }
  }

  /**
   * Lines 29-33.  A falsy input gives ''.  Otherwise only the digits are
   * kept; with eleven or more, the first eleven are laid out as
   * `+d (ddd) ddd-dddd` and the rest follow unchanged.
   */
  function FormatPhoneNumber(phone: Option<string>): (r: string)
    ensures phone.None? || phone == Some("") ==> r == ""
    ensures phone.Some? && |Digits(phone.value)| < 11 ==> r == Digits(phone.value)
    ensures phone.Some? && |Digits(phone.value)| >= 11 ==> |r| == |Digits(phone.value)| + 6 && r[0] == '+'
  {
    if phone.None? || phone.value == "" then ""
    else
      var d := Digits(phone.value);
      if |d| < 11 then d
      else LongLayout(d)
  }

  /** The long layout `+d (ddd) ddd-dddd` of the first eleven digits, the rest appended. */
  function LongLayout(d: string): string
    requires |d| >= 11
  {
    "+" + d[..1] + " (" + d[1..4] + ") " + d[4..7] + "-" + d[7..11] + d[11..]
  }

  /** The long layout places each group of digits at fixed positions. */
  lemma PhoneLayout(phone: string)
    requires |Digits(phone)| >= 11
    ensures var d := Digits(phone);
            var r := FormatPhoneNumber(Some(phone));
            && r[..3] == "+" + [d[0]] + " "
            && r[3] == '(' && r[4..7] == d[1..4] && r[7..9] == ") "
            && r[9..12] == d[4..7] && r[12] == '-' && r[13..17] == d[7..11]
            && r[17..] == d[11..]
  {
    LayoutPositions(Digits(phone));
  }

  lemma LayoutPositions(d: string)
    requires |d| >= 11
    ensures var r := LongLayout(d);
            && |r| == |d| + 6
            && r[..3] == "+" + [d[0]] + " "
            && r[3] == '(' && r[4..7] == d[1..4] && r[7..9] == ") "
            && r[9..12] == d[4..7] && r[12] == '-' && r[13..17] == d[7..11]
            && r[17..] == d[11..]
  {
    var head := "+" + d[..1] + " (" + d[1..4] + ") " + d[4..7] + "-" + d[7..11];
    assert |head| == 17;
    var r := LongLayout(d);
    assert r == head + d[11..];
    assert r[..17] == head;
    assert head[..3] == "+" + [d[0]] + " ";
    assert head[4..7] == d[1..4];
    assert head[9..12] == d[4..7];
    assert head[13..17] == d[7..11];
  }

  lemma AppendDigits(s: string, t: string)
    requires AllDigits(t)
    ensures Digits(s + t) == Digits(s) + t
  {
    DigitsOfConcat(s, t);
    DigitsOfDigits(t);
  }

  lemma AppendSeparator(s: string, t: string)
    requires t in {"+", " (", ") ", "-"}
    ensures Digits(s + t) == Digits(s)
  {
    DigitsOfConcat(s, t);
    assert Digits(t) == [];
  }

  /** The separators of the long layout hold no digits, so its digits are `d` again. */
  lemma {:induction false} LayoutDigits(d: string)
    requires |d| >= 11 && AllDigits(d)
    ensures Digits(LongLayout(d)) == d
  {
    var s1 := "+" + d[..1];
    AppendSeparator([], "+");
    assert [] + "+" == "+";
    AppendDigits("+", d[..1]);
    var s2 := s1 + " (";
    AppendSeparator(s1, " (");
    var s3 := s2 + d[1..4];
    AppendDigits(s2, d[1..4]);
    var s4 := s3 + ") ";
    AppendSeparator(s3, ") ");
    var s5 := s4 + d[4..7];
    AppendDigits(s4, d[4..7]);
    var s6 := s5 + "-";
    AppendSeparator(s5, "-");
    var s7 := s6 + d[7..11];
    AppendDigits(s6, d[7..11]);
    AppendDigits(s7, d[11..]);
    assert d[..1] + d[1..4] + d[4..7] + d[7..11] + d[11..] == d;
  }

  /** Deleting everything but digits from the formatted number gives back the input's digits. */
  lemma PhoneKeepsDigits(phone: Option<string>)
    ensures phone.Some? ==> Digits(FormatPhoneNumber(phone)) == Digits(phone.value)
  {
    if phone.Some? && phone.value != "" {
      var d := Digits(phone.value);
      if |d| >= 11 {
        LayoutDigits(d);
      } else {
        DigitsOfDigits(d);
      }
    }
  }

  /** Formatting an already formatted number changes nothing. */
  lemma PhoneFormatIdempotent(phone: string)
    ensures FormatPhoneNumber(Some(FormatPhoneNumber(Some(phone)))) == FormatPhoneNumber(Some(phone))
  {
    PhoneKeepsDigits(Some(phone));
    if phone != "" && |Digits(phone)| < 11 {
      DigitsOfDigits(Digits(phone));
    }
  }

  // ------------------------------------------------------------------ status

  const KnownStatuses: set<string> := {"idle", "initiating", "connected", "disconnected"}

  /** Lines 35-48. */
  function CallStatusText(status: string): (r: string)
    ensures status !in KnownStatuses <==> r == "Unknown status"
  {
    if status == "idle" then "No active call"
    else if status == "initiating" then "Connecting call..."
    else if status == "connected" then "Call in progress"
    else if status == "disconnected" then "Call ended"
    else "Unknown status"
  }

  /** Different known statuses never share a caption. */
  lemma StatusTextsDistinct(a: string, b: string)
    requires a in KnownStatuses && b in KnownStatuses && a != b
    ensures CallStatusText(a) != CallStatusText(b)
  {
  }

  // -------------------------------------------------------------- start call

  /** What submitting the form does: alert, or call `initiateCall(phoneNumber, botId)`. */
  datatype StartCall = Alert(message: string) | Initiate(phoneNumber: string, botId: string)

  /** Lines 8-16. */
  function HandleStartCall(phoneNumber: string, botId: string): (r: StartCall)
    ensures r.Initiate? <==> phoneNumber != "" && botId != ""
    ensures r.Initiate? ==> r.phoneNumber == phoneNumber && r.botId == botId
    ensures r.Alert? ==> r.message == "Please enter both phone number and bot ID"
  {
    if phoneNumber == "" || botId == "" then Alert("Please enter both phone number and bot ID")
    else Initiate(phoneNumber, botId)
  }

  /**
   * The panel's guard and the backend's validation agree: the body
   * `{phoneNumber, botId}` is refused with 400 exactly when the panel would
   * have alerted instead of starting the call.
   */
  lemma StartedCallPassesValidation(phoneNumber: string, botId: string, websocketUrl: Option<string>, guid: string,
                                    urls: Endpoints.UrlLib,
                                    createCall: Endpoints.CallRequest -> Result<Value, string>, connection: Value)
    ensures var body := Object(map["phoneNumber" := Str(phoneNumber), "botId" := Str(botId)]);
            Endpoints.Outbound(body, websocketUrl, guid, urls, createCall, connection).response.status == 400
            <==> HandleStartCall(phoneNumber, botId).Alert?
  {
    var fields := map["phoneNumber" := Str(phoneNumber), "botId" := Str(botId)];
    assert Get(fields, "phoneNumber") == Str(phoneNumber);
    assert Get(fields, "botId") == Str(botId);
  }
}
