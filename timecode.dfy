/** The two `formatTime` closures of lib/json-2-srt-deegram.ts and
    lib/json-2-srt-openai.ts, which turn a time in seconds into the SubRip
    timestamp `HH:MM:SS,mmm`, computed on exact reals, and a timestamp parser
    that serves as their partner: parsing a formatted time gives back the
    time to within half a millisecond. */
module Timecode {
  import opened Wrappers
  import opened Text

  // ---------------------------------------------------------------------
  // JavaScript number operations

  /** `Math.floor`. */
  function Floor(x: real): int {
    x.Floor
  }

  /** Truncation toward zero. */
  function Trunc(x: real): int {
    if x >= 0.0 then x.Floor else -((-x).Floor)
  }

  /** `a % b` on numbers: the remainder of the truncating division, which
      has the sign of `a`. */
  function JsRem(a: real, b: real): real
    requires b > 0.0
  {
    a - b * (Trunc(a / b) as real)
  }

  /** `a % b` on integral numbers. */
  function JsIntRem(a: int, b: int): int
    requires b > 0
  {
    if a >= 0 then a % b else -((-a) % b)
  }

  /** `Math.round`: to the nearest integer, halves toward positive infinity. */
  function JsRound(x: real): int {
    (x + 0.5).Floor
  }

  // ---------------------------------------------------------------------
  // The two formatters

  datatype Fields = Fields(hours: int, minutes: int, seconds: int, millis: int)

  /** The four numbers both closures compute from the time `s` (lines 7-10
      and 16-18): hours, minutes, seconds and rounded milliseconds. */
  function RawFields(s: real): Fields {
    Fields(
      Floor(s / 3600.0),
      Floor(JsRem(s, 3600.0) / 60.0),
      Floor(JsRem(s, 60.0)),
      JsRound((s - Floor(s) as real) * 1000.0))
  }

  /** The fields after the overflow handling of lib/json-2-srt-deegram.ts
      (lines 13-14): a whole second of rounded milliseconds is added to the
      seconds field and nowhere else. */
  function CarriedFields(s: real): Fields {
    var f := RawFields(s);
    Fields(f.hours, f.minutes, f.seconds + Floor(f.millis as real / 1000.0), JsIntRem(f.millis, 1000))
  }

  /** `String(n).padStart(width, "0")`. */
  function Padded(n: int, width: nat): string {
    PadStart(IntToString(n), width, '0')
  }

  /** `[h, m, s].join(":") + "," + ms`, each field zero-padded. */
  function Render(f: Fields): string {
    Join([Padded(f.hours, 2), Padded(f.minutes, 2), Padded(f.seconds, 2)], ':') + "," + Padded(f.millis, 3)
  }

  /** `formatTime` of lib/json-2-srt-deegram.ts. */
  function FormatTimeCarrySeconds(s: real): string {
    Render(CarriedFields(s))
  }

  /** `formatTime` of lib/json-2-srt-openai.ts, which carries nothing. */
  function FormatTimeNoCarry(s: real): string {
    Render(RawFields(s))
  }

  // ---------------------------------------------------------------------
  // The partner: a timestamp parser

  /** Reads `H:M:S,F` with decimal fields of any length as
      `H*3600 + M*60 + S + F/1000` seconds. */
  function ParseTimestamp(t: string): Option<real> {
    var parts := Split(t, ':');
    if |parts| != 3 then None
    else
      var last := Split(parts[2], ',');
      if |last| != 2 then None
      else
        var h, m, sec, ms := ParseNat(parts[0]), ParseNat(parts[1]), ParseNat(last[0]), ParseNat(last[1]);
        if h.None? || m.None? || sec.None? || ms.None? then None
        else Some((h.value * 3600 + m.value * 60 + sec.value) as real + ms.value as real / 1000.0)
  }

  // ---------------------------------------------------------------------
  // Arithmetic facts about the fields

  lemma FloorOfQuotient(x: real, n: int)
    requires x >= 0.0 && (n == 60 || n == 3600)
    ensures Floor(x / n as real) == Floor(x) / n
  {
    var k := Floor(x);
    var q := k / n;
    assert q * n <= k < q * n + n;
    if n == 60 {
      assert (q * 60) as real <= x < (q * 60 + 60) as real;
      assert q as real <= x / 60.0 < q as real + 1.0;
    } else {
      assert (q * 3600) as real <= x < (q * 3600 + 3600) as real;
      assert q as real <= x / 3600.0 < q as real + 1.0;
    }
  }

  lemma RemOfNonNegative(x: real, n: int)
    requires x >= 0.0 && (n == 60 || n == 3600)
    ensures JsRem(x, n as real) >= 0.0
    ensures Floor(JsRem(x, n as real)) == Floor(x) % n
  {
    FloorOfQuotient(x, n);
    var q := Floor(x) / n;
    assert Trunc(x / n as real) == q;
    assert JsRem(x, n as real) == x - (n * q) as real;
  }

  lemma DigitsOfSeconds(k: int)
    requires k >= 0
    ensures (k / 3600) * 3600 + ((k % 3600) / 60) * 60 + k % 60 == k
    ensures 0 <= (k % 3600) / 60 < 60
  {
    var r := k % 3600;
    assert k == (k / 3600) * 3600 + r;
    assert r == (r / 60) * 60 + r % 60;
    assert k % 60 == r % 60 by {
      assert k == ((k / 3600) * 60) * 60 + r;
    }
  }

  /** For a non-negative time the raw fields are the hours, the minutes
      and seconds within them, and the milliseconds rounded half-up: minutes
      and seconds lie in [0, 59], milliseconds in [0, 1000] (1000 when the
      fraction rounds up to a whole second), and the fields add up to the
      time to within half a millisecond. */
  lemma RawFieldsOfNonNegative(s: real)
    requires s >= 0.0
    ensures var f := RawFields(s);
      && f.hours == Floor(s) / 3600 && f.hours >= 0
      && 0 <= f.minutes < 60 && 0 <= f.seconds < 60 && 0 <= f.millis <= 1000
      && f.hours * 3600 + f.minutes * 60 + f.seconds == Floor(s)
      && -0.5 < f.millis as real - (s - Floor(s) as real) * 1000.0 <= 0.5
  {
    var k := Floor(s);
    FloorOfQuotient(s, 3600);
    RemOfNonNegative(s, 3600);
    RemOfNonNegative(s, 60);
    var r1 := JsRem(s, 3600.0);
    FloorOfQuotient(r1, 60);
    DigitsOfSeconds(k);
    var frac := s - k as real;
    assert 0.0 <= frac < 1.0;
  }

  /** After the carry of lib/json-2-srt-deegram.ts the milliseconds lie in
      [0, 999] and the seconds in [0, 60]: 60 exactly when 59 whole seconds
      meet a fraction that rounds up to a full second, since the minutes
      and hours never receive the carry. The time the fields denote is
      unchanged by the carry. */
  lemma CarriedFieldsOfNonNegative(s: real)
    requires s >= 0.0
    ensures var raw, f := RawFields(s), CarriedFields(s);
      && f.hours == raw.hours && f.minutes == raw.minutes
      && 0 <= f.millis <= 999 && 0 <= f.seconds <= 60
      && (f.seconds == 60 <==> raw.seconds == 59 && raw.millis == 1000)
      && (f.hours * 3600 + f.minutes * 60 + f.seconds) as real + f.millis as real / 1000.0
         == (raw.hours * 3600 + raw.minutes * 60 + raw.seconds) as real + raw.millis as real / 1000.0
  {
    RawFieldsOfNonNegative(s);
    var raw := RawFields(s);
    if raw.millis == 1000 {
      assert Floor(raw.millis as real / 1000.0) == 1;
    } else {
      assert Floor(raw.millis as real / 1000.0) == 0;
    }
  }

  // ---------------------------------------------------------------------
  // Round trips

  /** `H:M:S,F` made of four non-empty digit strings parses field by field. */
  lemma FieldsParse(h: string, m: string, sec: string, ms: string, vh: nat, vm: nat, vs: nat, vms: nat, t: string)
    requires ParseNat(h) == Some(vh) && ParseNat(m) == Some(vm)
    requires ParseNat(sec) == Some(vs) && ParseNat(ms) == Some(vms)
    requires t == Join([h, m, sec], ':') + "," + ms
    ensures ParseTimestamp(t) == Some((vh * 3600 + vm * 60 + vs) as real + vms as real / 1000.0)
  {
    var tail := sec + [','] + ms;
    SplitFields(h, m, sec, ms);
    var parts := Split(t, ':');
    assert parts == [h, m, tail];
    assert parts[2] == tail;
    var last := Split(parts[2], ',');
    assert last == [sec, ms];
    assert parts[0] == h && parts[1] == m && last[0] == sec && last[1] == ms;
  }

  lemma SplitFields(h: string, m: string, sec: string, ms: string)
    requires AllDigits(h) && AllDigits(m) && AllDigits(sec) && AllDigits(ms)
    ensures Split(Join([h, m, sec], ':') + "," + ms, ':') == [h, m, sec + [','] + ms]
    ensures Split(sec + [','] + ms, ',') == [sec, ms]
  {
    assert !IsDigit(':') && !IsDigit(',');
    assert ':' !in h && ':' !in m && ':' !in sec && ':' !in ms && ',' !in sec && ',' !in ms;
    var tail := sec + [','] + ms;
    assert [h, m, sec][1..] == [m, sec];
    assert [m, sec][1..] == [sec];
    assert [h, m, tail][1..] == [m, tail];
    assert [m, tail][1..] == [tail];
    assert Join([sec], ':') == sec && Join([tail], ':') == tail;
    assert Join([m, sec], ':') == m + [':'] + sec;
    assert Join([m, tail], ':') == m + [':'] + tail;
    assert Join([h, m, sec], ':') == h + [':'] + (m + [':'] + sec);
    assert Join([h, m, tail], ':') == h + [':'] + (m + [':'] + tail);
    assert Join([h, m, sec], ':') + "," + ms == Join([h, m, tail], ':');
    assert [sec, ms][1..] == [ms];
    assert tail == Join([sec, ms], ',');
    NoSeparatorInJoin([sec, ms], ',', ':');
    SplitJoin([h, m, tail], ':');
    SplitJoin([sec, ms], ',');
  }

  lemma PaddedValue(n: int, width: nat)
    requires n >= 0
    ensures ParseNat(Padded(n, width)) == Some(n)
  {
    assert IntToString(n) == NatToString(n);
    PaddedNatValue(n, width);
  }

  /** A rendering of non-negative fields parses back to the time they denote. */
  lemma RenderParses(f: Fields, vh: nat, vm: nat, vs: nat, vms: nat)
    requires f == Fields(vh, vm, vs, vms)
    ensures ParseTimestamp(Render(f)) == Some((vh * 3600 + vm * 60 + vs) as real + vms as real / 1000.0)
  {
    PaddedValue(vh, 2);
    PaddedValue(vm, 2);
    PaddedValue(vs, 2);
    PaddedValue(vms, 3);
    FieldsParse(Padded(vh, 2), Padded(vm, 2), Padded(vs, 2), Padded(vms, 3), vh, vm, vs, vms, Render(f));
  }

  /** Parsing the timestamp of lib/json-2-srt-deegram.ts gives back a
      non-negative time to within half a millisecond. */
  lemma CarrySecondsRoundTrip(s: real)
    requires s >= 0.0
    ensures ParseTimestamp(FormatTimeCarrySeconds(s)).Some?
    ensures -0.0005 < ParseTimestamp(FormatTimeCarrySeconds(s)).value - s <= 0.0005
  {
    RawFieldsOfNonNegative(s);
    CarriedFieldsOfNonNegative(s);
    var f := CarriedFields(s);
    RenderParses(f, f.hours, f.minutes, f.seconds, f.millis);
  }

  /** Parsing the timestamp of lib/json-2-srt-openai.ts gives back a
      non-negative time to within half a millisecond: a four-digit `1000`
      millisecond field still reads as a whole second. */
  lemma NoCarryRoundTrip(s: real)
    requires s >= 0.0
    ensures ParseTimestamp(FormatTimeNoCarry(s)).Some?
    ensures -0.0005 < ParseTimestamp(FormatTimeNoCarry(s)).value - s <= 0.0005
  {
    RawFieldsOfNonNegative(s);
    var f := RawFields(s);
    RenderParses(f, f.hours, f.minutes, f.seconds, f.millis);
  }

  // ---------------------------------------------------------------------
  // Shape of a timestamp

  /** Renders fields whose padded forms are known. */
  lemma RenderOfPadded(f: Fields, h: string, m: string, sec: string, ms: string)
    requires Padded(f.hours, 2) == h && Padded(f.minutes, 2) == m
    requires Padded(f.seconds, 2) == sec && Padded(f.millis, 3) == ms
    ensures Render(f) == h + ":" + m + ":" + sec + "," + ms
  {
    JoinThree(h, m, sec, ':');
  }

  /** A character of a timestamp: a digit, a minus sign or a separator. */
  predicate IsStampChar(c: char) {
    IsDigit(c) || c == '-' || c == ':' || c == ','
  }

  predicate IsStampText(s: string) {
    forall i :: 0 <= i < |s| ==> IsStampChar(s[i])
  }

  lemma StampConcat(a: string, b: string)
    requires IsStampText(a) && IsStampText(b)
    ensures IsStampText(a + b)
  {
    forall i | 0 <= i < |a + b|
      ensures IsStampChar((a + b)[i])
    {
      if i >= |a| {
        assert (a + b)[i] == b[i - |a|];
      }
    }
  }

  lemma PaddedShape(n: int, width: nat)
    ensures Padded(n, width) != [] && IsStampText(Padded(n, width))
    ensures IsDigit(Padded(n, width)[|Padded(n, width)| - 1])
  {
    var d := NatToString(if n < 0 then -n else n);
    var s := IntToString(n);
    if n < 0 {
      assert s == "-" + d;
      StampConcat("-", d);
    }
    assert IsStampText(s) && s[|s| - 1] == d[|d| - 1];
    if |s| < width {
      var z := Repeat('0', width - |s|);
      assert Padded(n, width) == z + s;
      StampConcat(z, s);
    }
  }

  lemma JoinedShape(h: string, m: string, sec: string, ms: string)
    requires IsStampText(h) && IsStampText(m) && IsStampText(sec) && IsStampText(ms)
    requires ms != [] && IsDigit(ms[|ms| - 1])
    ensures var t := Join([h, m, sec], ':') + "," + ms;
      t != [] && IsStampText(t) && IsDigit(t[|t| - 1])
  {
    JoinThree(h, m, sec, ':');
    StampConcat(h, ":");
    StampConcat(h + ":", m);
    StampConcat(h + ":" + m, ":");
    StampConcat(h + ":" + m + ":", sec);
    StampConcat(h + ":" + m + ":" + sec, ",");
    var front := h + ":" + m + ":" + sec + ",";
    StampConcat(front, ms);
    assert Join([h, m, sec], ':') + "," + ms == front + ms;
    assert (front + ms)[|front + ms| - 1] == ms[|ms| - 1];
  }

  /** Every timestamp either formatter produces, for any time, is a
      non-empty run of digits, minus signs, colons and a comma that ends in
      a digit: it holds no space and no line break. */
  lemma RenderShape(f: Fields)
    ensures Render(f) != [] && IsStampText(Render(f))
    ensures IsDigit(Render(f)[|Render(f)| - 1])
  {
    PaddedShape(f.hours, 2);
    PaddedShape(f.minutes, 2);
    PaddedShape(f.seconds, 2);
    PaddedShape(f.millis, 3);
    JoinedShape(Padded(f.hours, 2), Padded(f.minutes, 2), Padded(f.seconds, 2), Padded(f.millis, 3));
  }

  /** So a timestamp contains no space and no line feed, and its last
      character is not whitespace. */
  lemma StampHasNoBlank(f: Fields)
    ensures ' ' !in Render(f) && '\n' !in Render(f)
    ensures Render(f) != [] && !IsJsWhitespace(Render(f)[|Render(f)| - 1])
  {
    RenderShape(f);
    StampTextHasNoBlank(Render(f));
  }

  lemma StampTextHasNoBlank(t: string)
    requires t != [] && IsStampText(t) && IsDigit(t[|t| - 1])
    ensures ' ' !in t && '\n' !in t && !IsJsWhitespace(t[|t| - 1])
  {
    assert !IsStampChar(' ') && !IsStampChar('\n');
  }

  // ---------------------------------------------------------------------
  // Examples

  /** lib/json-2-srt-deegram.ts carries a rounded-up second into the
      seconds field only: just under a minute gives 60 seconds, and just
      under an hour gives minute 59 with 60 seconds rather than the next
      hour. */
  lemma CarryStopsAtSeconds()
    ensures CarriedFields(59.9996) == Fields(0, 0, 60, 0)
    ensures CarriedFields(3599.9996) == Fields(0, 59, 60, 0)
    ensures Padded(60, 2) == "60"
  {
    assert RawFields(59.9996) == Fields(0, 0, 59, 1000);
    assert RawFields(3599.9996) == Fields(0, 59, 59, 1000);
  }

  /** lib/json-2-srt-openai.ts does not carry: a fraction that rounds up to
      a whole second becomes a four-digit millisecond field. */
  lemma NoCarryGivesThousandMillis()
    ensures RawFields(0.9996) == Fields(0, 0, 0, 1000)
    ensures Padded(1000, 3) == "1000"
  {
  }

  /** A negative time is not rejected: the truncating `%` and the flooring
      divisions give negative fields, which `String` prints with a minus
      sign. */
  lemma NegativeTime()
    ensures RawFields(-1.5) == Fields(-1, -1, -2, 500)
  {
    assert Trunc(-1.5 / 3600.0) == 0;
    assert Trunc(-1.5 / 60.0) == 0;
    assert Floor(-1.5) == -2;
  }
}
