/** The ISO 8601 duration codec of the reminder helpers: the subset
    `[-]P[nD][T[nH][nM][nS]]` of the DURATION value type of section 3.3.6 of
    RFC 5545 without the week form. Durations are signed whole seconds
    (`timedelta` values built from whole units). */
module Durations {

  import opened Wrappers
  import opened Strings


  // ---------------------------------------------------------------------
  // Parsing: `ISO_DURATION_PATTERN` and `iso8601_to_timedelta`
  // ---------------------------------------------------------------------

  /** One optional group `(?:(\d+)U)?` of the pattern. The digits and the unit
      letter are taken together or not at all; the letter is compared as
      `re.IGNORECASE` compares it. Yields the group's number (0 when the
      group is absent) and the text after it. A shorter digit run can never
      be followed by the letter, so taking the longest run loses no match. */
  function TakeUnit(t: string, u: char): (r: (nat, string))
    ensures |r.1| <= |t|
    ensures r.1 == t ==> r.0 == 0
  {
    var k := SpanDigits(t);
    SpanDigitsAll(t);
    if 0 < k < |t| && Fold(t[k]) == u then (DigitsValue(t[..k]), t[k + 1..]) else (0, t)
  }

  /** The length of `timedelta(hours=h, minutes=m, seconds=s)` in seconds. */
  function TimeSeconds(hours: nat, minutes: nat, seconds: nat): nat {
    hours * 3600 + minutes * 60 + seconds
  }

  /** The length of `timedelta(days=d, hours=h, minutes=m, seconds=s)` in seconds. */
  function Seconds(days: nat, hours: nat, minutes: nat, seconds: nat): nat {
    days * 86400 + TimeSeconds(hours, minutes, seconds)
  }

  /** What follows the `T`: `(?:(\d+)H)?(?:(\d+)M)?(?:(\d+)S)?$`, as seconds. */
  function MatchTime(t: string): (r: Option<nat>) {
    var h := TakeUnit(t, 'H');
    var m := TakeUnit(h.1, 'M');
    var s := TakeUnit(m.1, 'S');
    if s.1 == [] then Some(TimeSeconds(h.0, m.0, s.0)) else None
  }

  /** What follows the `P`: `(?:(\d+)D)?(?:T...)?$`, as seconds. */
  function MatchAfterP(t: string): (r: Option<nat>) {
    var d := TakeUnit(t, 'D');
    if d.1 == [] then Some(d.0 * 86400)
    else if Fold(d.1[0]) != 'T' then None
    else match MatchTime(d.1[1..])
      case None => None
      case Some(time) => Some(d.0 * 86400 + time)
  }

  /** `ISO_DURATION_PATTERN.fullmatch(t)` followed by the arithmetic of
      `iso8601_to_timedelta`: the optional sign negates the whole duration. */
  function MatchDuration(t: string): (r: Option<int>) {
    var neg := t != [] && t[0] == '-';
    var body := if neg then t[1..] else t;
    if body == [] || Fold(body[0]) != 'P' then None
    else match MatchAfterP(body[1..])
      case None => None
      case Some(v) => var n: int := v; Some(if neg then -n else n)
  }

  /** `iso8601_to_timedelta`: empty input gives None; otherwise the pattern is
      matched against the stripped text. */
  function ParseDuration(duration: string): (r: Option<int>)
    ensures duration == [] ==> r.None?
  {
    if duration == [] then None else MatchDuration(Strip(duration))
  }

  // ---------------------------------------------------------------------
  // Rendering: `timedelta_to_iso8601`
  // ---------------------------------------------------------------------

  function Abs(d: int): nat {
    if d < 0 then -d else d
  }

  /** The `divmod` chain of `timedelta_to_iso8601`: whole days, then hours,
      minutes and seconds of the remainder. */
  function Fields(total: nat): (r: (nat, nat, nat, nat))
    ensures r.1 < 24 && r.2 < 60 && r.3 < 60
    ensures Seconds(r.0, r.1, r.2, r.3) == total
  {
    var days, remainder := total / 86400, total % 86400;
    var hours, remainder2 := remainder / 3600, remainder % 3600;
    (days, hours, remainder2 / 60, remainder2 % 60)
  }

  /** `f"{n}{u}" if n else ""` */
  function UnitPart(n: nat, u: char): string {
    if n == 0 then "" else NatToString(n) + [u]
  }

  /** The text `timedelta_to_iso8601` writes after the `T`: the non-zero
      hour, minute and second parts, or `0S` when the duration has no
      non-zero part at all (empty when only days are non-zero). */
  function TimeText(days: nat, hours: nat, minutes: nat, seconds: nat): string {
    var parts := UnitPart(hours, 'H') + UnitPart(minutes, 'M') + UnitPart(seconds, 'S');
    if days == 0 && parts == "" then "0S" else parts
  }

  /** What `timedelta_to_iso8601` writes after the `P`. */
  function RenderAfterP(days: nat, hours: nat, minutes: nat, seconds: nat): string {
    var time := TimeText(days, hours, minutes, seconds);
    UnitPart(days, 'D') + (if time == "" then "" else "T" + time)
  }

  /** `timedelta_to_iso8601` of a whole number of seconds. */
  function FormatDuration(d: int): string {
    var f := Fields(Abs(d));
    (if d < 0 then "-" else "") + "P" + RenderAfterP(f.0, f.1, f.2, f.3)
  }

  /** `int(delta.total_seconds())`: microseconds truncated toward zero. */
  function TruncateToSeconds(micros: int): (r: int)
    ensures Abs(r) * 1000000 <= Abs(micros) < (Abs(r) + 1) * 1000000
    ensures r == 0 || (r < 0 <==> micros < 0)
  {
    if micros >= 0 then micros / 1000000 else -((-micros) / 1000000)
  }

  /** `timedelta_to_iso8601` as the source writes it, collecting the time
      parts in a list before joining them. */
  method TimedeltaToIso8601(micros: int) returns (r: string)
    ensures r == FormatDuration(TruncateToSeconds(micros))
  {
    var totalSeconds := TruncateToSeconds(micros);
    ghost var d := totalSeconds;
    var sign := if totalSeconds < 0 then "-" else "";
    totalSeconds := Abs(totalSeconds);
    var days, remainder := totalSeconds / 86400, totalSeconds % 86400;
    var hours, remainder2 := remainder / 3600, remainder % 3600;
    var minutes, seconds := remainder2 / 60, remainder2 % 60;
    DivModFields(totalSeconds, days, hours, minutes, seconds);
    var datePart := if days != 0 then NatToString(days) + "D" else "";
    var timePart := CollectTimeParts(datePart, days, hours, minutes, seconds);
    r := sign + "P" + datePart + timePart;
    Assembled(d, sign, datePart, timePart, days, hours, minutes, seconds);
  }

  /** The successive `divmod`s give the fields of the total. */
  lemma DivModFields(total: nat, days: nat, hours: nat, minutes: nat, seconds: nat)
    requires days == total / 86400 && hours == total % 86400 / 3600
    requires minutes == total % 86400 % 3600 / 60 && seconds == total % 86400 % 3600 % 60
    ensures (days, hours, minutes, seconds) == Fields(total)
  {
  }

  /** The time parts appended one by one and joined behind `T`, with the
      `0S` fallback when the duration is zero. */
  method CollectTimeParts(datePart: string, days: nat, hours: nat, minutes: nat, seconds: nat)
    returns (timePart: string)
    requires datePart == (if days != 0 then NatToString(days) + "D" else "")
    ensures datePart == UnitPart(days, 'D')
    ensures var time := TimeText(days, hours, minutes, seconds);
      timePart == if time == "" then "" else "T" + time
  {
    var timeParts: seq<string> := [];
    PushPart(timeParts, "", hours, 'H');
    if hours != 0 {
      timeParts := timeParts + [NatToString(hours) + "H"];
    }
    PushPart(timeParts, UnitPart(hours, 'H'), minutes, 'M');
    if minutes != 0 {
      timeParts := timeParts + [NatToString(minutes) + "M"];
    }
    PushPart(timeParts, UnitPart(hours, 'H') + UnitPart(minutes, 'M'), seconds, 'S');
    if seconds != 0 {
      timeParts := timeParts + [NatToString(seconds) + "S"];
    }
    ZeroPart(timeParts, datePart, days, hours, minutes, seconds);
    if datePart == "" && timeParts == [] {
      timeParts := timeParts + ["0S"];
    }
    timePart := if timeParts != [] then "T" + Join(timeParts) else "";
  }

  /** Appending the part of unit `u` when `n` is non-zero extends the joined
      text by `UnitPart(n, u)`. */
  lemma PushPart(parts: seq<string>, acc: string, n: nat, u: char)
    requires Join(parts) == acc && (parts == [] <==> acc == "")
    ensures var next := if n != 0 then parts + [NatToString(n) + [u]] else parts;
      Join(next) == acc + UnitPart(n, u) && (next == [] <==> acc + UnitPart(n, u) == "")
  {
    if n != 0 {
      JoinSnoc(parts, NatToString(n) + [u]);
    }
  }

  /** The `0S` fallback turns the collected parts into `TimeText`. */
  lemma ZeroPart(parts: seq<string>, datePart: string, days: nat, hours: nat, minutes: nat, seconds: nat)
    requires var acc := UnitPart(hours, 'H') + UnitPart(minutes, 'M') + UnitPart(seconds, 'S');
      Join(parts) == acc && (parts == [] <==> acc == "")
    requires datePart == (if days != 0 then NatToString(days) + "D" else "")
    ensures var next := if datePart == "" && parts == [] then parts + ["0S"] else parts;
      var time := TimeText(days, hours, minutes, seconds);
      datePart == UnitPart(days, 'D')
      && (if next != [] then "T" + Join(next) else "") == (if time == "" then "" else "T" + time)
  {
    if datePart == "" && parts == [] {
      JoinSnoc(parts, "0S");
    }
  }

  /** `''.join(parts)` */
  function Join(parts: seq<string>): string {
    if parts == [] then "" else parts[0] + Join(parts[1..])
  }

  lemma {:induction false} JoinSnoc(parts: seq<string>, p: string)
    ensures Join(parts + [p]) == Join(parts) + p
  {
    if parts != [] {
      assert (parts + [p])[1..] == parts[1..] + [p];
      JoinSnoc(parts[1..], p);
    }
  }

  // ---------------------------------------------------------------------
  // Properties of the codec
  // ---------------------------------------------------------------------

  /** Rendering then parsing gives back every whole-second duration. */
  lemma RoundTrip(d: int)
    ensures ParseDuration(FormatDuration(d)) == Some(d)
  {
    var f := Fields(Abs(d));
    FormatOf(d, f.0, f.1, f.2, f.3);
    AfterPRoundTrip(f.0, f.1, f.2, f.3);
    RenderEndsInUnit(f.0, f.1, f.2, f.3);
    ParseRendered(d < 0, RenderAfterP(f.0, f.1, f.2, f.3), Abs(d), FormatDuration(d), d);
  }

  /** The pieces `timedelta_to_iso8601` glues together make up the rendering. */
  lemma Assembled(d: int, sign: string, datePart: string, timePart: string,
                  days: nat, hours: nat, minutes: nat, seconds: nat)
    requires (days, hours, minutes, seconds) == Fields(Abs(d))
    requires sign == if d < 0 then "-" else ""
    requires datePart == UnitPart(days, 'D')
    requires var time := TimeText(days, hours, minutes, seconds);
      timePart == if time == "" then "" else "T" + time
    ensures sign + "P" + datePart + timePart == FormatDuration(d)
  {
    ConcatAssoc(sign + "P", datePart, timePart);
    FormatOf(d, days, hours, minutes, seconds);
  }

  lemma FormatOf(d: int, days: nat, hours: nat, minutes: nat, seconds: nat)
    requires (days, hours, minutes, seconds) == Fields(Abs(d))
    ensures FormatDuration(d) == (if d < 0 then "-" else "") + "P" + RenderAfterP(days, hours, minutes, seconds)
  {
  }

  lemma ParseRendered(neg: bool, after: string, v: nat, text: string, n: int)
    requires MatchAfterP(after) == Some(v)
    requires after != [] && after[|after| - 1] in "DHMS"
    requires text == (if neg then "-" else "") + "P" + after
    requires n == if neg then -(v as int) else v as int
    ensures ParseDuration(text) == Some(n)
  {
    SignedMatch(neg, after, v);
    assert text[|text| - 1] == after[|after| - 1];
    Unpadded(text);
  }

  /** Text with no whitespace at either end reaches the pattern unchanged. */
  lemma Unpadded(f: string)
    requires f != [] && f[0] in "-P" && f[|f| - 1] in "DHMS"
    ensures ParseDuration(f) == MatchDuration(f)
  {
    StripNoPadding(f);
  }

  /** The sign in front of `P` negates whatever the rest of the text denotes. */
  lemma SignedMatch(neg: bool, after: string, v: nat)
    requires MatchAfterP(after) == Some(v)
    ensures MatchDuration((if neg then "-" else "") + "P" + after) == Some(if neg then -(v as int) else v as int)
  {
    var t := (if neg then "-" else "") + "P" + after;
    if neg {
      assert t[1..] == "P" + after;
    }
    assert ("P" + after)[1..] == after;
  }

  lemma RenderEndsInUnit(days: nat, hours: nat, minutes: nat, seconds: nat)
    ensures var t := RenderAfterP(days, hours, minutes, seconds); t != [] && t[|t| - 1] in "DHMS"
  {
  }

  /** A rendered duration starts with `-` or `P` and ends with a unit letter,
      so `strip()` leaves it alone. */
  lemma StripNoPadding(f: string)
    requires f != [] && !IsSpace(f[0]) && !IsSpace(f[|f| - 1])
    ensures Strip(f) == f
  {
  }

  lemma AfterPRoundTrip(days: nat, hours: nat, minutes: nat, seconds: nat)
    ensures MatchAfterP(RenderAfterP(days, hours, minutes, seconds))
         == Some(Seconds(days, hours, minutes, seconds))
  {
    if TimeText(days, hours, minutes, seconds) == "" {
      DaysOnly(days, hours, minutes, seconds);
    } else {
      WithTime(days, hours, minutes, seconds);
    }
  }

  lemma WithTime(days: nat, hours: nat, minutes: nat, seconds: nat)
    requires TimeText(days, hours, minutes, seconds) != ""
    ensures MatchAfterP(RenderAfterP(days, hours, minutes, seconds))
         == Some(Seconds(days, hours, minutes, seconds))
  {
    var time := TimeText(days, hours, minutes, seconds);
    var split := UnitPart(days, 'D') + ("T" + time);
    assert RenderAfterP(days, hours, minutes, seconds) == split;
    TimeRoundTrip(days, hours, minutes, seconds);
    DayThenTime(days, hours, minutes, seconds, time);
    SameText(RenderAfterP(days, hours, minutes, seconds), split, Seconds(days, hours, minutes, seconds));
  }

  lemma SameText(a: string, b: string, v: nat)
    requires a == b && MatchAfterP(b) == Some(v)
    ensures MatchAfterP(a) == Some(v)
  {
  }

  lemma DaysOnly(days: nat, hours: nat, minutes: nat, seconds: nat)
    requires TimeText(days, hours, minutes, seconds) == ""
    ensures MatchAfterP(RenderAfterP(days, hours, minutes, seconds)) == Some(Seconds(days, hours, minutes, seconds))
  {
    assert days != 0 && hours == 0 && minutes == 0 && seconds == 0;
    assert RenderAfterP(days, hours, minutes, seconds) == NatToString(days) + ['D'] + "";
    TakeUnitOf(days, 'D', "", 'D');
    assert days * 86400 == Seconds(days, hours, minutes, seconds);
  }

  lemma TimeRoundTrip(days: nat, hours: nat, minutes: nat, seconds: nat)
    requires TimeText(days, hours, minutes, seconds) != ""
    ensures MatchTime(TimeText(days, hours, minutes, seconds)) == Some(TimeSeconds(hours, minutes, seconds))
  {
    var parts := UnitPart(hours, 'H') + UnitPart(minutes, 'M') + UnitPart(seconds, 'S');
    if days == 0 && parts == "" {
      ZeroTime();
    } else {
      PartsTime(hours, minutes, seconds);
    }
  }

  lemma DayThenTime(days: nat, hours: nat, minutes: nat, seconds: nat, time: string)
    requires MatchTime(time) == Some(TimeSeconds(hours, minutes, seconds))
    ensures MatchAfterP(UnitPart(days, 'D') + ("T" + time)) == Some(Seconds(days, hours, minutes, seconds))
  {
    var tail := "T" + time;
    var t := UnitPart(days, 'D') + tail;
    if days != 0 {
      TakeUnitOf(days, 'D', tail, 'D');
      assert t == NatToString(days) + ['D'] + tail;
    } else {
      assert t == tail;
    }
    assert tail[1..] == time;
    MatchAfterPSteps(t, days, tail, hours, minutes, seconds);
  }

  lemma MatchAfterPSteps(t: string, days: nat, tail: string, hours: nat, minutes: nat, seconds: nat)
    requires TakeUnit(t, 'D') == (days, tail)
    requires tail != [] && tail[0] == 'T' && MatchTime(tail[1..]) == Some(TimeSeconds(hours, minutes, seconds))
    ensures MatchAfterP(t) == Some(Seconds(days, hours, minutes, seconds))
  {
    AfterPView(t);
  }

  lemma ZeroTime()
    ensures MatchTime("0S") == Some(0)
  {
    assert "0S" == NatToString(0) + ['S'] + "";
    TakeUnitOf(0, 'S', "", 'H');
    TakeUnitOf(0, 'S', "", 'M');
    TakeUnitOf(0, 'S', "", 'S');
  }

  lemma PartsTime(hours: nat, minutes: nat, seconds: nat)
    ensures MatchTime(UnitPart(hours, 'H') + UnitPart(minutes, 'M') + UnitPart(seconds, 'S'))
        == Some(TimeSeconds(hours, minutes, seconds))
  {
    var sPart := UnitPart(seconds, 'S');
    var mPart := UnitPart(minutes, 'M') + sPart;
    var parts := UnitPart(hours, 'H') + mPart;
    assert parts == UnitPart(hours, 'H') + UnitPart(minutes, 'M') + UnitPart(seconds, 'S');
    HourStep(hours, mPart, minutes, seconds);
    MinuteStep(minutes, sPart, seconds);
    SkipOrTake(seconds, 'S', "");
    assert sPart + "" == sPart;
    MatchTimeSteps(parts, hours, mPart, minutes, sPart, seconds);
  }

  lemma HourStep(hours: nat, mPart: string, minutes: nat, seconds: nat)
    requires mPart == UnitPart(minutes, 'M') + UnitPart(seconds, 'S')
    ensures TakeUnit(UnitPart(hours, 'H') + mPart, 'H') == (hours, mPart)
  {
    if hours == 0 {
      MissParts(minutes, seconds, 'H');
    }
    SkipOrTake(hours, 'H', mPart);
  }

  lemma MinuteStep(minutes: nat, sPart: string, seconds: nat)
    requires sPart == UnitPart(seconds, 'S')
    ensures TakeUnit(UnitPart(minutes, 'M') + sPart, 'M') == (minutes, sPart)
  {
    if minutes == 0 {
      MissParts(0, seconds, 'M');
    }
    SkipOrTake(minutes, 'M', sPart);
  }

  lemma MatchTimeSteps(t: string, hours: nat, t2: string, minutes: nat, t3: string, seconds: nat)
    requires TakeUnit(t, 'H') == (hours, t2)
    requires TakeUnit(t2, 'M') == (minutes, t3)
    requires TakeUnit(t3, 'S') == (seconds, "")
    ensures MatchTime(t) == Some(TimeSeconds(hours, minutes, seconds))
  {
  }

  /** A rendered part `nU` is consumed exactly by the group of unit `U` and
      skipped by the group of any other unit. */
  lemma TakeUnitOf(n: nat, v: char, rest: string, u: char)
    requires v in "DHMST" && u in "DHMS"
    ensures TakeUnit(NatToString(n) + [v] + rest, u)
         == if v == u then (n, rest) else (0, NatToString(n) + [v] + rest)
  {
    var t := NatToString(n) + [v] + rest;
    NatToStringSpan(n, [v] + rest);
    assert t == NatToString(n) + ([v] + rest);
    assert t[|NatToString(n)|] == v;
    assert t[|NatToString(n)| + 1..] == rest;
  }

  lemma SkipOrTake(n: nat, u: char, rest: string)
    requires u in "DHMS"
    requires n == 0 ==> TakeUnit(rest, u) == (0, rest)
    ensures TakeUnit(UnitPart(n, u) + rest, u) == (n, rest)
  {
    if n != 0 {
      TakeUnitOf(n, u, rest, u);
      assert UnitPart(n, u) + rest == NatToString(n) + [u] + rest;
    } else {
      assert UnitPart(n, u) + rest == rest;
    }
  }

  lemma MissParts(minutes: nat, seconds: nat, u: char)
    requires u == 'H' || u == 'M'
    requires u == 'M' ==> minutes == 0
    ensures var t := UnitPart(minutes, 'M') + UnitPart(seconds, 'S'); TakeUnit(t, u) == (0, t)
  {
    var t := UnitPart(minutes, 'M') + UnitPart(seconds, 'S');
    if minutes != 0 {
      TakeUnitOf(minutes, 'M', UnitPart(seconds, 'S'), u);
      assert t == NatToString(minutes) + ['M'] + UnitPart(seconds, 'S');
    } else if seconds != 0 {
      TakeUnitOf(seconds, 'S', "", u);
      assert t == NatToString(seconds) + ['S'] + "";
    }
  }

  // ---------------------------------------------------------------------
  // Shape of the rendering
  // ---------------------------------------------------------------------

  /** Zero renders as `PT0S`. */
  lemma FormatZero()
    ensures FormatDuration(0) == "PT0S"
  {
    ZeroPieces(0);
    ZeroText();
  }

  lemma ZeroText()
    ensures "" + "P" + "T0S" == "PT0S"
  {
  }

  lemma ZeroPieces(d: int)
    requires d == 0
    ensures FormatDuration(d) == "" + "P" + "T0S"
  {
    var a := Abs(d);
    assert a == 0;
    assert Fields(a) == Fields(0);
    FormatOf(d, 0, 0, 0, 0);
    RenderZero();
  }

  lemma RenderZero()
    ensures RenderAfterP(0, 0, 0, 0) == "T0S"
  {
    assert TimeText(0, 0, 0, 0) == "0S";
  }

  /** A unit letter occurs in a rendered part exactly when it is that
      part's letter and the part is present. */
  lemma UnitPartHas(n: nat, u: char, c: char)
    requires !IsDigit(c)
    ensures c in UnitPart(n, u) <==> n != 0 && c == u
  {
    if n != 0 {
      var digits := NatToString(n);
      assert c !in digits;
      assert UnitPart(n, u) == digits + [u];
    }
  }

  /** Which letters the time text holds: one per non-zero field, or `S`
      alone for the zero duration. */
  lemma TimeTextHas(days: nat, hours: nat, minutes: nat, seconds: nat, c: char)
    requires !IsDigit(c)
    ensures c in TimeText(days, hours, minutes, seconds)
        <==> ((c == 'H' && hours != 0) || (c == 'M' && minutes != 0)
              || (c == 'S' && (seconds != 0 || (days == 0 && hours == 0 && minutes == 0))))
  {
    UnitPartHas(hours, 'H', c);
    UnitPartHas(minutes, 'M', c);
    UnitPartHas(seconds, 'S', c);
    var parts := UnitPart(hours, 'H') + UnitPart(minutes, 'M') + UnitPart(seconds, 'S');
    assert c in parts <==> c in UnitPart(hours, 'H') || c in UnitPart(minutes, 'M') || c in UnitPart(seconds, 'S');
    assert parts == "" <==> hours == 0 && minutes == 0 && seconds == 0;
  }

  /** Which letters a rendering holds, in terms of its fields. */
  lemma RenderedHas(sign: string, days: nat, hours: nat, minutes: nat, seconds: nat, c: char)
    requires sign == "" || sign == "-"
    requires c in "DHMST"
    ensures c in sign + "P" + RenderAfterP(days, hours, minutes, seconds)
        <==> ((c == 'D' && days != 0) || (c == 'H' && hours != 0) || (c == 'M' && minutes != 0)
              || (c == 'S' && (seconds != 0 || (days == 0 && hours == 0 && minutes == 0)))
              || (c == 'T' && (hours != 0 || minutes != 0 || seconds != 0 || days == 0)))
  {
    var time := TimeText(days, hours, minutes, seconds);
    var tail := if time == "" then "" else "T" + time;
    assert sign + "P" + RenderAfterP(days, hours, minutes, seconds) == sign + "P" + UnitPart(days, 'D') + tail;
    assert c in sign + "P" + UnitPart(days, 'D') + tail <==> c in UnitPart(days, 'D') || c in tail;
    UnitPartHas(days, 'D', c);
    TimeTextHas(days, hours, minutes, seconds, c);
    assert time == "" <==> days != 0 && hours == 0 && minutes == 0 && seconds == 0;
  }

  /** The sign is present exactly for negative durations. */
  lemma FormatSign(d: int)
    ensures FormatDuration(d)[0] == '-' <==> d < 0
  {
    var f := Fields(Abs(d));
    FormatOf(d, f.0, f.1, f.2, f.3);
  }

  lemma FormatHas(d: int, c: char)
    requires c in "DHMST"
    ensures var f := Fields(Abs(d));
      (c in FormatDuration(d))
      <==> ((c == 'D' && f.0 != 0) || (c == 'H' && f.1 != 0) || (c == 'M' && f.2 != 0)
              || (c == 'S' && (f.3 != 0 || (f.0 == 0 && f.1 == 0 && f.2 == 0)))
              || (c == 'T' && (f.1 != 0 || f.2 != 0 || f.3 != 0 || f.0 == 0)))
  {
    var f := Fields(Abs(d));
    var sign := if d < 0 then "-" else "";
    FormatOf(d, f.0, f.1, f.2, f.3);
    RenderedHas(sign, f.0, f.1, f.2, f.3, c);
    SameMembers(FormatDuration(d), sign + "P" + RenderAfterP(f.0, f.1, f.2, f.3), c);
  }

  lemma SameMembers(a: string, b: string, c: char)
    requires a == b
    ensures c in a <==> c in b
  {
  }

  /** Each unit letter is present exactly when its field is non-zero (`S`
      also for zero), and `T` exactly when a time field is non-zero or the
      duration is zero. */
  lemma FormatLetters(d: int)
    ensures var text := FormatDuration(d); var f := Fields(Abs(d));
      && ('D' in text <==> f.0 != 0)
      && ('H' in text <==> f.1 != 0)
      && ('M' in text <==> f.2 != 0)
      && ('S' in text <==> f.3 != 0 || d == 0)
      && ('T' in text <==> f.1 != 0 || f.2 != 0 || f.3 != 0 || d == 0)
  {
    var f := Fields(Abs(d));
    assert f.0 == 0 && f.1 == 0 && f.2 == 0 && f.3 == 0 <==> d == 0;
    FormatHas(d, 'D');
    FormatHas(d, 'H');
    FormatHas(d, 'M');
    FormatHas(d, 'S');
    FormatHas(d, 'T');
  }

  // ---------------------------------------------------------------------
  // What the parser accepts
  // ---------------------------------------------------------------------

  /** Whitespace around the text does not change the result. */
  lemma PaddingIgnored(a: string, s: string, b: string)
    requires AllSpace(a) && AllSpace(b)
    ensures ParseDuration(a + s + b) == ParseDuration(s)
  {
    StripPadded(a, s, b);
    if s == [] {
      StripPadded(a, [], b);
      assert Strip([]) == [];
    } else {
      assert |a + s + b| > 0;
    }
  }

  /** A leading `-` negates whatever the rest denotes, and rejects what the
      rest rejects. */
  lemma SignNegates(t: string)
    requires t == [] || t[0] != '-'
    ensures MatchDuration("-" + t).Some? <==> MatchDuration(t).Some?
    ensures MatchDuration(t).Some? ==> MatchDuration("-" + t).value == -MatchDuration(t).value
  {
    assert ("-" + t)[1..] == t;
  }

  /** Bare `P` is the zero duration. */
  lemma BareP()
    ensures ParseDuration("P") == Some(0)
  {
    StripNoPadding("P");
    MatchP();
  }

  lemma MatchP()
    ensures MatchDuration("P") == Some(0)
  {
    JustEmpty();
    SignedMatch(false, "", 0);
    PText();
  }

  lemma JustEmpty()
    ensures MatchAfterP("") == Some(0)
  {
  }

  lemma PText()
    ensures "" + "P" + "" == "P"
  {
  }

  /** Bare `PT` is the zero duration as well. */
  lemma BarePT()
    ensures ParseDuration("PT") == Some(0)
  {
    StripNoPadding("PT");
    MatchPT();
  }

  lemma MatchPT()
    ensures MatchDuration("PT") == Some(0)
  {
    JustT();
    SignedMatch(false, "T", 0);
    PTText();
  }

  lemma JustT()
    ensures MatchAfterP("T") == Some(0)
  {
  }

  lemma PTText()
    ensures "" + "P" + "T" == "PT"
  {
  }

  // ---------------------------------------------------------------------
  // Case-insensitivity
  // ---------------------------------------------------------------------

  lemma TakeUnitFold(s: string, t: string, u: char)
    requires FoldEq(s, t)
    ensures TakeUnit(s, u).0 == TakeUnit(t, u).0
    ensures FoldEq(TakeUnit(s, u).1, TakeUnit(t, u).1)
  {
    SpanDigitsFold(s, t);
    var k := SpanDigits(s);
    if 0 < k < |s| {
      SpanDigitsAll(s);
      FoldEqSlice(s, t, 0, k);
      DigitsFold(s[..k], t[..k]);
      FoldEqDrop(s, t, k + 1);
    }
  }

  lemma MatchTimeFold(s: string, t: string)
    requires FoldEq(s, t)
    ensures MatchTime(s) == MatchTime(t)
  {
    TakeUnitFold(s, t, 'H');
    var h := TakeUnit(s, 'H').1;
    var h' := TakeUnit(t, 'H').1;
    TakeUnitFold(h, h', 'M');
    TakeUnitFold(TakeUnit(h, 'M').1, TakeUnit(h', 'M').1, 'S');
  }

  /** `MatchAfterP` as a function of what the days group leaves behind. */
  function AfterPResult(days: nat, atEnd: bool, atT: bool, time: Option<nat>): Option<nat> {
    if atEnd then Some(days * 86400)
    else if !atT then None
    else match time
      case None => None
      case Some(v) => Some(days * 86400 + v)
  }

  lemma AfterPView(s: string)
    ensures var d := TakeUnit(s, 'D');
      MatchAfterP(s) == AfterPResult(d.0, d.1 == [], d.1 != [] && Fold(d.1[0]) == 'T',
                                     if d.1 == [] then None else MatchTime(d.1[1..]))
  {
  }

  lemma MatchAfterPFold(s: string, t: string)
    requires FoldEq(s, t)
    ensures MatchAfterP(s) == MatchAfterP(t)
  {
    TakeUnitFold(s, t, 'D');
    var d := TakeUnit(s, 'D').1;
    var d' := TakeUnit(t, 'D').1;
    if d != [] {
      FoldEqDrop(d, d', 1);
      MatchTimeFold(d[1..], d'[1..]);
      assert Fold(d[0]) == Fold(d'[0]);
    }
    AfterPView(s);
    AfterPView(t);
  }

  /** `MatchDuration` as a function of the sign and what follows the `P`. */
  function DurationResult(neg: bool, isP: bool, after: Option<nat>): Option<int> {
    if !isP then None
    else match after
      case None => None
      case Some(v) => var n: int := v; Some(if neg then -n else n)
  }

  lemma DurationView(s: string)
    ensures var neg := s != [] && s[0] == '-';
      var body := if neg then s[1..] else s;
      MatchDuration(s) == DurationResult(neg, body != [] && Fold(body[0]) == 'P',
                                         if body == [] then None else MatchAfterP(body[1..]))
  {
  }

  lemma MatchDurationFold(s: string, t: string)
    requires FoldEq(s, t)
    ensures MatchDuration(s) == MatchDuration(t)
  {
    if s != [] {
      if s[0] == '-' {
        FoldFixed(s[0], t[0]);
      } else if t[0] == '-' {
        FoldFixed(t[0], s[0]);
      }
      var i := if s[0] == '-' then 1 else 0;
      FoldEqDrop(s, t, i);
      var b := s[i..];
      var b' := t[i..];
      if b != [] {
        FoldEqDrop(b, b', 1);
        MatchAfterPFold(b[1..], b'[1..]);
        assert Fold(b[0]) == Fold(b'[0]);
      }
    }
    DurationView(s);
    DurationView(t);
  }

  /** Texts that are equal when case is ignored parse alike. */
  lemma ParseFold(s: string, t: string)
    requires FoldEq(s, t)
    ensures ParseDuration(s) == ParseDuration(t)
  {
    StripFold(s, t);
    MatchDurationFold(Strip(s), Strip(t));
  }

  /** The pattern is case-insensitive: upper-casing changes nothing. */
  lemma CaseInsensitive(s: string)
    ensures ParseDuration(AsciiUpper(s)) == ParseDuration(s)
  {
    UpperFold(s);
    ParseFold(AsciiUpper(s), s);
  }
}
