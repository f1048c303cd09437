/** The validators of the API's path and query parameters: the UID path
    parameter (length bounds, no blank UID, no URL-reserved characters,
    surrounding whitespace stripped) and the datetime range of the event
    queries (both ends in ISO format, the end strictly after the start). */
module ApiParams {

  import opened Wrappers
  import opened Strings
  import opened Values

  // ---------------------------------------------------------------------
  // `UidParam`
  // ---------------------------------------------------------------------

  const MinUidLength := 1
  const MaxUidLength := 255

  /** The characters a UID may not contain, in the order they are checked. */
  const InvalidUidChars: seq<char> :=
    ['/', '\\', '?', '#', '[', ']', '@', '!', '$', '&', '\'', '(', ')', '*', '+', ',', ';', '=']

  const UidBlankMessage := "UID cannot be empty or whitespace only"
  const UidTooShortMessage := "String should have at least 1 character"
  const UidTooLongMessage := "String should have at most 255 characters"

  function InvalidCharMessage(c: char): string {
    "UID contains invalid character: '" + [c] + "'"
  }

  /** No listed character occurs in `v`. */
  predicate FreeOfInvalid(v: string) {
    forall i :: 0 <= i < |InvalidUidChars| ==> InvalidUidChars[i] !in v
  }

  /** The position in `chars`, from `from` on, of the first character that
      occurs in `v`: the loop over the list stops at the first hit. */
  function FirstListed(chars: seq<char>, v: string, from: nat): (r: Option<nat>)
    requires from <= |chars|
    ensures r.None? <==> forall i :: from <= i < |chars| ==> chars[i] !in v
    ensures r.Some? ==> from <= r.value < |chars| && chars[r.value] in v
                        && forall i :: from <= i < r.value ==> chars[i] !in v
    decreases |chars| - from
  {
    if from == |chars| then None
    else if chars[from] in v then Some(from)
    else FirstListed(chars, v, from + 1)
  }

  /** `UidParam(uid=v)`: the length bounds of the field come first, then
      `validate_uid_format` — blank text, then the first listed character
      present — and an accepted UID is returned stripped. */
  function ValidateUid(v: string): (r: Result<string>)
    ensures |v| < MinUidLength ==> r == Err(ValueError(UidTooShortMessage))
    ensures |v| > MaxUidLength ==> r == Err(ValueError(UidTooLongMessage))
  {
    if |v| < MinUidLength then Err(ValueError(UidTooShortMessage))
    else if |v| > MaxUidLength then Err(ValueError(UidTooLongMessage))
    else if Strip(v) == "" then Err(ValueError(UidBlankMessage))
    else match FirstListed(InvalidUidChars, v, 0)
      case Some(i) => Err(ValueError(InvalidCharMessage(InvalidUidChars[i])))
      case None => Ok(Strip(v))
  }

  /** `strip()` leaves nothing exactly when the text is all whitespace. */
  lemma StripEmptyIffSpace(v: string)
    ensures Strip(v) == "" <==> AllSpace(v)
  {
    StripInfix(v);
    var k := StripStart(v);
    if Strip(v) == "" {
      forall i | 0 <= i < |v| ensures IsSpace(v[i]) {
        assert v[i] == v[..k][i];
      }
    } else {
      assert Strip(v)[0] == v[k];
    }
  }

  /** The steps of `ValidateUid` that let a UID through. */
  lemma UidOkSteps(v: string)
    ensures ValidateUid(v).Ok? <==>
            MinUidLength <= |v| <= MaxUidLength && Strip(v) != "" && FirstListed(InvalidUidChars, v, 0).None?
  {
  }

  /** The list holds none of the characters of `v` exactly when the search
      finds nothing. */
  lemma FirstListedNone(v: string)
    ensures FirstListed(InvalidUidChars, v, 0).None? <==> FreeOfInvalid(v)
  {
  }

  /** A UID is accepted exactly when it has 1 to 255 characters, is not all
      whitespace and holds none of the listed characters. */
  lemma UidAcceptedIff(v: string)
    ensures ValidateUid(v).Ok? <==>
            MinUidLength <= |v| <= MaxUidLength && !AllSpace(v) && FreeOfInvalid(v)
  {
    UidOkSteps(v);
    FirstListedNone(v);
    StripEmptyIffSpace(v);
  }

  /** A blank UID of allowed length is refused with the blank message. */
  lemma UidBlankRefused(v: string)
    requires MinUidLength <= |v| <= MaxUidLength && AllSpace(v)
    ensures ValidateUid(v) == Err(ValueError(UidBlankMessage))
  {
    StripEmptyIffSpace(v);
  }

  /** A UID of allowed length, not blank, holding a listed character is
      refused naming the first such character in list order. */
  lemma UidInvalidCharNamed(v: string)
    requires MinUidLength <= |v| <= MaxUidLength && !AllSpace(v) && !FreeOfInvalid(v)
    ensures exists i :: 0 <= i < |InvalidUidChars| && InvalidUidChars[i] in v
                        && (forall j :: 0 <= j < i ==> InvalidUidChars[j] !in v)
                        && ValidateUid(v) == Err(ValueError(InvalidCharMessage(InvalidUidChars[i])))
  {
    assert Strip(v) != "" by { StripEmptyIffSpace(v); }
    assert FirstListed(InvalidUidChars, v, 0).Some? by { FirstListedNone(v); }
    var i := FirstListed(InvalidUidChars, v, 0).value;
    UidListedStep(v, i);
    assert InvalidUidChars[i] in v && forall j :: 0 <= j < i ==> InvalidUidChars[j] !in v;
  }

  lemma UidListedStep(v: string, i: nat)
    requires MinUidLength <= |v| <= MaxUidLength && Strip(v) != ""
    requires FirstListed(InvalidUidChars, v, 0) == Some(i)
    ensures i < |InvalidUidChars| && ValidateUid(v) == Err(ValueError(InvalidCharMessage(InvalidUidChars[i])))
  {
  }

  /** Every character of `strip()`'s result is a character of its argument. */
  lemma StripChars(v: string)
    ensures forall j :: 0 <= j < |Strip(v)| ==> Strip(v)[j] in v
  {
    StripInfix(v);
    var u := Strip(v);
    var k := StripStart(v);
    forall j | 0 <= j < |u| ensures u[j] in v {
      assert u[j] == v[k..k + |u|][j] == v[k + j];
    }
  }

  /** `strip()` of stripped text changes nothing. */
  lemma StripIdempotent(v: string)
    ensures Strip(Strip(v)) == Strip(v)
  {
    var u := Strip(v);
    assert LStrip(u) == u;
    assert RStrip(u) == u;
  }

  /** An accepted UID is the input stripped: non-empty, at most 255
      characters, no whitespace at either end and none of the listed
      characters. */
  lemma UidAcceptedShape(v: string)
    requires ValidateUid(v).Ok?
    ensures var u := ValidateUid(v).value;
            u == Strip(v) && u != "" && |u| <= MaxUidLength && FreeOfInvalid(u)
            && !IsSpace(u[0]) && !IsSpace(u[|u| - 1])
  {
    var u := Strip(v);
    assert u != "" && |v| <= MaxUidLength && ValidateUid(v).value == u by {
      UidOkSteps(v);
    }
    assert FreeOfInvalid(u) by {
      assert FreeOfInvalid(v) by {
        UidOkSteps(v);
        FirstListedNone(v);
      }
      StripChars(v);
      FreeOfInvalidKept(v, u);
    }
  }

  /** Text made of characters of a UID free of the listed ones is free of
      them too. */
  lemma FreeOfInvalidKept(v: string, u: string)
    requires FreeOfInvalid(v)
    requires forall j :: 0 <= j < |u| ==> u[j] in v
    ensures FreeOfInvalid(u)
  {
  }

  /** Validating an accepted UID again gives it back unchanged. */
  lemma UidIdempotent(v: string)
    requires ValidateUid(v).Ok?
    ensures ValidateUid(ValidateUid(v).value) == ValidateUid(v)
  {
    var u := ValidateUid(v).value;
    UidAcceptedShape(v);
    StripIdempotent(v);
    StripEmptyIffSpace(u);
    UidAcceptedIff(u);
  }

  // ---------------------------------------------------------------------
  // `DateTimeRangeParams` and `EventsQueryParams`
  // ---------------------------------------------------------------------

  const EndBeforeStartMessage := "end_datetime must be after start_datetime"
  const MixedComparisonMessage := "can't compare offset-naive and offset-aware datetimes"

  function InvalidDatetimeMessage(v: string): string {
    "Invalid datetime format: " + v + ". Expected ISO format (YYYY-MM-DDTHH:MM:SS)"
  }

  /** `validate_datetime_format`: the text is kept when `fromisoformat`
      reads it and refused with the format message otherwise. */
  function ValidateDatetimeFormat(p: Platform, v: string): (r: Result<string>)
    ensures r.Ok? <==> p.fromIso(v).Some?
    ensures r.Ok? ==> r.value == v
    ensures r.Err? ==> r.error.ValueError? && OccursAt(r.error.message, v, 25)
  {
    OccursBetween("Invalid datetime format: ", v, ". Expected ISO format (YYYY-MM-DDTHH:MM:SS)");
    if p.fromIso(v).Some? then Ok(v) else Err(ValueError(InvalidDatetimeMessage(v)))
  }

  /** The instant an aware `datetime` stands for, in UTC seconds. */
  function UtcSeconds(p: Platform, d: DateTime): int
    requires d.Aware()
  {
    d.wall - p.utcOffset(d)
  }

  /** Both naive, or both aware: the two can be ordered. */
  predicate Comparable(a: DateTime, b: DateTime) {
    a.Aware() == b.Aware()
  }

  /** `a < b` on `datetime`: naive values by wall clock, aware ones by the
      instant; ordering a naive value against an aware one raises. */
  predicate Before(p: Platform, a: DateTime, b: DateTime)
    requires Comparable(a, b)
  {
    if a.Aware() then UtcSeconds(p, a) < UtcSeconds(p, b) else a.wall < b.wall
  }

  /** `end_dt <= start_dt`, with the `TypeError` of a naive/aware mix. */
  function NotAfter(p: Platform, start: DateTime, end: DateTime): (r: Result<bool>)
    ensures r.Err? <==> !Comparable(start, end)
    ensures r.Ok? ==> (r.value <==> !Before(p, start, end))
  {
    if !Comparable(start, end) then Err(TypeError(MixedComparisonMessage))
    else if start.Aware() then Ok(UtcSeconds(p, end) <= UtcSeconds(p, start))
    else Ok(end.wall <= start.wall)
  }

  /** `validate_end_after_start`: `values` are the fields validated so far.
      Without a valid start nothing is compared; otherwise both texts are
      read again and the end must come strictly after the start. */
  function ValidateEndAfterStart(p: Platform, v: string, values: map<string, string>): (r: Result<string>)
    ensures "start_datetime" !in values ==> r == Ok(v)
    ensures r.Ok? ==> r.value == v
    ensures "start_datetime" in values && p.fromIso(values["start_datetime"]).Some? && p.fromIso(v).Some? ==>
              var s, e := p.fromIso(values["start_datetime"]).value, p.fromIso(v).value;
              (r.Ok? <==> Comparable(s, e) && Before(p, s, e))
              && (Comparable(s, e) && !Before(p, s, e) ==> r == Err(ValueError(EndBeforeStartMessage)))
  {
    if "start_datetime" !in values then Ok(v)
    else
      var startText := values["start_datetime"];
      match p.fromIso(startText)
      case None => Err(IsoFormatError(startText))
      case Some(s) =>
        match p.fromIso(v)
        case None => Err(IsoFormatError(v))
        case Some(e) =>
          match NotAfter(p, s, e)
          case Err(err) => Err(err)
          case Ok(notAfter) => if notAfter then Err(ValueError(EndBeforeStartMessage)) else Ok(v)
  }

  /** A range query `(start_datetime, end_datetime)`: the start field is
      validated first; the end field is then checked for format and, when
      the start was valid, for coming after it. The first error is the
      answer. */
  function ValidateRange(p: Platform, start: string, end: string): (r: Result<(string, string)>)
    ensures p.fromIso(start).None? ==> r == Err(ValueError(InvalidDatetimeMessage(start)))
    ensures p.fromIso(start).Some? && p.fromIso(end).None? ==> r == Err(ValueError(InvalidDatetimeMessage(end)))
    ensures r.Ok? ==> r.value == (start, end)
  {
    match ValidateDatetimeFormat(p, start)
    case Err(err) => Err(err)
    case Ok(s) =>
      match ValidateDatetimeFormat(p, end)
      case Err(err) => Err(err)
      case Ok(e) =>
        match ValidateEndAfterStart(p, e, map["start_datetime" := s])
        case Err(err) => Err(err)
        case Ok(_) => Ok((start, end))
  }

  /** A range is accepted exactly when both ends read as datetimes of the
      same kind and the end comes strictly after the start; the texts come
      back as given. */
  lemma RangeAcceptedIff(p: Platform, start: string, end: string)
    ensures var r := ValidateRange(p, start, end);
            (r.Ok? <==> p.fromIso(start).Some? && p.fromIso(end).Some?
                        && Comparable(p.fromIso(start).value, p.fromIso(end).value)
                        && Before(p, p.fromIso(start).value, p.fromIso(end).value))
            && (r.Ok? ==> r.value == (start, end))
  {
  }

  /** An unreadable start is reported before anything about the end. */
  lemma RangeStartFirst(p: Platform, start: string, end: string)
    requires p.fromIso(start).None?
    ensures ValidateRange(p, start, end) == Err(ValueError(InvalidDatetimeMessage(start)))
  {
  }

  /** An empty range is refused: the end must differ from the start. */
  lemma EmptyRangeRefused(p: Platform, t: string)
    requires p.fromIso(t).Some?
    ensures ValidateRange(p, t, t) == Err(ValueError(EndBeforeStartMessage))
  {
  }

  /** Of a range and its reverse, at most one is accepted. */
  lemma ReversedRangeRefused(p: Platform, start: string, end: string)
    requires ValidateRange(p, start, end).Ok?
    ensures ValidateRange(p, end, start) == Err(ValueError(EndBeforeStartMessage))
  {
    RangeAcceptedIff(p, start, end);
  }
}
