/** The reminder helpers: normalising the reminder payloads clients send,
    decoding a VALARM `TRIGGER` (section 3.8.6.3 of RFC 5545) into the
    structured reminder the API returns, and encoding a structured reminder
    back into a trigger value. */
module Reminders {

  import opened Wrappers
  import opened Strings
  import opened Values
  import opened Durations
  import opened Timezones

  // ---------------------------------------------------------------------
  // `normalize_reminder_input`
  // ---------------------------------------------------------------------

  /** `d.get(key)`: the entry under `key`, `None` when absent. */
  function Get(d: map<string, Value>, key: string): Value {
    if key in d then d[key] else Missing
  }

  /** The two dictionaries agree on `key`: both lack it or both hold the same value. */
  predicate SameEntry(a: map<string, Value>, b: map<string, Value>, key: string) {
    (key in a <==> key in b) && (key in a ==> a[key] == b[key])
  }

  /** The keys `normalize_reminder_input` may touch. */
  const Managed: set<string> := {"trigger", "mode", "fire_time", "timezone", "relation", "offset"}

  /** `normalize_reminder_input`: works on a copy (a Dafny map is a value,
      so the caller's dictionary cannot change), drops the legacy `trigger`
      key, infers a missing mode, and fills the keys each mode needs. */
  method NormalizeReminderInput(data: map<string, Value>) returns (normalized: map<string, Value>)
    ensures "trigger" !in normalized
    ensures forall key :: key !in Managed ==> SameEntry(normalized, data, key)
    // mode inference
    ensures Truthy(Get(data, "mode")) ==> SameEntry(normalized, data, "mode")
    ensures !Truthy(Get(data, "mode")) && Truthy(Get(data, "offset")) ==>
              Get(normalized, "mode") == Text("relative")
    ensures !Truthy(Get(data, "mode")) && !Truthy(Get(data, "offset"))
            && (Truthy(Get(data, "fire_time")) || Truthy(Get(data, "trigger"))) ==>
              Get(normalized, "mode") == Text("absolute")
    ensures !Truthy(Get(data, "mode")) && !Truthy(Get(data, "offset"))
            && !Truthy(Get(data, "fire_time")) && !Truthy(Get(data, "trigger")) ==>
              SameEntry(normalized, data, "mode")
    // absolute mode
    ensures Get(normalized, "mode") == Text("absolute") ==>
              "relation" in normalized && normalized["relation"] == Missing
              && "offset" in normalized && normalized["offset"] == Missing
              && "timezone" in normalized && Get(normalized, "timezone") == Get(data, "timezone")
    ensures Get(normalized, "mode") == Text("absolute") && Truthy(Get(data, "fire_time")) ==>
              SameEntry(normalized, data, "fire_time")
    ensures Get(normalized, "mode") == Text("absolute") && !Truthy(Get(data, "fire_time")) ==>
              if Truthy(Get(data, "trigger")) then "fire_time" in normalized && normalized["fire_time"] == data["trigger"]
              else SameEntry(normalized, data, "fire_time")
    // relative mode
    ensures Get(normalized, "mode") == Text("relative") ==>
              "offset" in normalized && normalized["offset"] == Get(data, if "offset" in data then "offset" else "trigger")
              && "relation" in normalized && normalized["relation"] == (if "relation" in data then data["relation"] else Text("START"))
              && SameEntry(normalized, data, "fire_time") && SameEntry(normalized, data, "timezone")
    // any other mode
    ensures Get(normalized, "mode") != Text("absolute") && Get(normalized, "mode") != Text("relative") ==>
              forall key :: key in Managed - {"trigger", "mode"} ==> SameEntry(normalized, data, key)
  {
    normalized := data;
    var legacyTrigger := Get(normalized, "trigger");
    normalized := normalized - {"trigger"};

    if !Truthy(Get(normalized, "mode")) {
      if Truthy(Get(normalized, "offset")) {
        normalized := normalized["mode" := Text("relative")];
      } else if Truthy(Get(normalized, "fire_time")) || Truthy(legacyTrigger) {
        normalized := normalized["mode" := Text("absolute")];
      }
    }

    if Get(normalized, "mode") == Text("absolute") {
      if !Truthy(Get(normalized, "fire_time")) && Truthy(legacyTrigger) {
        normalized := normalized["fire_time" := legacyTrigger];
      }
      if "timezone" !in normalized {
        normalized := normalized["timezone" := Missing];
      }
      normalized := normalized["relation" := Missing];
      normalized := normalized["offset" := Missing];
    } else if Get(normalized, "mode") == Text("relative") {
      if "offset" !in normalized {
        normalized := normalized["offset" := legacyTrigger];
      }
      if "relation" !in normalized {
        normalized := normalized["relation" := Text("START")];
      }
    }
  }

  // ---------------------------------------------------------------------
  // Reading a trigger
  // ---------------------------------------------------------------------

  /** `get_trigger_relation`: the upper-cased `RELATED` parameter when it is
      set and non-empty, `START` otherwise. A trigger that carries no
      parameters at all is passed as `None`. */
  function GetTriggerRelation(prop: Option<Property>): (r: string)
    ensures r != ""
    ensures forall i :: 0 <= i < |r| ==> !('a' <= r[i] <= 'z')
    ensures r != "START" ==> prop.Some? && "RELATED" in prop.value.params
    ensures prop.Some? && "RELATED" in prop.value.params && prop.value.params["RELATED"] != "" ==>
              var related := prop.value.params["RELATED"];
              |r| == |related| &&
              forall i :: 0 <= i < |r| ==> r[i] == if 'a' <= related[i] <= 'z' then (related[i] as int - 32) as char else related[i]
    ensures !(prop.Some? && "RELATED" in prop.value.params && prop.value.params["RELATED"] != "") ==> r == "START"
  {
    if prop.Some? && "RELATED" in prop.value.params && prop.value.params["RELATED"] != "" then
      AsciiUpper(prop.value.params["RELATED"])
    else "START"
  }

  /** `datetime.combine(day, datetime.min.time())`: midnight, naive. */
  function Midnight(day: int): DateTime {
    DateTime(day * 86400, None)
  }

  /** `coerce_to_datetime`: a `datetime` as it is, a `date` at midnight, the
      `.dt` of a wrapper object (recursively), text through
      `datetime.fromisoformat`, and anything else through its `to_ical()`
      text; `None` where none of these applies or the parse fails. */
  function CoerceToDatetime(p: Platform, value: Value): (r: Option<DateTime>)
    ensures value.DateTimeV? ==> r == Some(value.dt)
    ensures value.DateV? ==> r == Some(Midnight(value.day)) && !r.value.Aware()
    ensures value.Missing? || value.DurationV? || value.Bytes? ==> r.None?
    ensures value.Text? ==> r == p.fromIso(value.text)
  {
    match value
    case DateTimeV(dt) => Some(dt)
    case DateV(day) => Some(Midnight(day))
    case Text(t) => p.fromIso(t)
    case Object(attr, ical, _) =>
      if attr != Missing then CoerceToDatetime(p, attr)
      else if ical.Some? then p.fromIso(ical.value)
      else None
    case _ => None
  }

  /** `coerce_to_timedelta`: a `timedelta` as it is, or the `.dt` of a wrapper
      object when that is one (one level only), text through the duration
      parser, and anything else through its `to_ical()` text. */
  function CoerceToTimedelta(p: Platform, value: Value): (r: Option<int>)
    ensures value.DurationV? ==> r == Some(value.seconds)
    ensures value.Text? ==> r == ParseDuration(value.text)
    ensures r.Some? ==> value.DurationV? || value.Text? || value.Object?
  {
    match value
    case DurationV(seconds) => Some(seconds)
    case Text(t) => ParseDuration(t)
    case Object(attr, ical, _) =>
      if attr.DurationV? then Some(attr.seconds)
      else if ical.Some? then ParseDuration(ical.value)
      else None
    case _ => None
  }

  /** `stringify_trigger`: `None` only for `None`; text as it is, bytes
      decoded, a wrapper through its `.dt`, and otherwise the `to_ical()`
      text or `str()` of the value. */
  function StringifyTrigger(p: Platform, value: Value): (r: Option<string>)
    ensures r.None? <==> value.Missing?
    ensures value.Text? ==> r == Some(value.text)
    ensures value.Bytes? ==> r == Some(value.bytes)
  {
    match value
    case Missing => None
    case Text(t) => Some(t)
    case Bytes(b) => Some(b)
    case Object(attr, ical, repr) =>
      if attr != Missing then StringifyTrigger(p, attr)
      else Some(if ical.Some? then ical.value else repr)
    case _ => Some(p.show(value))
  }

  // ---------------------------------------------------------------------
  // `build_reminder_payload`
  // ---------------------------------------------------------------------

  /** A structured reminder: the dictionary `build_reminder_payload` returns
      and the fields of the reminder schema `reminder_to_ical_trigger` reads. */
  datatype Reminder = Reminder(
    mode: string,
    fireTime: Option<string>,
    offset: Option<string>,
    relation: Option<string>,
    timezone: Option<string>)

  /** `related if related in ("START", "END") else "START"` */
  function Relation(related: string): (r: string)
    ensures r == "END" <==> related == "END"
    ensures r == "START" || r == "END"
  {
    if related == "START" || related == "END" then related else "START"
  }

  /** `build_reminder_payload`: a trigger that reads as a datetime gives an
      absolute reminder; one that reads as a duration gives a relative
      reminder against the event start or end; anything else with a text
      form is kept as an absolute reminder holding that text. */
  function BuildReminderPayload(p: Platform, triggerValue: Value, related: string,
                                eventStart: Option<DateTime>, eventEnd: Option<DateTime>,
                                triggerTimezone: Option<string>,
                                eventStartTimezone: Option<string>,
                                eventEndTimezone: Option<string>): (r: Result<Reminder>)
    ensures r.Err? <==> triggerValue.Missing?
    ensures r.Ok? ==> r.value.mode == "absolute" || r.value.mode == "relative"
    ensures r.Ok? && r.value.mode == "absolute" ==>
              r.value.offset.None? && r.value.relation.None? && r.value.fireTime.Some?
    // a datetime reading is tried first
    ensures CoerceToDatetime(p, triggerValue).Some? ==>
              r.Ok? && r.value.mode == "absolute"
              && r.value.timezone == Or(triggerTimezone, TimezoneFromDatetime(CoerceToDatetime(p, triggerValue).value))
    // then a duration reading
    ensures r.Ok? && r.value.mode == "relative" ==>
              CoerceToDatetime(p, triggerValue).None? && CoerceToTimedelta(p, triggerValue).Some?
              && r.value.relation == Some(if related == "END" then "END" else "START")
              && r.value.timezone == (if related == "END" then eventEndTimezone else eventStartTimezone)
              && r.value.offset.Some?
              && ParseDuration(r.value.offset.value) == CoerceToTimedelta(p, triggerValue)
    ensures CoerceToDatetime(p, triggerValue).None? && CoerceToTimedelta(p, triggerValue).Some? ==>
              r.Ok? && r.value.mode == "relative"
              && var reference := if related == "END" then eventEnd else eventStart;
                 (reference.None? ==> r.value.fireTime.None?)
                 && (reference.Some? ==>
                       var zoned := ApplyTimezone(p, reference, r.value.timezone).value;
                       r.value.fireTime == Some(p.isoFormat(zoned.Plus(CoerceToTimedelta(p, triggerValue).value))))
    // and the fallback keeps the text
    ensures CoerceToDatetime(p, triggerValue).None? && CoerceToTimedelta(p, triggerValue).None? && r.Ok? ==>
              r.value.mode == "absolute" && r.value.fireTime == StringifyTrigger(p, triggerValue)
              && r.value.timezone == triggerTimezone
  {
    var relation := Relation(related);
    var reference := if relation != "END" then eventStart else eventEnd;
    match CoerceToDatetime(p, triggerValue)
    case Some(absolute) =>
      var timezone := Or(triggerTimezone, TimezoneFromDatetime(absolute));
      var zoned := ApplyTimezone(p, Some(absolute), timezone).value;
      Ok(Reminder("absolute", Some(p.isoFormat(zoned)), None, None, timezone))
    case None =>
      match CoerceToTimedelta(p, triggerValue)
      case Some(delta) =>
        var timezone := if relation != "END" then eventStartTimezone else eventEndTimezone;
        var zonedReference := if reference.Some? then ApplyTimezone(p, reference, timezone) else None;
        var fireTime := if zonedReference.Some? then Some(p.isoFormat(zonedReference.value.Plus(delta))) else None;
        RoundTrip(delta);
        Ok(Reminder("relative", fireTime, Some(FormatDuration(delta)), Some(relation), timezone))
      case None =>
        match StringifyTrigger(p, triggerValue)
        case None => Err(ValueError("Reminder trigger is missing or unreadable"))
        case Some(raw) => Ok(Reminder("absolute", Some(raw), None, None, triggerTimezone))
  }

  // ---------------------------------------------------------------------
  // `reminder_to_ical_trigger`
  // ---------------------------------------------------------------------

  /** What `reminder_to_ical_trigger` hands to the icalendar library: a
      duration with the `RELATED` value, or a datetime with its zone name. */
  datatype IcalTrigger =
    | RelativeTrigger(delta: int, related: string)
    | AbsoluteTrigger(at: DateTime, timezone: Option<string>)

  /** `reminder_to_ical_trigger`. A relative reminder needs a parseable
      offset; any other mode is treated as absolute and needs a `fire_time`
      that `datetime.fromisoformat` accepts. The zone is the reminder's own,
      else the one the parsed datetime carries; it is attached when the
      datetime is naive. The source then re-reads the zone of an aware
      result when it has none: that step never changes the outcome (see
      `ZoneRefreshIsRedundant`). */
  function ReminderToIcalTrigger(p: Platform, reminder: Reminder): (r: Result<IcalTrigger>)
    ensures reminder.mode == "relative" ==>
              (r.Ok? <==> !Blank(reminder.offset) && ParseDuration(reminder.offset.value).Some?)
    ensures reminder.mode == "relative" && r.Ok? ==>
              r.value == RelativeTrigger(ParseDuration(reminder.offset.value).value,
                                         if reminder.relation == Some("END") then "END" else "START")
    ensures reminder.mode != "relative" ==>
              (r.Ok? <==> !Blank(reminder.fireTime) && p.fromIso(reminder.fireTime.value).Some?)
    ensures reminder.mode != "relative" && r.Ok? ==>
              r.value.AbsoluteTrigger? && r.value.at.wall == p.fromIso(reminder.fireTime.value).value.wall
    ensures reminder.mode != "relative" && r.Ok? ==>
              var parsed := p.fromIso(reminder.fireTime.value).value;
              (parsed.Aware() ==> r.value.at == parsed)
              && (!parsed.Aware() && !Blank(reminder.timezone) && reminder.timezone.value in p.zones ==>
                    r.value.at == DateTime(parsed.wall, Some(ZoneInfo(p, reminder.timezone.value))))
              && (!parsed.Aware() && (Blank(reminder.timezone) || reminder.timezone.value !in p.zones) ==>
                    r.value.at == parsed)
  {
    if reminder.mode == "relative" then
      if Blank(reminder.offset) then Err(ValueError("Relative reminders require offset to be set"))
      else match ParseDuration(reminder.offset.value)
        case None => Err(ValueError("Invalid ISO 8601 duration for reminder offset: " + reminder.offset.value))
        case Some(delta) =>
          var related := if reminder.relation == Some("START") || reminder.relation == Some("END")
                         then reminder.relation.value else "START";
          Ok(RelativeTrigger(delta, related))
    else if Blank(reminder.fireTime) then Err(ValueError("Absolute reminders require fire_time to be set"))
    else match p.fromIso(reminder.fireTime.value)
      case None => Err(IsoFormatError(reminder.fireTime.value))
      case Some(parsed) =>
        var timezone := Or(reminder.timezone, TimezoneFromDatetime(parsed));
        var triggerDt := ApplyTimezone(p, Some(parsed), timezone).value;
        var refreshed := if triggerDt.Aware() && timezone.None? then TimezoneFromDatetime(triggerDt) else timezone;
        Ok(AbsoluteTrigger(triggerDt, refreshed))
  }

  /** The zone `reminder_to_ical_trigger` returns is the reminder's own zone
      when it has one, and otherwise the one of the parsed `fire_time`. */
  lemma ZoneRefreshIsRedundant(p: Platform, reminder: Reminder)
    requires reminder.mode != "relative" && !Blank(reminder.fireTime)
    requires p.fromIso(reminder.fireTime.value).Some?
    ensures var r := ReminderToIcalTrigger(p, reminder);
            r.Ok? && r.value.timezone == Or(reminder.timezone, TimezoneFromDatetime(p.fromIso(reminder.fireTime.value).value))
  {
    var parsed := p.fromIso(reminder.fireTime.value).value;
    var timezone := Or(reminder.timezone, TimezoneFromDatetime(parsed));
    if timezone.None? {
      assert ApplyTimezone(p, Some(parsed), timezone) == Some(parsed);
    }
  }

  // ---------------------------------------------------------------------
  // Round trips between the two directions
  // ---------------------------------------------------------------------

  /** `isoformat()` writes some text, and `fromisoformat()` of it keeps the wall clock and
      whether the value is aware (the zone itself may come back as a fixed
      UTC offset). */
  predicate ReadsBack(p: Platform, x: DateTime) {
    var y := p.fromIso(p.isoFormat(x));
    p.isoFormat(x) != "" && y.Some? && y.value.wall == x.wall && y.value.Aware() == x.Aware()
  }

  /** A duration trigger decoded into a relative reminder encodes back to
      the same duration and the same `RELATED` side. */
  lemma RelativeRoundTrip(p: Platform, triggerValue: Value, related: string,
                          eventStart: Option<DateTime>, eventEnd: Option<DateTime>,
                          triggerTimezone: Option<string>, eventStartTimezone: Option<string>,
                          eventEndTimezone: Option<string>)
    requires CoerceToDatetime(p, triggerValue).None? && CoerceToTimedelta(p, triggerValue).Some?
    ensures var r := BuildReminderPayload(p, triggerValue, related, eventStart, eventEnd,
                                          triggerTimezone, eventStartTimezone, eventEndTimezone);
            r.Ok? && ReminderToIcalTrigger(p, r.value)
              == Ok(RelativeTrigger(CoerceToTimedelta(p, triggerValue).value, Relation(related)))
  {
    var delta := CoerceToTimedelta(p, triggerValue).value;
    var r := BuildReminderPayload(p, triggerValue, related, eventStart, eventEnd,
                                  triggerTimezone, eventStartTimezone, eventEndTimezone);
    assert r.value.mode == "relative" && r.value.offset == Some(FormatDuration(delta))
           && r.value.relation == Some(Relation(related));
    EncodeRelative(p, r.value, delta);
  }

  /** A relative reminder whose offset `timedelta_to_iso8601` wrote encodes
      to that duration. */
  lemma EncodeRelative(p: Platform, reminder: Reminder, delta: int)
    requires reminder.mode == "relative" && reminder.offset == Some(FormatDuration(delta))
    requires reminder.relation == Some("START") || reminder.relation == Some("END")
    ensures ReminderToIcalTrigger(p, reminder) == Ok(RelativeTrigger(delta, reminder.relation.value))
  {
    RoundTrip(delta);
    FormatNonEmpty(delta);
  }

  lemma FormatNonEmpty(d: int)
    ensures FormatDuration(d) != ""
  {
  }

  /** A datetime trigger decoded into an absolute reminder encodes back to a
      datetime with the same wall clock, and, when the reminder names a zone
      or the datetime is naive, with the same zone name. */
  lemma AbsoluteRoundTrip(p: Platform, triggerValue: Value, related: string,
                          eventStart: Option<DateTime>, eventEnd: Option<DateTime>,
                          triggerTimezone: Option<string>, eventStartTimezone: Option<string>,
                          eventEndTimezone: Option<string>)
    requires CoerceToDatetime(p, triggerValue).Some?
    requires var dt := CoerceToDatetime(p, triggerValue).value;
             ReadsBack(p, ApplyTimezone(p, Some(dt), Or(triggerTimezone, TimezoneFromDatetime(dt))).value)
    ensures var dt := CoerceToDatetime(p, triggerValue).value;
            var r := BuildReminderPayload(p, triggerValue, related, eventStart, eventEnd,
                                          triggerTimezone, eventStartTimezone, eventEndTimezone);
            r.Ok? && var t := ReminderToIcalTrigger(p, r.value);
            t.Ok? && t.value.AbsoluteTrigger? && t.value.at.wall == dt.wall
            && (!Blank(r.value.timezone) || !dt.Aware() ==> t.value.timezone == r.value.timezone)
  {
    var dt := CoerceToDatetime(p, triggerValue).value;
    var timezone := Or(triggerTimezone, TimezoneFromDatetime(dt));
    var zoned := ApplyTimezone(p, Some(dt), timezone).value;
    var r := BuildReminderPayload(p, triggerValue, related, eventStart, eventEnd,
                                  triggerTimezone, eventStartTimezone, eventEndTimezone);
    assert r.value == Reminder("absolute", Some(p.isoFormat(zoned)), None, None, timezone);
    ZoneRefreshIsRedundant(p, r.value);
  }

  /** A text trigger that reads neither as a datetime nor as a duration is
      kept as an absolute reminder that `reminder_to_ical_trigger` then
      rejects. */
  lemma UnreadableTextRejected(p: Platform, text: string, related: string,
                               eventStart: Option<DateTime>, eventEnd: Option<DateTime>,
                               triggerTimezone: Option<string>, eventStartTimezone: Option<string>,
                               eventEndTimezone: Option<string>)
    requires p.fromIso(text).None? && ParseDuration(text).None?
    ensures var r := BuildReminderPayload(p, Text(text), related, eventStart, eventEnd,
                                          triggerTimezone, eventStartTimezone, eventEndTimezone);
            r.Ok? && r.value.fireTime == Some(text) && ReminderToIcalTrigger(p, r.value).Err?
  {
  }

  /** A duration written by `timedelta_to_iso8601` reads back through
      `coerce_to_timedelta` as the same duration. */
  lemma CoerceFormatted(p: Platform, d: int)
    ensures CoerceToTimedelta(p, Text(FormatDuration(d))) == Some(d)
  {
    RoundTrip(d);
  }
}
