/** The CalDAV helpers: the status check shared by the calendar requests,
    and the field mapping between an iCalendar `VEVENT` component (section
    3.6.1 of RFC 5545) and the event record. The iCalendar library is kept
    abstract: a component is the record of the properties the mapping reads
    and writes, each text property holding what `str()` gives for it. */
module CalDavHelpers {

  import opened Wrappers
  import opened Strings
  import opened Values
  import opened EventModel

  // ---------------------------------------------------------------------
  // `handle_caldav_response_status`
  // ---------------------------------------------------------------------

  /** `handle_caldav_response_status`: `None` when the call returns
      normally, otherwise the `HTTPException` it raises. 200 and 207 pass;
      401, 403 and 404 keep their code, every code from 500 up becomes 500,
      and any other code is raised as it is. */
  function HandleCalDavResponseStatus(status: int): (r: Option<Error>)
    ensures r.None? <==> status == 200 || status == 207
    ensures r.Some? ==> r.value == HttpError(if status >= 500 then 500 else status)
  {
    if status == 401 then Some(HttpError(401))
    else if status == 403 then Some(HttpError(403))
    else if status == 404 then Some(HttpError(404))
    else if status >= 500 then Some(HttpError(500))
    else if status != 207 && status != 200 then Some(HttpError(status))
    else None
  }

  // ---------------------------------------------------------------------
  // Components
  // ---------------------------------------------------------------------

  /** A calendar user address (`vCalAddress`): its text and its parameters,
      `None` for a value that carries no parameters at all. */
  datatype CalAddress = CalAddress(text: string, params: Option<map<string, string>>)

  /** `ATTENDEE` as the library returns it: one value, or a list when the
      property occurs more than once. */
  datatype AttendeeValue = SingleAttendee(one: CalAddress) | AttendeeList(items: seq<CalAddress>)

  /** `CATEGORIES` as the library returns it: a list, or a single value. */
  datatype EventCategories = CategoryList(items: seq<string>) | CategoryValue(text: string)

  /** A `VALARM` sub-component. */
  datatype VAlarm = VAlarm(action: Option<string>, trigger: Option<string>, description: Option<string>)

  /** A `VEVENT` component: each property `None` when absent. */
  datatype VEvent = VEvent(
    uid: Option<string>,
    summary: Option<string>,
    description: Option<string>,
    location: Option<string>,
    status: Option<string>,
    organizer: Option<string>,
    rrule: Option<string>,
    created: Option<Property>,
    lastModified: Option<Property>,
    dtstart: Option<Property>,
    dtend: Option<Property>,
    recurrenceId: Option<Property>,
    categories: Option<EventCategories>,
    attendees: Option<AttendeeValue>,
    alarms: seq<VAlarm>)

  /** A component met while walking a calendar. */
  datatype Component = EventComponent(event: VEvent) | OtherComponent(name: string)

  /** `str(x) if x else None` on a text property. */
  function TextOf(v: Option<string>): (r: Option<string>)
    ensures r.Some? <==> v.Some? && v.value != ""
    ensures r.Some? ==> r == v
  {
    if v.Some? && v.value != "" then v else None
  }

  // ---------------------------------------------------------------------
  // `format_datetime`, `is_all_day_event`
  // ---------------------------------------------------------------------

  /** `format_datetime` on a date property: `None` when the property is
      absent, the ISO text of a `datetime`, otherwise the `str()` of the
      value (a `date`). */
  function FormatDatetime(p: Platform, prop: Option<Property>): (r: Option<string>)
    ensures r.None? <==> prop.None?
    ensures prop.Some? && prop.value.dt.DateTimeV? ==> r == Some(p.isoFormat(prop.value.dt.dt))
    ensures prop.Some? && !prop.value.dt.DateTimeV? ==> r == Some(p.show(prop.value.dt))
  {
    match prop
    case None => None
    case Some(pr) => if pr.dt.DateTimeV? then Some(p.isoFormat(pr.dt.dt)) else Some(p.show(pr.dt))
  }

  /** `is_all_day_event`: the event has a `DTSTART` whose value is not a
      `datetime` (a `date`). */
  predicate IsAllDayEvent(dtstart: Option<Property>) {
    dtstart.Some? && !dtstart.value.dt.DateTimeV?
  }

  // ---------------------------------------------------------------------
  // `parse_attendees`, `parse_reminders`
  // ---------------------------------------------------------------------

  /** A parameter's text, `None` when the parameter is absent or empty. */
  function Param(params: Option<map<string, string>>, key: string): (r: Option<string>)
    ensures r.Some? ==> params.Some? && key in params.value && r.value == params.value[key] && r.value != ""
  {
    if params.Some? && key in params.value && params.value[key] != "" then Some(params.value[key]) else None
  }

  /** One attendee: the address with every `mailto:` removed, and the
      `CN`, `ROLE`, `PARTSTAT` and `CUTYPE` parameters. */
  function AttendeeOf(a: CalAddress): Attendee {
    Attendee(RemoveAll(a.text, "mailto:"), Param(a.params, "CN"), Param(a.params, "ROLE"),
             Param(a.params, "PARTSTAT"), Param(a.params, "CUTYPE"))
  }

  /** The attendee values as a list: none when absent, a single value wrapped. */
  function AttendeeItems(v: Option<AttendeeValue>): (r: seq<CalAddress>)
    ensures v.None? ==> r == []
    ensures v.Some? && v.value.SingleAttendee? ==> r == [v.value.one]
  {
    match v
    case None => []
    case Some(SingleAttendee(a)) => [a]
    case Some(AttendeeList(items)) => items
  }

  function AttendeesOf(v: Option<AttendeeValue>): (r: seq<Attendee>)
    ensures |r| == |AttendeeItems(v)|
    ensures forall i :: 0 <= i < |r| ==> r[i] == AttendeeOf(AttendeeItems(v)[i])
  {
    var items := AttendeeItems(v);
    seq(|items|, i requires 0 <= i < |items| => AttendeeOf(items[i]))
  }

  /** `parse_attendees`, appending one attendee per value. */
  method ParseAttendees(v: Option<AttendeeValue>) returns (attendees: seq<Attendee>)
    ensures attendees == AttendeesOf(v)
  {
    var items := AttendeeItems(v);
    attendees := [];
    var i := 0;
    while i < |items|
      invariant 0 <= i <= |items|
      invariant |attendees| == i && forall j :: 0 <= j < i ==> attendees[j] == AttendeeOf(items[j])
    {
      var a := items[i];
      var email := RemoveAll(a.text, "mailto:");
      var role, status, kind, name := None, None, None, None;
      if a.params.Some? {
        var params := a.params.value;
        role := if "ROLE" in params then Some(params["ROLE"]) else None;
        status := if "PARTSTAT" in params then Some(params["PARTSTAT"]) else None;
        kind := if "CUTYPE" in params then Some(params["CUTYPE"]) else None;
        name := if "CN" in params then Some(params["CN"]) else None;
      }
      attendees := attendees + [Attendee(email, TextOf(name), TextOf(role), TextOf(status), TextOf(kind))];
      i := i + 1;
    }
  }

  /** One reminder: the action and trigger texts (empty when absent) and a
      non-empty description. */
  function ReminderOf(alarm: VAlarm): Reminder {
    Reminder(alarm.action.GetOr(""), alarm.trigger.GetOr(""), TextOf(alarm.description))
  }

  function RemindersOf(alarms: seq<VAlarm>): (r: seq<Reminder>)
    ensures |r| == |alarms| && forall i :: 0 <= i < |alarms| ==> r[i] == ReminderOf(alarms[i])
  {
    seq(|alarms|, i requires 0 <= i < |alarms| => ReminderOf(alarms[i]))
  }

  /** `parse_reminders`, appending one reminder per `VALARM`. */
  method ParseReminders(alarms: seq<VAlarm>) returns (reminders: seq<Reminder>)
    ensures reminders == RemindersOf(alarms)
  {
    reminders := [];
    for i := 0 to |alarms|
      invariant |reminders| == i && forall j :: 0 <= j < i ==> reminders[j] == ReminderOf(alarms[j])
    {
      var alarm := alarms[i];
      var description := if alarm.description.Some? && alarm.description.value != "" then alarm.description else None;
      reminders := reminders + [Reminder(alarm.action.GetOr(""), alarm.trigger.GetOr(""), description)];
    }
  }

  // ---------------------------------------------------------------------
  // `parse_ical_to_event`
  // ---------------------------------------------------------------------

  /** The first `VEVENT` met while walking the calendar. */
  function FirstEvent(components: seq<Component>): (r: Option<VEvent>)
    ensures r.None? <==> forall i :: 0 <= i < |components| ==> !components[i].EventComponent?
    ensures r.Some? ==> exists i :: 0 <= i < |components| && components[i] == EventComponent(r.value)
                                    && forall j :: 0 <= j < i ==> !components[j].EventComponent?
  {
    if components == [] then None
    else if components[0].EventComponent? then Some(components[0].event)
    else
      var r := FirstEvent(components[1..]);
      assert forall i :: 1 <= i < |components| ==> components[i] == components[1..][i - 1];
      r
  }

  function CategoriesOf(c: Option<EventCategories>): seq<string> {
    match c
    case None => []
    case Some(CategoryList(items)) => items
    case Some(CategoryValue(t)) => [t]
  }

  /** `x if x else None` on a list. */
  function NonEmpty<T>(s: seq<T>): (r: Option<seq<T>>)
    ensures r.Some? <==> s != []
    ensures r.Some? ==> r.value == s
  {
    if s == [] then None else Some(s)
  }

  const NoEventMessage := "Failed to parse iCalendar data: No VEVENT component found in the iCalendar data"
  const BadEventMessage := "Failed to parse iCalendar data: Error parsing VEVENT component: "

  /** `parse_ical_to_event` on a walked calendar: the first `VEVENT` becomes
      an event, and an event without `DTSTART` fails validation. */
  function ParseIcalToEvent(p: Platform, components: seq<Component>, eventUrl: string, privacy: Option<bool>): (r: Result<Event>)
    ensures r.Err? <==> FirstEvent(components).None? || FirstEvent(components).value.dtstart.None?
    ensures r.Ok? ==> var v := FirstEvent(components).value;
                      r.value.uid == v.uid.GetOr("") && r.value.summary == v.summary.GetOr("")
                      && r.value.url == Some(eventUrl)
                      && r.value.start == FormatDatetime(p, v.dtstart).value
                      && r.value.allDay == Some(IsAllDayEvent(v.dtstart))
                      && r.value.attendees == NonEmpty(AttendeesOf(v.attendees))
                      && r.value.reminders == NonEmpty(RemindersOf(v.alarms))
    ensures r.Ok? && privacy == Some(true) ==> r.value.description.None?
    ensures r.Ok? && privacy != Some(true) ==> r.value.description == TextOf(FirstEvent(components).value.description)
    ensures r.Ok? ==> (r.value.categories.None? || r.value.categories.value != [])
    ensures r.Ok? ==> var v := FirstEvent(components).value;
                      r.value.categories == NonEmpty(CategoriesOf(v.categories))
                      && r.value.organizer == (if Truthy(v.organizer) then Some(RemoveAll(v.organizer.value, "mailto:")) else None)
                      && r.value.location == TextOf(v.location) && r.value.status == TextOf(v.status)
                      && r.value.recurrence == TextOf(v.rrule)
                      && r.value.end == FormatDatetime(p, v.dtend) && r.value.created == FormatDatetime(p, v.created)
                      && r.value.lastModified == FormatDatetime(p, v.lastModified)
                      && r.value.recurrenceId == FormatDatetime(p, v.recurrenceId)
  {
    match FirstEvent(components)
    case None => Err(ValueError(NoEventMessage))
    case Some(v) =>
      match FormatDatetime(p, v.dtstart)
      case None => Err(ValueError(BadEventMessage))
      case Some(start) =>
        var organizer := TextOf(v.organizer);
        Ok(Event(
          uid := v.uid.GetOr(""),
          summary := v.summary.GetOr(""),
          description := if privacy == Some(true) then None else TextOf(v.description),
          location := TextOf(v.location),
          url := Some(eventUrl),
          start := start,
          end := FormatDatetime(p, v.dtend),
          allDay := Some(IsAllDayEvent(v.dtstart)),
          created := FormatDatetime(p, v.created),
          lastModified := FormatDatetime(p, v.lastModified),
          status := TextOf(v.status),
          organizer := if organizer.Some? then Some(RemoveAll(organizer.value, "mailto:")) else None,
          categories := NonEmpty(CategoriesOf(v.categories)),
          attendees := NonEmpty(AttendeesOf(v.attendees)),
          reminders := NonEmpty(RemindersOf(v.alarms)),
          recurrence := TextOf(v.rrule),
          recurrenceId := FormatDatetime(p, v.recurrenceId)))
  }

  // ---------------------------------------------------------------------
  // `event_to_ical`
  // ---------------------------------------------------------------------

  predicate Truthy(s: Option<string>) {
    s.Some? && s.value != ""
  }

  /** The attendee parameters written: each only when the field is truthy. */
  function ParamsOf(a: Attendee): (r: map<string, string>)
    ensures "CN" in r <==> Truthy(a.name)
    ensures "ROLE" in r <==> Truthy(a.role)
    ensures "PARTSTAT" in r <==> Truthy(a.status)
    ensures "CUTYPE" in r <==> Truthy(a.kind)
    ensures "CN" in r ==> r["CN"] == a.name.value
    ensures "ROLE" in r ==> r["ROLE"] == a.role.value
    ensures "PARTSTAT" in r ==> r["PARTSTAT"] == a.status.value
    ensures "CUTYPE" in r ==> r["CUTYPE"] == a.kind.value
  {
    var m0: map<string, string> := map[];
    var m1 := if Truthy(a.name) then m0["CN" := a.name.value] else m0;
    var m2 := if Truthy(a.role) then m1["ROLE" := a.role.value] else m1;
    var m3 := if Truthy(a.status) then m2["PARTSTAT" := a.status.value] else m2;
    if Truthy(a.kind) then m3["CUTYPE" := a.kind.value] else m3
  }

  function AddressOf(a: Attendee): CalAddress {
    CalAddress("mailto:" + a.email, Some(ParamsOf(a)))
  }

  /** A reminder as a `VALARM`; a missing description names the event. */
  function AlarmOf(r: Reminder, summary: string): VAlarm {
    VAlarm(Some(r.kind), Some(r.trigger),
           Some(if Truthy(r.description) then r.description.value else "Reminder for: " + summary))
  }

  /** The `date()` of a `datetime`. */
  function DateOf(dt: DateTime): Value {
    DateV(dt.wall / 86400)
  }

  /** A date property: the `datetime`, or its date for an all-day event. */
  function DateProperty(dt: DateTime, allDay: bool): Property {
    Property(map[], if allDay then DateOf(dt) else DateTimeV(dt))
  }

  /** The `ATTENDEE` value of several `add` calls: a list unless there is one. */
  function AttendeeValueOf(addresses: seq<CalAddress>): AttendeeValue {
    if |addresses| == 1 then SingleAttendee(addresses[0]) else AttendeeList(addresses)
  }

  /** The dates `event_to_ical` parses: start, end, creation (the clock
      reading `now` when the event has none) and recurrence id. */
  datatype Dates = Dates(start: DateTime, end: Option<DateTime>, created: DateTime, recurrenceId: Option<DateTime>)

  /** The date texts of an event, read in the order `event_to_ical` reads
      them; the first one that is not ISO format is the error. */
  function DatesOf(p: Platform, e: Event, now: DateTime): (r: Result<Dates>)
    ensures r.Ok? ==> p.fromIso(e.start) == Some(r.value.start)
    ensures r.Ok? ==> (r.value.end.Some? <==> Truthy(e.end))
    ensures r.Ok? && Truthy(e.end) ==> p.fromIso(e.end.value) == r.value.end
    ensures r.Ok? && !Truthy(e.created) ==> r.value.created == now
    ensures r.Err? <==> p.fromIso(e.start).None? || (Truthy(e.end) && p.fromIso(e.end.value).None?)
                        || (Truthy(e.created) && p.fromIso(e.created.value).None?)
                        || (Truthy(e.recurrenceId) && p.fromIso(e.recurrenceId.value).None?)
  {
    var start := p.fromIso(e.start);
    var end := if Truthy(e.end) then p.fromIso(e.end.value) else None;
    var created := if Truthy(e.created) then p.fromIso(e.created.value) else Some(now);
    var recurrenceId := if Truthy(e.recurrenceId) then p.fromIso(e.recurrenceId.value) else None;
    if start.None? then Err(IsoFormatError(e.start))
    else if Truthy(e.end) && end.None? then Err(IsoFormatError(e.end.value))
    else if created.None? then Err(IsoFormatError(e.created.value))
    else if Truthy(e.recurrenceId) && recurrenceId.None? then Err(IsoFormatError(e.recurrenceId.value))
    else Ok(Dates(start.value, end, created.value, recurrenceId))
  }

  /** The component `event_to_ical` builds from an event and its dates:
      `UID` and `SUMMARY` always, each optional property only when the
      event's field is truthy, `LAST-MODIFIED` the clock reading `now`. */
  function Assemble(e: Event, d: Dates, now: DateTime): VEvent {
    var allDay := e.allDay == Some(true);
    VEvent(
      uid := Some(e.uid),
      summary := Some(e.summary),
      description := if Truthy(e.description) then e.description else None,
      location := if Truthy(e.location) then e.location else None,
      status := if Truthy(e.status) then e.status else None,
      organizer := if Truthy(e.organizer) then Some("mailto:" + e.organizer.value) else None,
      rrule := if Truthy(e.recurrence) then e.recurrence else None,
      created := Some(Property(map[], DateTimeV(d.created))),
      lastModified := Some(Property(map[], DateTimeV(now))),
      dtstart := Some(DateProperty(d.start, allDay)),
      dtend := if d.end.Some? then Some(DateProperty(d.end.value, allDay)) else None,
      recurrenceId := if d.recurrenceId.Some? then Some(Property(map[], DateTimeV(d.recurrenceId.value))) else None,
      categories := if e.categories.Some? && e.categories.value != [] then Some(CategoryList(e.categories.value)) else None,
      attendees := if e.attendees.Some? && e.attendees.value != [] then Some(AttendeeValueOf(Addresses(e.attendees.value))) else None,
      alarms := if e.reminders.Some? then Alarms(e.reminders.value, e.summary) else [])
  }

  /** What `event_to_ical` builds: the component, or the error of the first
      date text that is not ISO format. */
  function IcalOf(p: Platform, e: Event, now: DateTime): Result<VEvent> {
    match DatesOf(p, e, now)
    case Err(err) => Err(err)
    case Ok(d) => Ok(Assemble(e, d, now))
  }

  function Addresses(attendees: seq<Attendee>): (r: seq<CalAddress>)
    ensures |r| == |attendees|
  {
    seq(|attendees|, i requires 0 <= i < |attendees| => AddressOf(attendees[i]))
  }

  function Alarms(reminders: seq<Reminder>, summary: string): (r: seq<VAlarm>)
    ensures |r| == |reminders| && forall i :: 0 <= i < |r| ==> r[i] == AlarmOf(reminders[i], summary)
  {
    seq(|reminders|, i requires 0 <= i < |reminders| => AlarmOf(reminders[i], summary))
  }

  /** The attendee loop of `event_to_ical`: one address per attendee. */
  method AddAttendees(attendees: seq<Attendee>) returns (added: seq<CalAddress>)
    ensures added == Addresses(attendees)
  {
    added := [];
    for i := 0 to |attendees|
      invariant |added| == i && forall j :: 0 <= j < i ==> added[j] == AddressOf(attendees[j])
    {
      added := added + [CalAddress("mailto:" + attendees[i].email, Some(ParamsOf(attendees[i])))];
    }
  }

  /** The reminder loop of `event_to_ical`: one `VALARM` per reminder. */
  method AddAlarms(reminders: seq<Reminder>, summary: string) returns (alarms: seq<VAlarm>)
    ensures alarms == Alarms(reminders, summary)
  {
    alarms := [];
    for i := 0 to |reminders|
      invariant |alarms| == i && forall j :: 0 <= j < i ==> alarms[j] == AlarmOf(reminders[j], summary)
    {
      var description := if Truthy(reminders[i].description) then reminders[i].description.value
                         else "Reminder for: " + summary;
      alarms := alarms + [VAlarm(Some(reminders[i].kind), Some(reminders[i].trigger), Some(description))];
    }
  }

  /** The date reading of `event_to_ical`: start, end, creation and
      recurrence id, in that order, stopping at the first text that is not
      ISO format. */
  method ReadDates(p: Platform, e: Event, now: DateTime) returns (r: Result<Dates>)
    ensures r == DatesOf(p, e, now)
  {
    var startDt := p.fromIso(e.start);
    if startDt.None? {
      return Err(IsoFormatError(e.start));
    }
    var endDt := None;
    if Truthy(e.end) {
      endDt := p.fromIso(e.end.value);
      if endDt.None? {
        return Err(IsoFormatError(e.end.value));
      }
    }
    var createdDt := now;
    if Truthy(e.created) {
      var parsed := p.fromIso(e.created.value);
      if parsed.None? {
        return Err(IsoFormatError(e.created.value));
      }
      createdDt := parsed.value;
    }
    var rid := None;
    if Truthy(e.recurrenceId) {
      rid := p.fromIso(e.recurrenceId.value);
      if rid.None? {
        return Err(IsoFormatError(e.recurrenceId.value));
      }
    }
    return Ok(Dates(startDt.value, endDt, createdDt, rid));
  }

  /** `event_to_ical`, adding the properties one after another. */
  method EventToIcal(p: Platform, e: Event, now: DateTime) returns (r: Result<VEvent>)
    ensures r == IcalOf(p, e, now)
  {
    var dates := ReadDates(p, e, now);
    if dates.Err? {
      return Err(dates.error);
    }
    var d := dates.value;
    var allDay := e.allDay == Some(true);
    ghost var goal := Assemble(e, d, now);
    var description, location, status, organizer, categories, rrule := None, None, None, None, None, None;
    if Truthy(e.description) {
      description := e.description;
    }
    if Truthy(e.location) {
      location := e.location;
    }
    var dtstart := Some(DateProperty(d.start, allDay));
    var dtend := if d.end.Some? then Some(DateProperty(d.end.value, allDay)) else None;
    if Truthy(e.status) {
      status := e.status;
    }
    if Truthy(e.organizer) {
      organizer := Some("mailto:" + e.organizer.value);
    }
    if e.categories.Some? && e.categories.value != [] {
      categories := Some(CategoryList(e.categories.value));
    }
    var created := Some(Property(map[], DateTimeV(d.created)));
    var lastModified := Some(Property(map[], DateTimeV(now)));
    if Truthy(e.recurrence) {
      rrule := e.recurrence;
    }
    var recurrenceId := if d.recurrenceId.Some? then Some(Property(map[], DateTimeV(d.recurrenceId.value))) else None;
    var attendees := None;
    if e.attendees.Some? && e.attendees.value != [] {
      var added := AddAttendees(e.attendees.value);
      attendees := Some(AttendeeValueOf(added));
    }
    assert attendees == goal.attendees;
    var alarms: seq<VAlarm> := [];
    if e.reminders.Some? {
      alarms := AddAlarms(e.reminders.value, e.summary);
    }
    assert alarms == goal.alarms;
    assert (description, location, status, organizer, rrule, categories)
        == (goal.description, goal.location, goal.status, goal.organizer, goal.rrule, goal.categories);
    return Ok(VEvent(Some(e.uid), Some(e.summary), description, location, status, organizer, rrule,
                     created, lastModified, dtstart, dtend, recurrenceId, categories, attendees, alarms));
  }

  // ---------------------------------------------------------------------
  // Properties
  // ---------------------------------------------------------------------

  /** Every reminder written gets a description: its own, or one naming the event. */
  lemma AlarmsDescribed(p: Platform, e: Event, now: DateTime)
    requires IcalOf(p, e, now).Ok?
    ensures forall a :: a in IcalOf(p, e, now).value.alarms ==> a.description.Some? && a.description.value != ""
  {
    var alarms := IcalOf(p, e, now).value.alarms;
    forall a | a in alarms ensures a.description.Some? && a.description.value != "" {
      var i :| 0 <= i < |alarms| && alarms[i] == a;
      var r := e.reminders.value[i];
      if !Truthy(r.description) {
        assert |"Reminder for: " + e.summary| > 0;
      }
    }
  }

  /** An event is written as all-day exactly when it says so, and reads back that way. */
  lemma AllDayRoundTrip(p: Platform, e: Event, now: DateTime, url: string)
    requires IcalOf(p, e, now).Ok?
    ensures var back := ParseIcalToEvent(p, [EventComponent(IcalOf(p, e, now).value)], url, Some(false));
            back.Ok? && back.value.allDay == Some(e.allDay == Some(true))
  {
    var v := IcalOf(p, e, now).value;
    assert FirstEvent([EventComponent(v)]) == Some(v);
  }

  /** Writing an event and reading it back keeps its identity and texts:
      the uid and summary, a non-empty description, location, status and
      recurrence rule, and an organizer whose address has no `mailto:` in it. */
  lemma TextRoundTrip(p: Platform, e: Event, now: DateTime, url: string)
    requires IcalOf(p, e, now).Ok?
    ensures var back := ParseIcalToEvent(p, [EventComponent(IcalOf(p, e, now).value)], url, Some(false));
            back.Ok? && back.value.uid == e.uid && back.value.summary == e.summary && back.value.url == Some(url)
            && back.value.description == TextOf(e.description) && back.value.location == TextOf(e.location)
            && back.value.status == TextOf(e.status) && back.value.recurrence == TextOf(e.recurrence)
            && (Truthy(e.organizer) && !Contains(e.organizer.value, "mailto:") ==> back.value.organizer == e.organizer)
  {
    var v := IcalOf(p, e, now).value;
    assert FirstEvent([EventComponent(v)]) == Some(v);
    if Truthy(e.organizer) && !Contains(e.organizer.value, "mailto:") {
      RemoveAllPrefix("mailto:", e.organizer.value);
      RemoveAllAbsent(e.organizer.value, "mailto:");
    }
  }

  /** An organizer stored as a `mailto:` address is read back as the bare
      address. */
  lemma OrganizerMailtoStripped(p: Platform, v: VEvent, url: string, privacy: Option<bool>, address: string)
    requires v.dtstart.Some? && v.organizer == Some("mailto:" + address) && !Contains(address, "mailto:")
    ensures var r := ParseIcalToEvent(p, [EventComponent(v)], url, privacy);
            r.Ok? && r.value.organizer == Some(address)
  {
    assert FirstEvent([EventComponent(v)]) == Some(v);
    RemoveAllPrefix("mailto:", address);
    RemoveAllAbsent(address, "mailto:");
  }

  /** An attendee written and read back keeps its address (when it has no
      `mailto:` in it) and its non-empty name, role, status and type. */
  lemma AttendeeRoundTrip(a: Attendee)
    requires !Contains(a.email, "mailto:")
    ensures AttendeeOf(AddressOf(a)) == Attendee(a.email, TextOf(a.name), TextOf(a.role), TextOf(a.status), TextOf(a.kind))
  {
    RemoveAllPrefix("mailto:", a.email);
    RemoveAllAbsent(a.email, "mailto:");
  }

  /** The attendee list survives the single-value special case of the
      library: one or many, the same attendees come back in order. */
  lemma AttendeesRoundTrip(p: Platform, e: Event, now: DateTime)
    requires IcalOf(p, e, now).Ok?
    ensures var v := IcalOf(p, e, now).value;
            var written := e.attendees.GetOr([]);
            |AttendeeItems(v.attendees)| == |written|
            && forall i :: 0 <= i < |written| ==> AttendeeItems(v.attendees)[i] == AddressOf(written[i])
  {
  }

  /** Reminders come back with their action and trigger, and with the
      description that was written for them. */
  lemma RemindersRoundTrip(p: Platform, e: Event, now: DateTime, url: string)
    requires IcalOf(p, e, now).Ok? && e.reminders.Some? && e.reminders.value != []
    ensures var back := ParseIcalToEvent(p, [EventComponent(IcalOf(p, e, now).value)], url, Some(false));
            var rs := e.reminders.value;
            back.Ok? && back.value.reminders.Some? && |back.value.reminders.value| == |rs|
            && forall i :: 0 <= i < |rs| ==>
                 back.value.reminders.value[i] ==
                   Reminder(rs[i].kind, rs[i].trigger,
                            Some(if Truthy(rs[i].description) then rs[i].description.value else "Reminder for: " + e.summary))
  {
    var v := IcalOf(p, e, now).value;
    assert FirstEvent([EventComponent(v)]) == Some(v);
    forall i | 0 <= i < |e.reminders.value| ensures |AlarmOf(e.reminders.value[i], e.summary).description.value| > 0 {
      assert |"Reminder for: " + e.summary| > 0;
    }
  }
}
