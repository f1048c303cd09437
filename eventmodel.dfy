/** The event records of the API: an event with its attendees and
    reminders, the conversion of its date texts for iCalendar, and the
    search criteria with their `to_dict` view. */
module EventModel {

  import opened Wrappers
  import opened Strings
  import opened Values

  /** An attendee; `kind` is the model's `type` field (a reserved word here). */
  datatype Attendee = Attendee(email: string, name: Option<string>, role: Option<string>,
                               status: Option<string>, kind: Option<string>)

  /** A reminder of an event; `kind` is its `type` (the alarm action). */
  datatype Reminder = Reminder(kind: string, trigger: string, description: Option<string>)

  /** The event record. Dates are ISO texts; `allDay` defaults to `false`. */
  datatype Event = Event(
    uid: string,
    summary: string,
    description: Option<string>,
    location: Option<string>,
    url: Option<string>,
    start: string,
    end: Option<string>,
    allDay: Option<bool>,
    created: Option<string>,
    lastModified: Option<string>,
    status: Option<string>,
    organizer: Option<string>,
    categories: Option<seq<string>>,
    attendees: Option<seq<Attendee>>,
    reminders: Option<seq<Reminder>>,
    recurrence: Option<string>,
    recurrenceId: Option<string>)

  /** `Event.to_ical_datetime`: nothing for an empty or absent text; for an
      all-day event the date part (the text before the first `T`); otherwise
      the parsed `datetime`, which raises when the text is not ISO format. */
  function ToIcalDatetime(p: Platform, dtStr: Option<string>, allDay: bool): (r: Result<Value>)
    ensures Blank(dtStr) ==> r == Ok(Missing)
    ensures !Blank(dtStr) && allDay ==> r.Ok? && r.value.Text? && StartsWith(dtStr.value, r.value.text)
                                        && 'T' !in r.value.text
                                        && (r.value.text == dtStr.value <==> 'T' !in dtStr.value)
                                        && ('T' in dtStr.value ==> dtStr.value[|r.value.text|] == 'T')
    ensures !Blank(dtStr) && !allDay ==> (r.Ok? <==> p.fromIso(dtStr.value).Some?)
    ensures !Blank(dtStr) && !allDay && r.Ok? ==> r.value == DateTimeV(p.fromIso(dtStr.value).value)
  {
    if Blank(dtStr) then Ok(Missing)
    else if allDay then
      Ok(Text(if 'T' in dtStr.value then BeforeFirst(dtStr.value, 'T') else dtStr.value))
    else match p.fromIso(dtStr.value)
      case None => Err(IsoFormatError(dtStr.value))
      case Some(dt) => Ok(DateTimeV(dt))
  }

  /** The two search logics: `anyof` (any criterion may match) and `allof`. */
  datatype SearchType = AnyOf | AllOf {
    function Text(): string {
      match this
      case AnyOf => "anyof"
      case AllOf => "allof"
    }
  }

  /** `search_type` validation: an absent key takes the default `anyof`, an
      explicit `null` stays `None`, and only `anyof`/`allof` are accepted. */
  function ValidateSearchType(given: Option<Option<string>>): (r: Result<Option<SearchType>>)
    ensures given.None? ==> r == Ok(Some(AnyOf))
    ensures given == Some(None) ==> r == Ok(None)
    ensures given.Some? && given.value.Some? ==>
              (r.Ok? <==> given.value.value in {"anyof", "allof"})
    ensures given.Some? && given.value.Some? && r.Ok? ==> r.value.Some? && r.value.value.Text() == given.value.value
  {
    match given
    case None => Ok(Some(AnyOf))
    case Some(None) => Ok(None)
    case Some(Some(t)) =>
      if t == "anyof" then Ok(Some(AnyOf))
      else if t == "allof" then Ok(Some(AllOf))
      else Err(ValueError("Input should be 'anyof' or 'allof'"))
  }

  /** A value of a search criterion. */
  datatype CriterionValue = TextValue(text: string) | FlagValue(flag: bool) | LogicValue(logic: SearchType)

  /** The search criteria of an event search. */
  datatype EventSearchCriteria = EventSearchCriteria(
    uid: Option<string>, summary: Option<string>, description: Option<string>,
    location: Option<string>, category: Option<string>, attendee: Option<string>,
    startMin: Option<string>, startMax: Option<string>, endMin: Option<string>, endMax: Option<string>,
    allDay: Option<bool>, status: Option<string>, searchType: Option<SearchType>)

  function TextField(v: Option<string>): Option<CriterionValue> {
    if v.Some? then Some(TextValue(v.value)) else None
  }

  /** `model_dump()`: every field under its name, `None` included. */
  function Dump(c: EventSearchCriteria): map<string, Option<CriterionValue>> {
    map[
      "uid" := TextField(c.uid), "summary" := TextField(c.summary),
      "description" := TextField(c.description), "location" := TextField(c.location),
      "category" := TextField(c.category), "attendee" := TextField(c.attendee),
      "start_min" := TextField(c.startMin), "start_max" := TextField(c.startMax),
      "end_min" := TextField(c.endMin), "end_max" := TextField(c.endMax),
      "all_day" := if c.allDay.Some? then Some(FlagValue(c.allDay.value)) else None,
      "status" := TextField(c.status),
      "search_type" := if c.searchType.Some? then Some(LogicValue(c.searchType.value)) else None]
  }

  /** `EventSearchCriteria.to_dict`: the dumped fields that are not `None`,
      without `search_type`, each with its value unchanged. */
  function ToDict(c: EventSearchCriteria): (r: map<string, CriterionValue>)
    ensures "search_type" !in r
    ensures forall k :: k in r <==> k in Dump(c) && k != "search_type" && Dump(c)[k].Some?
    ensures forall k :: k in r ==> Dump(c)[k] == Some(r[k])
  {
    var d := Dump(c);
    map k | k in d && k != "search_type" && d[k].Some? :: d[k].value
  }

  /** Criteria built with only the defaults filter nothing: the view is
      empty and the logic is `anyof`. */
  lemma DefaultCriteria()
    ensures var c := EventSearchCriteria(None, None, None, None, None, None, None, None, None, None, None, None,
                                         ValidateSearchType(None).value);
            ToDict(c) == map[] && c.searchType == Some(AnyOf)
  {
    var c := EventSearchCriteria(None, None, None, None, None, None, None, None, None, None, None, None, Some(AnyOf));
    assert forall k :: k in Dump(c) && k != "search_type" ==> Dump(c)[k].None?;
  }
}
