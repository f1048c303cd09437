/** The event operations of the API over a CalDAV calendar: fetch one
    event, list a time range, create, update and delete. The calendar
    server is a stand-in object holding the stored calendar objects by URL;
    every request the client sends is appended to its request log. */
module Events {

  import opened Wrappers
  import opened Strings
  import opened Values
  import opened EventModel
  import opened CalDavHelpers
  import opened DavClients
  import opened EventOrder
  import opened DavServer

  /** The calendar server: calendar objects (each the components of one
      iCalendar object) stored under their URLs. */
  type CalendarServer = Server<seq<Component>>

  /** The event object a caller passes in, which the operations update in place. */
  class EventRecord {
    var data: Event

    constructor (data: Event)
      ensures this.data == data
    {
      this.data := data;
    }
  }

  const RetrieveUidMessage := "Event UID must be provided for retrieval"
  const RangeMessage := "Both start and end datetime must be provided"
  const SummaryMessage := "Event summary (title) is required"
  const StartMessage := "Event start time is required"
  const UpdateUidMessage := "Event UID is required for updates"
  const DeleteUidMessage := "Event UID must be provided for deletion"

  function NotFoundMessage(uid: string): string {
    "Event with UID " + uid + " not found"
  }

  /** The URL of an event: `<uid>.ics` under the calendar. */
  function EventUrl(c: Client, uid: string): (r: string)
    ensures StartsWith(r, c.baseUrl)
  {
    BuildUrl(c, uid + ".ics")
  }

  /** What fetching the event stored at `url` gives: nothing when the server
      has no object there, otherwise the parsed event or the parse error;
      a failing server's status goes through the client's dispatch. */
  function Lookup(p: Platform, resources: map<string, seq<Component>>, outage: Option<FailureStatus>,
                  url: string, privacy: Option<bool>): (r: Result<Option<Event>>)
    ensures r == Ok(None) <==> outage == Some(404) || (outage.None? && url !in resources)
    ensures outage.Some? && r.Err? ==> r.error == StatusError(outage.value)
    ensures r.Ok? && r.value.Some? ==> outage.None? && url in resources
  {
    if outage.Some? then
      if outage.value == 404 then Ok(None) else Err(StatusError(outage.value))
    else if url !in resources then Ok(None)
    else match ParseIcalToEvent(p, resources[url], url, privacy)
      case Err(e) => Err(e)
      case Ok(ev) => Ok(Some(ev))
  }

  /** `get_event_by_uid`: an empty UID is refused before any request; else
      one `GET` of the event URL, 404 meaning no such event. */
  method GetEventByUid(server: CalendarServer, c: Client, p: Platform, uid: string, privacy: Option<bool>)
    returns (r: Result<Option<Event>>)
    modifies server
    ensures uid == "" ==> r == Err(ValueError(RetrieveUidMessage)) && server.requests == old(server.requests)
    ensures uid != "" ==> server.requests == old(server.requests) + [Request(GET, EventUrl(c, uid))]
    ensures server.resources == old(server.resources)
    ensures uid != "" ==> r == Lookup(p, server.resources, server.outage, EventUrl(c, uid), privacy)
  {
    if uid == "" {
      return Err(ValueError(RetrieveUidMessage));
    }
    var url := EventUrl(c, uid);
    var status, body := server.Get(url);
    var got := CalGetEvent(status, body);
    if got.Err? {
      return Err(got.error);
    }
    if got.value.None? {
      return Ok(None);
    }
    var parsed := ParseIcalToEvent(p, got.value.value, url, privacy);
    if parsed.Err? {
      return Err(parsed.error);
    }
    return Ok(Some(parsed.value));
  }

  /** `get_events_by_time_range`: both bounds are required; each is read
      with `datetime.fromisoformat` while the request body is built, so a
      bound that does not parse raises before anything is sent; then one
      `REPORT` on the calendar gives the events found, sorted by start. The
      server's choice of events and their parsing from its answer are the
      input `found`. */
  method GetEventsByTimeRange(server: CalendarServer, c: Client, p: Platform, start: string, end: string,
                              found: seq<Event>)
    returns (r: Result<seq<Event>>)
    modifies server
    ensures start == "" || end == "" ==> r == Err(ValueError(RangeMessage))
    ensures start != "" && end != "" && p.fromIso(start).None? ==> r == Err(IsoFormatError(start))
    ensures start != "" && end != "" && p.fromIso(start).Some? && p.fromIso(end).None? ==> r == Err(IsoFormatError(end))
    ensures server.requests == old(server.requests) + (if RangeReadable(p, start, end) then [Request(REPORT, c.baseUrl)] else [])
    ensures server.resources == old(server.resources)
    ensures RangeReadable(p, start, end) && server.outage.Some? ==> r == Err(StatusError(server.outage.value))
    ensures RangeReadable(p, start, end) && server.outage.None? ==> r == Ok(SortByStart(found))
  {
    if start == "" || end == "" {
      return Err(ValueError(RangeMessage));
    }
    var from := p.fromIso(start);
    if from.None? {
      return Err(IsoFormatError(start));
    }
    var to := p.fromIso(end);
    if to.None? {
      return Err(IsoFormatError(end));
    }
    var status := server.Report(c.baseUrl);
    var answer := CalReportTimeRange(status, found);
    if answer.Err? {
      return Err(answer.error);
    }
    var events := SortEvents(answer.value);
    return Ok(events);
  }

  /** Both bounds are given and both parse as ISO datetimes: only then is a
      `REPORT` sent. */
  predicate RangeReadable(p: Platform, start: string, end: string) {
    start != "" && end != "" && p.fromIso(start).Some? && p.fromIso(end).Some?
  }

  /** The event with an empty UID replaced by the generated one. */
  function WithUid(e: Event, freshUid: string): (r: Event)
    ensures r.uid != "" || freshUid == ""
    ensures e.uid != "" ==> r == e
  {
    if e.uid == "" then e.(uid := freshUid) else e
  }

  /** `create_event`: a missing UID is generated first; then the summary and
      the start are required, in that order; the event is converted and put
      under its URL, which is recorded on the event once the server accepts. */
  method CreateEvent(server: CalendarServer, c: Client, p: Platform, ev: EventRecord, freshUid: string, now: DateTime)
    returns (r: Result<Event>)
    modifies server, ev
    ensures var e := WithUid(old(ev.data), freshUid);
            var url := EventUrl(c, e.uid);
            && (e.summary == "" ==> r == Err(ValueError(SummaryMessage)))
            && (e.summary != "" && e.start == "" ==> r == Err(ValueError(StartMessage)))
            && (r.Ok? <==> e.summary != "" && e.start != "" && IcalOf(p, e, now).Ok? && server.outage.None?)
            && (r.Ok? ==> ev.data == e.(url := Some(url)) && r.value == ev.data
                          && server.resources == old(server.resources)[url := [EventComponent(IcalOf(p, e, now).value)]]
                          && server.requests == old(server.requests) + [Request(PUT, url)])
            && (r.Err? ==> ev.data == e)
            && (server.requests == old(server.requests) ==> server.resources == old(server.resources))
            && (server.requests == old(server.requests) || server.requests == old(server.requests) + [Request(PUT, url)])
  {
    if ev.data.uid == "" {
      ev.data := ev.data.(uid := freshUid);
    }
    if ev.data.summary == "" {
      return Err(ValueError(SummaryMessage));
    }
    if ev.data.start == "" {
      return Err(ValueError(StartMessage));
    }
    var url := EventUrl(c, ev.data.uid);
    var ical := EventToIcal(p, ev.data, now);
    if ical.Err? {
      return Err(ical.error);
    }
    var status := server.Put(url, [EventComponent(ical.value)]);
    var failure := CalCreateEvent(status);
    if failure.Some? {
      return Err(failure.value);
    }
    ev.data := ev.data.(url := Some(url));
    return Ok(ev.data);
  }

  /** The event `update_event` writes: the payload, with `url` and `created`
      taken from the stored event only where the payload has none. */
  function Merged(e: Event, existing: Event): (r: Event)
    ensures r.(url := e.url, created := e.created) == e
    ensures CalDavHelpers.Truthy(e.url) ==> r.url == e.url
    ensures !CalDavHelpers.Truthy(e.url) ==> r.url == (if CalDavHelpers.Truthy(existing.url) then existing.url else None)
    ensures CalDavHelpers.Truthy(e.created) ==> r.created == e.created
    ensures !CalDavHelpers.Truthy(e.created) ==> r.created == existing.created
  {
    var url := if CalDavHelpers.Truthy(e.url) then e.url else if CalDavHelpers.Truthy(existing.url) then existing.url else None;
    var created := if CalDavHelpers.Truthy(e.created) then e.created else existing.created;
    e.(url := url, created := created)
  }

  /** The write half of `update_event`: fill in `url` and `created` from the
      stored event, convert, put under `url`, and record `url` on the event
      once the server accepts. */
  method PutMerged(server: CalendarServer, c: Client, p: Platform, ev: EventRecord, stored: Event, url: string, now: DateTime)
    returns (r: Result<Event>)
    modifies server, ev
    ensures var m := Merged(old(ev.data), stored);
            && (r.Ok? <==> IcalOf(p, m, now).Ok? && server.outage.None? && url in old(server.resources))
            && (IcalOf(p, m, now).Err? ==> server.requests == old(server.requests))
            && (IcalOf(p, m, now).Ok? ==> server.requests == old(server.requests) + [Request(PUT, url)])
            && (IcalOf(p, m, now).Ok? && server.outage.None? ==>
                  server.resources == old(server.resources)[url := [EventComponent(IcalOf(p, m, now).value)]])
            && (IcalOf(p, m, now).Err? || server.outage.Some? ==> server.resources == old(server.resources))
            && (r.Err? ==> ev.data == m)
            && (r.Ok? ==> ev.data == m.(url := Some(url)) && r.value == ev.data
                          && server.requests == old(server.requests) + [Request(PUT, url)]
                          && server.resources == old(server.resources)[url := [EventComponent(IcalOf(p, m, now).value)]])
  {
    ev.data := Merged(ev.data, stored);
    var ical := EventToIcal(p, ev.data, now);
    if ical.Err? {
      return Err(ical.error);
    }
    var status := server.Put(url, [EventComponent(ical.value)]);
    var failure := CalUpdateEvent(status);
    if failure.Some? {
      return Err(failure.value);
    }
    ev.data := ev.data.(url := Some(url));
    return Ok(ev.data);
  }

  /** `update_event`: the UID, summary and start are required, in that
      order; the stored event must exist (fetched without privacy); the
      merged event is put under its URL, which is recorded on the event once
      the server accepts. No `PUT` is sent for a missing event. */
  method UpdateEvent(server: CalendarServer, c: Client, p: Platform, ev: EventRecord, now: DateTime)
    returns (r: Result<Event>)
    modifies server, ev
    ensures var e := old(ev.data);
            var url := EventUrl(c, e.uid);
            var existing := Lookup(p, old(server.resources), server.outage, url, Some(false));
            && (e.uid == "" ==> r == Err(ValueError(UpdateUidMessage)))
            && (e.uid != "" && e.summary == "" ==> r == Err(ValueError(SummaryMessage)))
            && (e.uid != "" && e.summary != "" && e.start == "" ==> r == Err(ValueError(StartMessage)))
            && (e.uid == "" || e.summary == "" || e.start == "" ==> ev.data == e && server.requests == old(server.requests))
            && (e.uid != "" && e.summary != "" && e.start != "" ==>
                  && (existing.Err? ==> r == Err(existing.error))
                  && (existing == Ok(None) ==> r == Err(ValueError(NotFoundMessage(e.uid))))
                  && (existing.Err? || existing == Ok(None) ==>
                        ev.data == e && server.requests == old(server.requests) + [Request(GET, url)])
                  && (existing.Ok? && existing.value.Some? ==>
                        var m := Merged(e, existing.value.value);
                        && (r.Ok? <==> IcalOf(p, m, now).Ok?)
                        && (r.Err? ==> ev.data == m && server.requests == old(server.requests) + [Request(GET, url)])
                        && (r.Ok? ==> ev.data == m.(url := Some(url)) && r.value == ev.data
                                      && server.requests == old(server.requests) + [Request(GET, url)] + [Request(PUT, url)]
                                      && server.resources == old(server.resources)[url := [EventComponent(IcalOf(p, m, now).value)]])))
            && (r.Err? ==> server.resources == old(server.resources))
  {
    if ev.data.uid == "" {
      return Err(ValueError(UpdateUidMessage));
    }
    if ev.data.summary == "" {
      return Err(ValueError(SummaryMessage));
    }
    if ev.data.start == "" {
      return Err(ValueError(StartMessage));
    }
    var url := EventUrl(c, ev.data.uid);
    var existing := GetEventByUid(server, c, p, ev.data.uid, Some(false));
    if existing.Err? {
      return Err(existing.error);
    }
    if existing.value.None? {
      return Err(ValueError(NotFoundMessage(ev.data.uid)));
    }
    r := PutMerged(server, c, p, ev, existing.value.value, url, now);
  }

  predicate Found(got: Result<Option<Event>>) {
    got.Ok? && got.value.Some?
  }

  /** What `delete_event` answers after looking the event up: the lookup's
      error, `False` when there is no event, and otherwise `True`. */
  function DeleteOutcome(got: Result<Option<Event>>): (r: Result<bool>)
    ensures r == Ok(true) <==> Found(got)
    ensures r == Ok(false) <==> got == Ok(None)
  {
    match got
    case Err(e) => Err(e)
    case Ok(None) => Ok(false)
    case Ok(Some(_)) => Ok(true)
  }

  /** `delete_event`: an empty UID is refused; a missing event gives `False`
      with no `DELETE` sent, so deleting it again gives `False` again; a
      stored event is removed and gives `True`. */
  method DeleteEvent(server: CalendarServer, c: Client, p: Platform, uid: string) returns (r: Result<bool>)
    modifies server
    ensures uid == "" ==> r == Err(ValueError(DeleteUidMessage)) && server.requests == old(server.requests)
                          && server.resources == old(server.resources)
    ensures uid != "" ==> r == DeleteOutcome(Lookup(p, old(server.resources), server.outage, EventUrl(c, uid), Some(false)))
    ensures uid != "" && !Found(Lookup(p, old(server.resources), server.outage, EventUrl(c, uid), Some(false))) ==>
              server.resources == old(server.resources)
              && server.requests == old(server.requests) + [Request(GET, EventUrl(c, uid))]
    ensures uid != "" && Found(Lookup(p, old(server.resources), server.outage, EventUrl(c, uid), Some(false))) ==>
              server.resources == old(server.resources) - {EventUrl(c, uid)}
              && server.requests == old(server.requests) + [Request(GET, EventUrl(c, uid))] + [Request(DELETE, EventUrl(c, uid))]
  {
    if uid == "" {
      return Err(ValueError(DeleteUidMessage));
    }
    var url := EventUrl(c, uid);
    var existing := GetEventByUid(server, c, p, uid, Some(false));
    if existing.Err? {
      return Err(existing.error);
    }
    if existing.value.None? {
      return Ok(false);
    }
    var status := server.Delete(url);
    r := CalDeleteEvent(status);
  }

  /** An event just created can be fetched back from its URL with its UID,
      summary and URL. */
  lemma CreatedEventFetched(p: Platform, resources: map<string, seq<Component>>, e: Event, now: DateTime, url: string)
    requires IcalOf(p, e, now).Ok?
    ensures var got := Lookup(p, resources[url := [EventComponent(IcalOf(p, e, now).value)]], None, url, Some(false));
            got.Ok? && got.value.Some? && got.value.value.uid == e.uid && got.value.value.summary == e.summary
            && got.value.value.url == Some(url)
  {
    TextRoundTrip(p, e, now, url);
  }
}
