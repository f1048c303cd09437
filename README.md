# A Dafny model of the Nextcloud CalDAV/CardDAV API core

This project models the core of a small HTTP API that sits in front of a
Nextcloud server and exposes its calendars (CalDAV) and address books
(CardDAV). It then proves properties of that model.

- **Reminder codec.** A VALARM TRIGGER (section 3.8.6.3 of RFC 5545) becomes a
  structured reminder, and the reminder is encoded back to a trigger. The
  codec uses the DURATION subset `[-]P[nD][T[nH][nM][nS]]` of section 3.3.6 of
  RFC 5545, without the week form. It also uses the timezone helpers that
  attach, read and extract zone ids.
- **Event and contact operations.** Fetch, list, create, update and delete run
  over a stand-in DAV server. The server is a class holding a map from URL to
  stored resource and a log of the requests sent.
- **DAV clients.** The model covers URL building and the status-code dispatch
  of every client method and of both status handlers.
- **vCard and iCalendar field mapping.** This covers birthdays, groups, privacy
  masking, attendees, reminders and all-day dates. Both directions are modelled
  over abstract parsed records.
- **CardDAV search filter.** The `CARDDAV:filter` element is built with
  `test="anyof|allof"` (section 10.5 of RFC 6352).
- **Authentication.** The circuit breaker, the retry loop with its credential
  cache, and the HTTP Basic header (section 2 of RFC 7617). The header is
  UTF-8 encoded and then Base64 encoded as in section 4 of RFC 4648.
- **Audit log.** An append-only log of JSON lines.
- **Validators.** The UID and date-range validators of the query parameters.
- **Search criteria.** `search_type` and `to_dict` of the event search criteria.

## How the model represents the system

- Durations are whole signed seconds.
- A datetime is a wall-clock second count plus an optional zone (`Values.DateTime`).
- The library functions this code calls are collected in a `Platform` value
  that every operation takes as a parameter. These are
  `datetime.fromisoformat`, `isoformat()`, `str()` and the zone database.
  The model only assumes what Python documents about them.
- The DAV servers are `DavServer.Server` objects.
  - The resource map and the request log are fields that the operations update.
  - An `outage` status stands for any non-success answer.
- The objects the source updates in place are classes: the event and the
  contact a caller passes in, the authenticator's cache and breaker state, and
  the audit log.
- The clock, generated UIDs, the server's answers and the time of each retry
  are parameters.

Where the written design and the code disagree, the model follows the code:

- Contact delete is not idempotent. A second delete gets 404.
- There is no ETag check: updates are unconditional PUTs.
- `update_contact` creates a contact that is missing.
- Both status handlers let 207 through, so several client methods treat 207 as success.
- `create_contact` records the URL on the contact before the PUT, so the URL
  stays there even when the server refuses.
- The query-parameter validators are modelled as plain functions. The fields
  validated before the end field are passed as a map of texts. Pydantic would
  collect every error; the model returns only the first error.

## Model

| member | source | states |
|---|---|---|
| Durations.ParseDuration | app/src/reminders/utils.py:117-137 | empty text is refused; via the lemmas below, the text is matched after stripping and ignoring case |
| Durations.TruncateToSeconds | app/src/reminders/utils.py:237-239 | a microsecond count truncates toward zero to whole seconds: the result's magnitude is the largest whole number of seconds within the input's, and the sign is kept (zero aside) |
| Durations.Fields | app/src/reminders/utils.py:241-243 | days, hours < 24, minutes < 60 and seconds < 60 add back to the total |
| Durations.TimedeltaToIso8601 | app/src/reminders/utils.py:235-259 | the loop that appends the parts yields exactly the rendering of the truncated duration |
| Durations.DivModFields | app/src/reminders/utils.py:241-243 | the three chained divmods give the days, hours, minutes and seconds of the total |
| Durations.CollectTimeParts | app/src/reminders/utils.py:245-258 | the appended hour, minute and second parts, with `0S` when nothing else is present, form the time text after `T` |
| Durations.RoundTrip | app/src/reminders/utils.py:124-137 | parsing the rendering of any signed whole-second duration gives it back |
| Durations.FormatZero | app/src/reminders/utils.py:255-256 | zero renders as `PT0S` |
| Durations.FormatSign | app/src/reminders/utils.py:237-259 | the rendering starts with `-` iff the duration is negative |
| Durations.FormatLetters | app/src/reminders/utils.py:245-259 | `D`, `H` and `M` appear iff their field is non-zero; `S` iff seconds are non-zero or the duration is zero; `T` iff some time field is non-zero or the duration is zero |
| Durations.AfterPRoundTrip | app/src/reminders/utils.py:124-134 | the text after `P` parses back to the total seconds of its fields |
| Durations.PaddingIgnored | app/src/reminders/utils.py:124 | surrounding whitespace does not change the parse |
| Durations.CaseInsensitive | app/src/reminders/utils.py:117-121 | upper-casing the text does not change the parse |
| Durations.SignNegates | app/src/reminders/utils.py:129-137 | a leading `-` is accepted exactly when the unsigned text is, and negates the value |
| Durations.BareP | app/src/reminders/utils.py:117-137 | `P` alone parses to zero |
| Durations.BarePT | app/src/reminders/utils.py:117-137 | `PT` alone parses to zero |
| Timezones.TimezoneFromDatetime | app/src/common/timezones.py:37-46 | a naive value has no zone; an aware one gives its zone's key when that is non-empty, else the zone's name |
| Timezones.ApplyTimezone | app/src/common/timezones.py:49-61 | returns the input when the value is missing or aware, the zone is blank, or the zone is unknown; otherwise only the zone changes and the wall clock is kept |
| Timezones.ExtractTimezoneFromProperty | app/src/common/timezones.py:16-34 | an explicit TZID wins; otherwise the value's own zone, and nothing for a missing property or a date value |
| Timezones.AwareIsFixed | app/src/common/timezones.py:55-56 | once a value is aware, applying any further zone changes nothing |
| Timezones.ApplyIdempotent | app/src/common/timezones.py:49-61 | applying the same zone twice is the same as once |
| Timezones.ApplyThenRead | app/src/common/timezones.py:37-61 | a known zone attached to a naive value is the zone read back |
| Timezones.ApplyThenExtract | app/src/common/timezones.py:16-61 | a property holding that value without TZID yields the attached zone |
| Reminders.NormalizeReminderInput | app/src/reminders/utils.py:27-50 | `trigger` is dropped and unmanaged keys are kept; a missing mode is inferred (offset gives relative, then fire_time or trigger gives absolute); absolute clears relation and offset, keeps the timezone key and falls back to the trigger for fire_time; relative takes the offset, or the trigger only when the offset key is absent, and defaults the relation to START |
| Reminders.GetTriggerRelation | app/src/reminders/utils.py:80-86 | a present, non-empty RELATED value comes back with each ASCII letter upper-cased and nothing else changed; otherwise START |
| Reminders.CoerceToDatetime | app/src/reminders/utils.py:89-114 | datetimes are kept, dates become naive midnight, text goes through `fromisoformat`, and other values give nothing |
| Reminders.CoerceToTimedelta | app/src/reminders/utils.py:140-160 | durations are kept and text goes through the duration parser |
| Reminders.StringifyTrigger | app/src/reminders/utils.py:163-180 | nothing exactly for a missing value; text and bytes as they are |
| Reminders.Relation | app/src/reminders/utils.py:195 | END exactly for `END`, otherwise START |
| Reminders.BuildReminderPayload | app/src/reminders/utils.py:183-232 | fails iff the trigger is missing; a datetime reading is tried first and gives an absolute reminder with the trigger TZID or the value's own zone; otherwise a duration gives a relative reminder with the event zone, the fire time of the zoned reference plus the offset, and an offset that parses back; otherwise the trigger's text becomes an absolute fire time |
| Reminders.ReminderToIcalTrigger | app/src/reminders/utils.py:262-282 | relative: succeeds iff the offset is present and parses, giving the delta and the relation (default START); absolute: succeeds iff the fire time is present and parses; an aware fire time comes back as it is, a naive one gains the reminder's zone when the zone database knows it and stays naive otherwise |
| Reminders.ZoneRefreshIsRedundant | app/src/reminders/utils.py:275-282 | the absolute trigger's zone is the reminder's zone, else the fire time's own |
| Reminders.RelativeRoundTrip | app/src/reminders/utils.py:210-274 | a duration trigger built into a reminder encodes back to the same delta and relation |
| Reminders.EncodeRelative | app/src/reminders/utils.py:262-274 | a relative reminder whose offset is a rendered duration encodes to that duration |
| Reminders.AbsoluteRoundTrip | app/src/reminders/utils.py:195-282 | a datetime trigger built into a reminder encodes back to the same wall-clock time and zone |
| Reminders.UnreadableTextRejected | app/src/reminders/utils.py:223-282 | text that is neither a datetime nor a duration is kept as the fire time and then refused by the encoder |
| Reminders.CoerceFormatted | app/src/reminders/utils.py:140-259 | a rendered duration coerces back to itself |
| EventModel.ToIcalDatetime | src/models/event.py:150-169 | blank gives nothing; all-day gives the text up to its first `T` (all of it when there is none); otherwise the parsed datetime, or an error when it does not parse |
| EventModel.ValidateSearchType | src/models/event.py:234-237 | default `anyof`; only `anyof`/`allof` are accepted, and they are kept |
| EventModel.ToDict | src/models/event.py:239-248 | exactly the fields that are set, without `search_type` |
| EventModel.DefaultCriteria | src/models/event.py:171-248 | criteria left at their defaults dump to an empty dict and search `anyof` |
| DavClients.NewClient | app/src/nextcloud/libs/dav_clients.py:26-28 | the base URL ends in one `/` and is unchanged if it already did |
| DavClients.NewClientIdempotent | app/src/nextcloud/libs/dav_clients.py:26-28 | building a client from a client's base URL changes nothing |
| DavClients.BuildUrl | app/src/nextcloud/libs/dav_clients.py:30-33 | the base URL, then the path with its leading slashes removed |
| DavClients.SingleSeparator | app/src/nextcloud/libs/dav_clients.py:30-33 | exactly one `/` joins base and path |
| DavClients.LeadingSlashIgnored | app/src/nextcloud/libs/dav_clients.py:30-33 | an extra leading `/` on the path does not change the URL |
| DavClients.CardReport | app/src/nextcloud/libs/dav_clients.py:55-69 | the body iff 207, else the status error |
| DavClients.CardGetContact | app/src/nextcloud/libs/dav_clients.py:71-79 | 404 gives nothing; 200 and 207 give the body; anything else is the status error |
| DavClients.CardCreateContact | app/src/nextcloud/libs/dav_clients.py:81-91 | success iff 201, 204 or 207; any other status raises itself, a 5xx status as 500 |
| DavClients.CardUpdateContact | app/src/nextcloud/libs/dav_clients.py:93-108 | success iff 200, 201, 204 or 207 |
| DavClients.CardDeleteContact | app/src/nextcloud/libs/dav_clients.py:110-126 | success iff 200, 204 or 207; 404 raises 404 |
| DavClients.CalReportTimeRange | app/src/nextcloud/libs/dav_clients.py:132-139 | the body iff 200 or 207 |
| DavClients.CalGetEvent | app/src/nextcloud/libs/dav_clients.py:141-152 | 404 gives nothing; 200 and 207 give the body |
| DavClients.CalCreateEvent | app/src/nextcloud/libs/dav_clients.py:154-159 | success iff 200, 201, 204 or 207 |
| DavClients.CalUpdateEvent | app/src/nextcloud/libs/dav_clients.py:161-166 | success iff 200, 204 or 207 |
| DavClients.CalDeleteEvent | app/src/nextcloud/libs/dav_clients.py:168-177 | true iff 200, 204 or 207; false iff 404 |
| CardDavHelpers.HandleResponseStatus | src/nextcloud/libs/carddav_helpers.py:61-81 | passes iff 207; 5xx raises 500; every other status raises itself |
| CardDavHelpers.PropFilters | src/nextcloud/libs/carddav_helpers.py:352-355 | at most one filter per criterion |
| CardDavHelpers.CreateSearchFilterXml | src/nextcloud/libs/carddav_helpers.py:332-367 | the loop builds exactly the filter of the qualifying criteria |
| CardDavHelpers.NoFilterIff | src/nextcloud/libs/carddav_helpers.py:341-358 | no filter iff no criterion has a mapped key and a non-empty value |
| CardDavHelpers.FilterTestAttribute | src/nextcloud/libs/carddav_helpers.py:360-363 | the filter element carries `test="<search_type>"` |
| CardDavHelpers.CreateSearchRequestXml | src/nextcloud/libs/carddav_helpers.py:370-392 | the request body carries the search filter of the criteria; no criteria, or empty criteria, give a request with no filter |
| CardDavHelpers.RequestCarriesFilter | src/nextcloud/libs/carddav_helpers.py:381-392 | the filter of the criteria sits in the request right after the `prop` element |
| CardDavHelpers.RequestUnfilteredIff | src/nextcloud/libs/carddav_helpers.py:370-392 | the request holds no filter iff no criterion has a mapped field and a non-empty value |
| CardDavHelpers.Dashed | src/nextcloud/libs/carddav_helpers.py:233-248 | eight digits become `YYYY-MM-DD` with the same digits |
| CardDavHelpers.NormalizeBirthday | src/nextcloud/libs/carddav_helpers.py:220-251 | 8 digits are dashed and dashed dates are kept; a longer value with a `T` becomes its part before the first `T`, dashed when that part has 8 characters; anything else is kept as it is |
| CardDavHelpers.BirthdayIdempotent | src/nextcloud/libs/carddav_helpers.py:220-251 | normalising twice is the same as once |
| CardDavHelpers.MemberGroup | src/nextcloud/libs/carddav_helpers.py:280-289 | with `urn:uuid:` present, the group is the suffix after its last occurrence: it holds no `urn:uuid:` and the text before it ends with one; otherwise the whole value |
| CardDavHelpers.LastPieceAfterLast | src/nextcloud/libs/carddav_helpers.py:285-286 | the last piece of a split holds no separator and follows one, or is the whole text when the separator is absent |
| CardDavHelpers.CollectGroups | src/nextcloud/libs/carddav_helpers.py:262-289 | the loop yields categories, then group values, then member ids, in that order |
| CardDavHelpers.CollectLineValues | src/nextcloud/libs/carddav_helpers.py:273-277 | the loop keeps the non-empty values of the `X-ADDRESSBOOKSERVER-GROUP` lines, in order |
| CardDavHelpers.CollectMemberGroups | src/nextcloud/libs/carddav_helpers.py:279-289 | the loop keeps, for each non-empty member line in order, the text after the last `urn:uuid:` or the whole value |
| CardDavHelpers.AddressOf | src/nextcloud/libs/carddav_helpers.py:172-218 | privacy masks street and city and drops the postal code; otherwise the fields are copied |
| CardDavHelpers.NotesOf | src/nextcloud/libs/carddav_helpers.py:253-259 | the note is kept only when privacy is explicitly off, otherwise masked |
| CardDavHelpers.Emails | src/nextcloud/libs/carddav_helpers.py:141-154 | one e-mail per EMAIL line, in order |
| CardDavHelpers.Phones | src/nextcloud/libs/carddav_helpers.py:156-169 | one phone per TEL line, in order |
| CardDavHelpers.Addresses | src/nextcloud/libs/carddav_helpers.py:171-218 | one address per ADR line, in order |
| CardDavHelpers.ParseVcardAsWritten | src/nextcloud/libs/carddav_helpers.py:110-310 | the function as written: with privacy on and a BDAY, the whole contact is lost |
| CardDavHelpers.BirthdayReturnLosesContact | src/nextcloud/libs/carddav_helpers.py:227-230 | a concrete contact with a birthday parses to nothing under privacy |
| CardDavHelpers.ParseVcardToContact | src/nextcloud/libs/carddav_helpers.py:110-310 | uid, name and URL are copied; privacy drops the birthday, otherwise it is normalised; groups are collected |
| CardDavHelpers.PrivacyMasks | src/nextcloud/libs/carddav_helpers.py:184-259 | under privacy, every address and the note are masked |
| CardDavHelpers.ContactToVcard | src/nextcloud/libs/carddav_helpers.py:395-473 | the step-by-step vCard equals the field mapping of the contact |
| CardDavHelpers.AddEmails | src/nextcloud/libs/carddav_helpers.py:427-433 | one EMAIL line per email, in order, typed by its tag when it has one |
| CardDavHelpers.AddPhones | src/nextcloud/libs/carddav_helpers.py:435-441 | one TEL line per phone, in order, typed by its tag when it has one |
| CardDavHelpers.AddAddresses | src/nextcloud/libs/carddav_helpers.py:443-456 | one ADR line per address, in order, with missing parts as empty text |
| CardDavHelpers.VcardRoundTrip | src/nextcloud/libs/carddav_helpers.py:110-473 | a contact written to a vCard and read back keeps its uid, name, e-mail addresses, phone numbers, normalised birthday, truthy note and non-empty groups |
| CalDavHelpers.HandleCalDavResponseStatus | src/nextcloud/libs/caldav_helpers.py:220-240 | passes iff 200 or 207; 5xx raises 500; every other status raises itself |
| CalDavHelpers.TextOf | src/nextcloud/libs/caldav_helpers.py:183-190 | an empty string becomes nothing, anything else is kept |
| CalDavHelpers.FormatDatetime | src/nextcloud/libs/caldav_helpers.py:93-123 | nothing for a missing property; ISO text for datetimes, `str()` otherwise |
| CalDavHelpers.Param | src/nextcloud/libs/caldav_helpers.py:171-190 | a parameter is read only when present and non-empty |
| CalDavHelpers.AttendeeItems | src/nextcloud/libs/caldav_helpers.py:160-164 | a single attendee is wrapped in a list |
| CalDavHelpers.AttendeesOf | src/nextcloud/libs/caldav_helpers.py:149-192 | one attendee per address, in order |
| CalDavHelpers.ParseAttendees | src/nextcloud/libs/caldav_helpers.py:149-192 | the loop yields exactly the attendees of the addresses |
| CalDavHelpers.RemindersOf | src/nextcloud/libs/caldav_helpers.py:194-218 | one reminder per alarm, in order |
| CalDavHelpers.ParseReminders | src/nextcloud/libs/caldav_helpers.py:194-218 | the loop yields exactly the reminders of the alarms |
| CalDavHelpers.FirstEvent | src/nextcloud/libs/caldav_helpers.py:38-44 | nothing iff there is no VEVENT; otherwise one that occurs in the calendar |
| CalDavHelpers.NonEmpty | src/nextcloud/libs/caldav_helpers.py:70-79 | an empty list becomes nothing |
| CalDavHelpers.ParseIcalToEvent | src/nextcloud/libs/caldav_helpers.py:19-91 | fails iff there is no VEVENT or it has no DTSTART; privacy drops the description; the organizer loses every `mailto:`; categories become a non-empty list or nothing; location, status and recurrence are read as texts and the dates through format_datetime |
| CalDavHelpers.ParamsOf | src/nextcloud/libs/caldav_helpers.py:430-438 | CN, ROLE, PARTSTAT and CUTYPE are set exactly for the truthy attendee fields, with their values |
| CalDavHelpers.DatesOf | src/nextcloud/libs/caldav_helpers.py:379-412 | the start and end parse as given; a missing created time is now; a date that does not parse is an error |
| CalDavHelpers.Addresses | src/nextcloud/libs/caldav_helpers.py:426-440 | one address per attendee |
| CalDavHelpers.Alarms | src/nextcloud/libs/caldav_helpers.py:443-454 | one alarm per reminder, in order |
| CalDavHelpers.AddAttendees | src/nextcloud/libs/caldav_helpers.py:426-440 | the loop adds exactly those addresses |
| CalDavHelpers.AddAlarms | src/nextcloud/libs/caldav_helpers.py:443-454 | the loop adds exactly those alarms |
| CalDavHelpers.ReadDates | src/nextcloud/libs/caldav_helpers.py:379-412 | the step-by-step reading equals the dates function |
| CalDavHelpers.EventToIcal | src/nextcloud/libs/caldav_helpers.py:331-460 | the step-by-step component equals the field mapping of the event |
| CalDavHelpers.AlarmsDescribed | src/nextcloud/libs/caldav_helpers.py:448-452 | every alarm has a non-empty description, defaulting to `Reminder for: <summary>` |
| CalDavHelpers.AllDayRoundTrip | src/nextcloud/libs/caldav_helpers.py:125-394 | an event written and read back is all-day iff it was written as all-day (dates, not datetimes) |
| CalDavHelpers.TextRoundTrip | src/nextcloud/libs/caldav_helpers.py:19-460 | uid, summary, URL, description, location, status, recurrence and organizer survive writing and reading back, empty texts reading back as nothing |
| CalDavHelpers.OrganizerMailtoStripped | src/nextcloud/libs/caldav_helpers.py:69 | an organizer stored as `mailto:` plus an address reads back as the bare address |
| CalDavHelpers.AttendeeRoundTrip | src/nextcloud/libs/caldav_helpers.py:159-440 | an attendee written and read back keeps its address and its non-empty parameters |
| CalDavHelpers.AttendeesRoundTrip | src/nextcloud/libs/caldav_helpers.py:426-440 | the written attendee list holds one address per attendee, in order |
| CalDavHelpers.RemindersRoundTrip | src/nextcloud/libs/caldav_helpers.py:194-454 | reminders survive writing and reading back, the description defaulting to `Reminder for: <summary>` |
| EventOrder.LexReflexive | app/src/nextcloud/events.py:125 | the string order that sorts events is reflexive |
| EventOrder.LexTotal | app/src/nextcloud/events.py:125 | it is total |
| EventOrder.LexTransitive | app/src/nextcloud/events.py:125 | it is transitive |
| EventOrder.LexAntisymmetric | app/src/nextcloud/events.py:125 | it is antisymmetric |
| EventOrder.InsertPermutes | app/src/nextcloud/events.py:125 | insertion adds exactly the one event |
| EventOrder.InsertSorted | app/src/nextcloud/events.py:125 | insertion keeps a list sorted by start |
| EventOrder.InsertStable | app/src/nextcloud/events.py:125 | insertion places the new event after those with the same start |
| EventOrder.SortIsSorted | app/src/nextcloud/events.py:125 | the result is sorted by start, a missing start counting as `""` |
| EventOrder.SortPermutes | app/src/nextcloud/events.py:125 | the result is a permutation of the input |
| EventOrder.SortIsStable | app/src/nextcloud/events.py:125 | events with equal starts keep their order |
| EventOrder.SortedFirstIsEarliest | app/src/nextcloud/events.py:125 | the first event starts no later than any event of the input |
| EventOrder.SortEvents | app/src/nextcloud/events.py:125 | the in-order sorting loop yields the sorted list |
| Events.EventUrl | app/src/nextcloud/events.py:62-63 | the event URL extends the calendar's base URL |
| Events.Lookup | app/src/nextcloud/events.py:57-71 | nothing iff the server answers 404 or has no resource there; other failures are status errors |
| Events.GetEventByUid | app/src/nextcloud/events.py:27-71 | an empty uid is refused with no request; otherwise one GET of the event URL, answering the lookup, with nothing stored changed |
| Events.GetEventsByTimeRange | app/src/nextcloud/events.py:74-129 | a missing start or end is refused, and a bound that fromisoformat cannot read raises, both with no request; otherwise one REPORT and the events sorted by start |
| Events.WithUid | app/src/nextcloud/events.py:163-165 | a missing uid is replaced by the generated one, a present one is kept |
| Events.CreateEvent | app/src/nextcloud/events.py:132-191 | uid first, then summary, then start are checked in that order; on success the event carries its URL and is stored there by one PUT; on failure nothing is stored |
| Events.Merged | app/src/nextcloud/events.py:246-251 | every field comes from the payload, except that a missing url or created time is taken from the stored event |
| Events.PutMerged | app/src/nextcloud/events.py:246-264 | the merged event is written by one PUT under its URL whenever it converts, and stored there whenever the server is up, even when a 201 answer makes the update fail; success iff the URL already held a resource, and then the URL is recorded on the event |
| Events.UpdateEvent | app/src/nextcloud/events.py:194-264 | uid, summary and start are checked in order; a missing event is `not found` with no PUT; otherwise the merged event is stored and returned; on failure nothing stored changes |
| Events.DeleteOutcome | app/src/nextcloud/events.py:289-318 | true iff the event was found, false iff it was absent |
| Events.DeleteEvent | app/src/nextcloud/events.py:267-318 | an empty uid is refused; an absent event gives false with no DELETE; a found one is removed by one DELETE |
| Events.CreatedEventFetched | app/src/nextcloud/events.py:27-191 | a created event is fetched back with its uid, summary and URL |
| Contacts.ContactUrl | app/src/nextcloud/contacts.py:257-260 | the address book URL with exactly one `/`, then `<uid>.vcf` |
| Contacts.DeletedMessage | app/src/nextcloud/contacts.py:447 | the message names the uid |
| Contacts.ContactLookup | app/src/nextcloud/contacts.py:484-517 | nothing iff 404 or no vCard there; otherwise the stored vCard read as a contact under its URL, with its uid |
| Contacts.GetContactByUid | app/src/nextcloud/contacts.py:453-520 | an empty uid is refused with no request; otherwise one GET answering the lookup |
| Contacts.CreateContact | app/src/nextcloud/contacts.py:216-294 | a missing uid is generated; the URL is recorded first; one PUT stores the vCard iff the server accepts |
| Contacts.UpdateContact | app/src/nextcloud/contacts.py:297-379 | the uid is required; an existing URL is used as it is, otherwise the built URL is recorded; one PUT, with no existence check |
| Contacts.DeleteContact | app/src/nextcloud/contacts.py:382-450 | the uid is required; one DELETE; a missing contact is a 404 error, so a second delete fails |
| Contacts.CreatedContactFetched | app/src/nextcloud/contacts.py:216-520 | a created contact is fetched back with its uid, name, URL, e-mails, phones, note and groups |
| Sec.CacheKey | app/src/common/sec.py:34-35 | the username, one `:`, then the password |
| Sec.CacheKeyUser | app/src/common/sec.py:34-35 | the username is the text before the first `:` when it has none itself |
| Sec.CacheKeyInjective | app/src/common/sec.py:34-35 | two credentials without `:` in the username share a key only when equal |
| Sec.BasicAuthHeader | app/src/common/sec.py:184-218 | the header starts with `Basic ` |
| Sec.BasicAuthDecodes | app/src/common/sec.py:184-218 | the rest decodes to the UTF-8 bytes of `username:password` |
| Sec.BasicAuthExample | app/src/common/sec.py:204-206 | user/pass gives `Basic dXNlcjpwYXNz` |
| Sec.Admit | app/src/common/sec.py:38-47 | a request let through leaves the circuit not open; an expired open circuit is reset |
| Sec.Fail | app/src/common/sec.py:56-61 | the failure count goes up by one, or the circuit opens until now plus the reset time with the count zeroed; the count stays below the threshold |
| Sec.FailuresCountUp | app/src/common/sec.py:56-61 | failures below the threshold only count up |
| Sec.BreakerOpensAtThreshold | app/src/common/sec.py:56-61 | the threshold-th consecutive failure opens the circuit from its time |
| Sec.FailuresSplit | app/src/common/sec.py:56-61 | recording failures in two batches is recording them all |
| Sec.Limit | app/src/common/sec.py:122-181 | at least one attempt, and `AUTH_MAX_RETRIES + 1` of them |
| Sec.Verdict | app/src/common/sec.py:137-167 | 200 gives the body; any other non-retryable status raises itself |
| Sec.RunShape | app/src/common/sec.py:122-181 | every earlier attempt was retryable; the run ends with the verdict of a non-retryable answer and a closed circuit, or with 503 after the last attempt; the failure count stays below the threshold |
| Sec.RunStopsAt | app/src/common/sec.py:122-181 | the first non-retryable answer ends the run with its verdict |
| Sec.RunSucceeds | app/src/common/sec.py:122-181 | the run succeeds with a body iff some attempt within the limit answers 200 with it after only retryable answers |
| Sec.RunGivesUp | app/src/common/sec.py:151-181 | when every attempt is retryable, the run makes all of them and answers 503 |
| Sec.Authenticator.constructor | app/src/common/sec.py:21-31 | an empty cache and a closed circuit |
| Sec.Authenticator.EnsureCircuitAllowsRequest | app/src/common/sec.py:38-47 | refuses with 503 iff the circuit is open and now is before its end; otherwise admits |
| Sec.Authenticator.RecordSuccess | app/src/common/sec.py:50-53 | the circuit is closed |
| Sec.Authenticator.RecordFailure | app/src/common/sec.py:56-61 | the circuit records one failure |
| Sec.Authenticator.Authenticate | app/src/common/sec.py:64-181 | a cache hit answers with nothing else changed; an open circuit answers 503 with no attempt; otherwise the loop's answer, attempts and circuit are those of the run, a success is cached, and the waits are backoff times 1, 2, … |
| Encodings.Utf8Char | app/src/common/sec.py:211-213 | one to four bytes; one byte exactly below U+0080, a lead byte and continuation bytes otherwise |
| Encodings.Utf8Ascii | app/src/common/sec.py:211-213 | ASCII text encodes to its code points |
| Encodings.DigitValue | app/src/common/sec.py:211-213 | the Base64 alphabet is read back to its values |
| Encodings.Base64 | app/src/common/sec.py:211-213 | four characters per three bytes, rounded up |
| Encodings.FullGroup | app/src/common/sec.py:211-213 | three bytes survive a group of four characters |
| Encodings.TwoByteGroup | app/src/common/sec.py:211-213 | two bytes survive a group with one `=` |
| Encodings.OneByteGroup | app/src/common/sec.py:211-213 | one byte survives a group with two `=` |
| Encodings.Base64RoundTrip | app/src/common/sec.py:211-213 | decoding the encoding gives the bytes back |
| Encodings.Base64Injective | app/src/common/sec.py:211-213 | different bytes never share an encoding |
| Audit.HexDigit | app/src/common/audit.py:49 | a printable hex digit |
| Audit.UnicodeEscape | app/src/common/audit.py:49 | `\uXXXX` is six printable characters |
| Audit.EscapeChar | app/src/common/audit.py:49 | every character escapes to printable ASCII |
| Audit.EscapeAllPrintable | app/src/common/audit.py:49 | escaped text is printable ASCII |
| Audit.QuotePrintable | app/src/common/audit.py:49 | a quoted string is printable ASCII |
| Audit.JoinPrintable | app/src/common/audit.py:49 | joining printable parts stays printable |
| Audit.EncodePrintable | app/src/common/audit.py:49 | every JSON value encodes to printable ASCII, so with no line break |
| Audit.EntryJson | app/src/common/audit.py:41-48 | the entry has timestamp, resource, action, uid, before and after in that order, the last two defaulting to null |
| Audit.Line | app/src/common/audit.py:49 | a line holds no line break |
| Audit.LinesCons | app/src/common/audit.py:18-21 | a line then a break splits into that line and the rest |
| Audit.SplitJoined | app/src/common/audit.py:18-21 | lines written one per row are read back as written |
| Audit.JoinedSnoc | app/src/common/audit.py:18-21 | writing one more line appends it after the earlier text |
| Audit.LinesOf | app/src/common/audit.py:24-50 | one line per entry |
| Audit.LinesOfAt | app/src/common/audit.py:24-50 | the k-th line is the k-th entry's |
| Audit.FileLines | app/src/common/audit.py:18-50 | the file splits into exactly one line per entry, each the entry's JSON |
| Audit.FileGrows | app/src/common/audit.py:18-21 | one more entry only appends its line and a break |
| Audit.AuditLog.constructor | app/src/common/audit.py:15 | an empty log |
| Audit.AuditLog.RecordChange | app/src/common/audit.py:24-50 | exactly one entry and its line are appended; the earlier text is unchanged |
| ApiParams.FirstListed | app/src/models/api_params.py:54-57 | the first listed reserved character found in the uid, or nothing iff none is in it |
| ApiParams.ValidateUid | app/src/models/api_params.py:39-59 | too short and too long are refused first |
| ApiParams.StripEmptyIffSpace | app/src/models/api_params.py:50-51 | stripping leaves nothing iff the uid is all whitespace |
| ApiParams.FirstListedNone | app/src/models/api_params.py:54-57 | the search finds nothing iff the uid holds no reserved character |
| ApiParams.UidAcceptedIff | app/src/models/api_params.py:39-59 | accepted iff 1 to 255 characters, not all whitespace, and free of the reserved characters |
| ApiParams.UidBlankRefused | app/src/models/api_params.py:50-51 | a whitespace-only uid is refused as blank |
| ApiParams.UidInvalidCharNamed | app/src/models/api_params.py:54-57 | a refused uid holds one of the listed characters |
| ApiParams.StripChars | app/src/models/api_params.py:59 | stripping only removes characters |
| ApiParams.StripIdempotent | app/src/models/api_params.py:59 | stripping twice is stripping once |
| ApiParams.UidAcceptedShape | app/src/models/api_params.py:59 | the accepted uid is the stripped text: non-empty, within length, free of reserved characters, with no surrounding whitespace |
| ApiParams.FreeOfInvalidKept | app/src/models/api_params.py:54-59 | text made of a clean uid's characters is clean |
| ApiParams.UidIdempotent | app/src/models/api_params.py:47-59 | validating an accepted uid again gives it back |
| ApiParams.ValidateDatetimeFormat | app/src/models/api_params.py:79-86 | accepted iff `fromisoformat` reads it; the error names the text |
| ApiParams.NotAfter | app/src/models/api_params.py:88-96 | comparing naive with aware is an error; otherwise true iff start is not before end |
| ApiParams.ValidateEndAfterStart | app/src/models/api_params.py:88-96 | with no valid start the end is kept; otherwise accepted iff strictly after the start, else the end-before-start error |
| ApiParams.ValidateRange | app/src/models/api_params.py:79-96 | the start is checked first, then the end's format, then the order; an accepted range comes back as given |
| ApiParams.RangeAcceptedIff | app/src/models/api_params.py:79-96 | a range is accepted iff both ends parse, are comparable and the start is strictly before the end |
| ApiParams.RangeStartFirst | app/src/models/api_params.py:79-86 | a bad start is reported before anything about the end |
| ApiParams.EmptyRangeRefused | app/src/models/api_params.py:88-96 | a range with equal ends is refused |
| ApiParams.ReversedRangeRefused | app/src/models/api_params.py:88-96 | of a range and its reverse, at most one is accepted |

## Left out

- Network I/O is not modelled: the HTTP sessions, proxies and timeouts. Servers are stand-in objects that answer with a status and a body.
- The vobject, icalendar and XML libraries are not modelled. Parsed vCards, calendars and REPORT results are abstract records, and the events found by a REPORT are an input of `Events.GetEventsByTimeRange`.
- The ETag conflict checks described for updates are not implemented in the modelled code, so they are not modelled.
- `validate_and_correct_url` is not part of this model; the contact operations use the URL unchanged.
- `datetime.fromisoformat`, `isoformat()`, `str()` of values and the zone database are uninterpreted functions of a `Platform` parameter. The UTC offsets of real zones are not modelled.
- The clock (`time.monotonic`, `datetime.now`) and `uuid4` are parameters.
- `asyncio` locks and `asyncio.to_thread` are not modelled; the breaker and the log are sequential.
- Float timeouts and backoff are not modelled. Backoff waits are integer milliseconds, and `asyncio.sleep` is returned as the list of waits.
- The credential cache's TTL (300 s) and size bound (100) are not modelled; the cache is a map.
- The request in the retry loop is an oracle `answer(attempt)`. JSON parsing of the 200 body is not modelled: the user data is a string.
- The `WWW-Authenticate` header and the detail texts of HTTP errors are not modelled; errors carry their status.
- The audit log file is a string field: creating its directory and opening it in append mode are not modelled.
- JSON encoding covers strings, integers, booleans, null, lists and objects; `default=str` on other values and floats are not modelled.
- Lone surrogate code points have no UTF-8 encoding in Python; `Encodings.Utf8Char` encodes every `char`.
- Durations.ParseDuration: matches ASCII digits only. Python's `\d` also matches other Unicode decimal digits.
- Routing, OpenAPI documentation, server start-up, the MCP tools and the proxy helper are not modelled: they hold no logic beyond error mapping.
- The older copies of the contact and event modules under `src/` repeat the rules of the `app/` modules and are not modelled twice.
- Durations with weeks (`nW`) are outside the pattern the code accepts and are not modelled.
- Durations.ParseDuration: the result is an unbounded number of seconds. Python's `timedelta` raises `OverflowError` past 999999999 days, so `P1000000000D` raises in the source and parses in the model. The conversion of very long digit runs by `int()`, which newer Pythons refuse, is not modelled either.
- Reminders.ReminderToIcalTrigger: a relative offset beyond the `timedelta` range is accepted, where the source raises `OverflowError`.
- Reminders.CoerceToTimedelta: text beyond the `timedelta` range gives a duration, where the source raises `OverflowError`.
- Durations.TruncateToSeconds: truncates the exact microsecond count. The source truncates the float `total_seconds()`, which rounds near large values: 10^13 s plus 999999 µs becomes 10^13 + 1 s there and 10^13 s here.
- CalDavHelpers.EventToIcal: the component is an abstract record. The icalendar library's own typing of what is added is not modelled: TRIGGER and RRULE are added as plain text, which the library may refuse or convert.
- CalDavHelpers.RemindersRoundTrip: holds for the abstract component; whether the library accepts a text TRIGGER is not modelled.
- ApiParams.ValidateEndAfterStart: models the comparison the validator is written to make. Under pydantic 2's `field_validator`, the third argument is a `ValidationInfo`, on which the `in` test would raise `TypeError`; that outcome is not modelled.
- Reminders.GetTriggerRelation: upper-cases ASCII letters only. Python's `str.upper` also maps other letters, some to several characters (`ß` to `SS`).
- CardDavHelpers.LineValues: property names are compared after ASCII upper-casing only; Python's `str.upper` maps some non-ASCII letters to ASCII ones (`ı` to `I`, `ſ` to `S`). The same holds for CardDavHelpers.MemberGroups and CardDavHelpers.CollectGroups.
- CardDavHelpers.NormalizeBirthday: tests for ASCII digits only. Python's `str.isdigit` also accepts other Unicode digits, so `٢٠٢٥٠١٠١` is dashed in the source and kept here.
- Contacts.ContactLookup: reads the vCard with the corrected parse (see Findings). With privacy on, a stored vCard with a BDAY gives no contact in the source and the contact without its birthday here.
- Contacts.GetContactByUid: answers with Contacts.ContactLookup, so it shares the corrected parse. With privacy on and a BDAY the source returns nothing.
- Events.GetEventByUid, Events.GetEventsByTimeRange, Events.CreateEvent, Events.UpdateEvent, Events.DeleteEvent, Contacts.GetContactByUid, Contacts.CreateContact, Contacts.UpdateContact and Contacts.DeleteContact: each starts from an authenticated `Client`. The source first calls `authenticate_with_nextcloud` and builds the collection URL from the returned user id. The model does not include that call, its 401 and 503 errors (which come before the uid, summary and start checks), or the URL built from the user id. The call is also not awaited at `app/src/nextcloud/events.py:49` and `app/src/nextcloud/contacts.py:114` although it is `async`, so `user_info['id']` subscripts a coroutine there.
- ApiParams.ValidateRange: composes the intended comparison of ApiParams.ValidateEndAfterStart. Under pydantic 2 the `in` test on the `ValidationInfo` raises `TypeError` for every range whose end parses, so the order check is never reached. The same holds for ApiParams.RangeAcceptedIff, ApiParams.EmptyRangeRefused and ApiParams.ReversedRangeRefused, which are stated about it.
- ApiParams.NotAfter and Reminders.BuildReminderPayload: datetimes are whole seconds. Sub-second order is lost: with start `2025-01-01T00:00:00.2` and end `2025-01-01T00:00:00.7` the source's comparison accepts the range, and a zoned reference with microseconds keeps them in the fire time.
- CalDavHelpers.DatesOf and CalDavHelpers.Assemble: one clock reading `now` serves both the default CREATED and LAST-MODIFIED. The source reads `datetime.now()` twice, so the two can differ.

## Findings

| source | as written | input that shows it | evidently intended | confidence | as-written member | corrected member |
|---|---|---|---|---|---|---|
| src/nextcloud/libs/carddav_helpers.py:227-230 | with privacy on, a bare `return` inside the birthday block ends `parse_vcard_to_contact`, so the whole contact is `None` | a vCard with uid `u1`, FN `Ann`, BDAY `19900101`, read with privacy on | leave the birthday out and go on building the contact | high, not executed | CardDavHelpers.BirthdayReturnLosesContact | CardDavHelpers.ParseVcardToContact |
