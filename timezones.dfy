/** The timezone helpers shared by the CalDAV parsing and writing code:
    reading a zone identifier off a property or a `datetime`, and attaching
    a zone to a naive `datetime`. */
module Timezones {

  import opened Wrappers
  import opened Values

  /** `timezone_from_datetime`: a naive value has no zone; otherwise the
      zone's key, or its `tzname()` when it has no key. */
  function TimezoneFromDatetime(value: DateTime): (r: Option<string>)
    ensures !value.Aware() ==> r.None?
    ensures r.Some? && r.value == "" ==> value.tz.value.key == ""
    ensures value.Aware() && value.tz.value.key != "" ==> r == Some(value.tz.value.key)
    ensures value.Aware() && value.tz.value.key == "" ==> r == value.tz.value.name
  {
    match value.tz
    case None => None
    case Some(tz) => if tz.key != "" then Some(tz.key) else tz.name
  }

  /** `apply_timezone`: attaches the named zone to a naive `datetime` when
      the zone database resolves the name; in every other case the value
      comes back unchanged, and it never fails. */
  function ApplyTimezone(p: Platform, value: Option<DateTime>, timezone: Option<string>): (r: Option<DateTime>)
    ensures r.Some? <==> value.Some?
    ensures r.Some? ==> r.value.wall == value.value.wall
    ensures value.Some? && value.value.Aware() ==> r == value
    ensures Blank(timezone) ==> r == value
    ensures timezone.Some? && timezone.value !in p.zones ==> r == value
    ensures r != value ==> timezone.Some? && timezone.value in p.zones
                           && r.value.tz == Some(ZoneInfo(p, timezone.value))
  {
    if value.None? || value.value.Aware() || Blank(timezone) then value
    else if timezone.value in p.zones then Some(DateTime(value.value.wall, Some(ZoneInfo(p, timezone.value))))
    else value
  }

  /** `extract_timezone_from_property`: an explicit `TZID` parameter wins;
      otherwise the zone of an aware `datetime` value; otherwise nothing. */
  function ExtractTimezoneFromProperty(prop: Option<Property>): (r: Option<string>)
    ensures prop.None? ==> r.None?
    ensures prop.Some? && "TZID" in prop.value.params ==> r == Some(prop.value.params["TZID"])
    ensures prop.Some? && "TZID" !in prop.value.params ==>
              r == (if prop.value.dt.DateTimeV? then TimezoneFromDatetime(prop.value.dt.dt) else None)
  {
    match prop
    case None => None
    case Some(pr) =>
      if "TZID" in pr.params then Some(pr.params["TZID"])
      else match pr.dt
        case DateTimeV(dt) => if dt.Aware() then TimezoneFromDatetime(dt) else None
        case _ => None
  }

  /** Once a value is aware, applying any zone to it changes nothing. */
  lemma AwareIsFixed(p: Platform, value: Option<DateTime>, z1: Option<string>, z2: Option<string>)
    requires var r := ApplyTimezone(p, value, z1); r.Some? && r.value.Aware()
    ensures ApplyTimezone(p, ApplyTimezone(p, value, z1), z2) == ApplyTimezone(p, value, z1)
  {
  }

  /** Applying the same zone twice is applying it once. */
  lemma ApplyIdempotent(p: Platform, value: Option<DateTime>, z: Option<string>)
    ensures ApplyTimezone(p, ApplyTimezone(p, value, z), z) == ApplyTimezone(p, value, z)
  {
  }

  /** The zone `apply_timezone` attaches is the one `timezone_from_datetime`
      reads back. */
  lemma ApplyThenRead(p: Platform, wall: int, z: string)
    requires z in p.zones && z != ""
    ensures var r := ApplyTimezone(p, Some(DateTime(wall, None)), Some(z));
            r.Some? && TimezoneFromDatetime(r.value) == Some(z)
  {
  }

  /** A property without `TZID` whose value was made aware by
      `apply_timezone` reports the zone that was applied. */
  lemma ApplyThenExtract(p: Platform, params: map<string, string>, wall: int, z: string)
    requires z in p.zones && z != "" && "TZID" !in params
    ensures var r := ApplyTimezone(p, Some(DateTime(wall, None)), Some(z));
            r.Some? && ExtractTimezoneFromProperty(Some(Property(params, DateTimeV(r.value)))) == Some(z)
  {
    ApplyThenRead(p, wall, z);
  }
}
