/** The values the reminder and timezone helpers pass around, and the
    library behaviour they call into but the model keeps abstract.
    A `datetime` is its wall-clock reading in whole seconds plus its
    optional `tzinfo`; the duck-typed trigger values of the icalendar
    library are one datatype. */
module Values {

  import opened Wrappers

  /** A `tzinfo`: the `key` attribute of a `ZoneInfo` (empty when the object
      has no key or an empty one) and what its `tzname()` answers. */
  datatype TzInfo = TzInfo(key: string, name: Option<string>)

  /** A `datetime`: wall-clock seconds and the attached zone, if any. */
  datatype DateTime = DateTime(wall: int, tz: Option<TzInfo>) {
    predicate Aware() { tz.Some? }

    /** `self + timedelta(seconds=delta)`: the zone is kept and the wall clock moves. */
    function Plus(delta: int): (r: DateTime)
      ensures r.tz == tz && r.wall - wall == delta
    {
      DateTime(wall + delta, tz)
    }
  }

  /** The values a trigger can decode to.
      - `DateTimeV`, `DateV` and `DurationV` are `datetime`, `date` (a day
        number) and whole-second `timedelta` values;
      - `Text` is a `str` and `Bytes` the `bytes` holding the UTF-8 encoding of
        its text;
      - `Object` is any other object: its `.dt` attribute (`Missing` when
        absent or `None`), what its `to_ical()` decodes to (`None` when the
        call fails), and its `str()`;
      - `Missing` is `None`. */
  datatype Value =
    | Missing
    | DateTimeV(dt: DateTime)
    | DateV(day: int)
    | DurationV(seconds: int)
    | Text(text: string)
    | Bytes(bytes: string)
    | Object(attr: Value, ical: Option<string>, repr: string)

  /** Python truthiness of a value: `None`, empty text and a zero `timedelta`
      are false. */
  predicate Truthy(v: Value) {
    match v
    case Missing => false
    case DurationV(s) => s != 0
    case Text(t) => t != ""
    case Bytes(b) => b != ""
    case _ => true
  }

  /** An iCalendar property: its parameters (upper-case names) and the
      decoded value found under `.dt`. */
  datatype Property = Property(params: map<string, string>, dt: Value)

  /** The library calls the model does not open up:
      - `zones`: the zone identifiers `ZoneInfo` resolves, each with what
        the resolved zone's `tzname()` answers;
      - `fromIso`: `datetime.fromisoformat`, `None` where it raises;
      - `isoFormat`: `datetime.isoformat()`;
      - `show`: `str()` of a `datetime`, `date` or `timedelta`;
      - `utcOffset`: `utcoffset()` of an aware `datetime`, in seconds. */
  datatype Platform = Platform(
    zones: map<string, Option<string>>,
    fromIso: string -> Option<DateTime>,
    isoFormat: DateTime -> string,
    show: Value -> string,
    utcOffset: DateTime -> int)

  /** `ZoneInfo(key)` for a key the zone database knows. */
  function ZoneInfo(p: Platform, key: string): (r: TzInfo)
    requires key in p.zones
    ensures r.key == key
  {
    TzInfo(key, p.zones[key])
  }

  /** `a or b` on optional text: the first operand unless it is `None` or empty. */
  function Or(a: Option<string>, b: Option<string>): (r: Option<string>)
    ensures r == a || r == b
    ensures (a.Some? && a.value != "") ==> r == a
  {
    if a.Some? && a.value != "" then a else b
  }

  /** `not s` on optional text. */
  predicate Blank(s: Option<string>) {
    s.None? || s.value == ""
  }

  /** The `ValueError` `datetime.fromisoformat` raises for text it cannot read. */
  function IsoFormatError(s: string): Error {
    ValueError("Invalid isoformat string: '" + s + "'")
  }
}
