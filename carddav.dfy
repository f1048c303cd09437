/** The CardDAV helpers: the status check shared by the address-book
    requests, the `addressbook-query` filter built from search criteria
    (section 10.5 of RFC 6352), and the field mapping between a vCard and
    the contact record. The vCard library is kept abstract: a vCard is the
    record of the properties the mapping reads and writes. */
module CardDavHelpers {

  import opened Wrappers
  import opened Strings

  // ---------------------------------------------------------------------
  // `handle_response_status`
  // ---------------------------------------------------------------------

  /** `handle_response_status`: `None` when the call returns normally,
      otherwise the `HTTPException` it raises. Only a 207 Multi-Status
      passes; 401, 403 and 404 keep their code, every code from 500 up
      becomes 500, and any other code (200 included) is raised as it is. */
  function HandleResponseStatus(status: int): (r: Option<Error>)
    ensures r.None? <==> status == 207
    ensures r.Some? ==> r.value == HttpError(if status >= 500 then 500 else status)
  {
    if status == 401 then Some(HttpError(401))
    else if status == 403 then Some(HttpError(403))
    else if status == 404 then Some(HttpError(404))
    else if status >= 500 then Some(HttpError(500))
    else if status != 207 then Some(HttpError(status))
    else None
  }

  // ---------------------------------------------------------------------
  // Search requests
  // ---------------------------------------------------------------------

  /** The API criteria names and the vCard properties they filter on. */
  const PropertyMapping: map<string, string> := map[
    "uid" := "UID", "full_name" := "FN", "email" := "EMAIL", "phone" := "TEL",
    "address" := "ADR", "birthday" := "BDAY", "group" := "CATEGORIES"]

  /** `create_prop_filter`: one `prop-filter` element with a case-insensitive
      `text-match`. The search value is inserted without XML escaping. */
  function CreatePropFilter(propertyName: string, searchValue: string, matchType: string): string {
    "\n        <card:prop-filter name=\"" + propertyName + "\">\n            "
    + "<card:text-match collation=\"i;unicode-casemap\" match-type=\"" + matchType + "\">"
    + searchValue + "</card:text-match>\n        </card:prop-filter>\n    "
  }

  /** A criterion produces a filter when its name is mapped and its value is non-empty. */
  predicate Qualifies(criterion: (string, string)) {
    criterion.0 in PropertyMapping && criterion.1 != ""
  }

  /** The `prop-filter` elements for the criteria, in criteria order. */
  function PropFilters(criteria: seq<(string, string)>): (r: seq<string>)
    ensures |r| <= |criteria|
  {
    if criteria == [] then []
    else
      var last := criteria[|criteria| - 1];
      var front := PropFilters(criteria[..|criteria| - 1]);
      if Qualifies(last) then front + [CreatePropFilter(PropertyMapping[last.0], last.1, "contains")]
      else front
  }

  function Concat(parts: seq<string>): string {
    if parts == [] then "" else Concat(parts[..|parts| - 1]) + parts[|parts| - 1]
  }

  /** The `filter` element around the joined `prop-filter` elements. */
  function FilterElement(searchType: string, filters: seq<string>): string {
    "\n        <card:filter " + ("test=\"" + searchType + "\"")
    + (">\n            " + Concat(filters) + "\n        </card:filter>\n    ")
  }

  /** What `create_search_filter_xml` returns: nothing when no criterion
      qualifies, the `filter` element otherwise. */
  function SearchFilter(criteria: seq<(string, string)>, searchType: string): string {
    var filters := PropFilters(criteria);
    if filters == [] then "" else FilterElement(searchType, filters)
  }

  /** `create_search_filter_xml`, collecting the `prop-filter` elements in a
      loop over the criteria (a dictionary's items, in insertion order). */
  method CreateSearchFilterXml(criteria: seq<(string, string)>, searchType: string) returns (r: string)
    ensures r == SearchFilter(criteria, searchType)
  {
    var propFilters: seq<string> := [];
    var i := 0;
    while i < |criteria|
      invariant 0 <= i <= |criteria|
      invariant propFilters == PropFilters(criteria[..i])
    {
      assert criteria[..i + 1][..i] == criteria[..i];
      var (field, value) := criteria[i];
      if field in PropertyMapping && value != "" {
        propFilters := propFilters + [CreatePropFilter(PropertyMapping[field], value, "contains")];
      }
      i := i + 1;
    }
    assert criteria[..i] == criteria;
    if propFilters == [] {
      return "";
    }
    r := FilterElement(searchType, propFilters);
  }

  /** No filter is produced exactly when no criterion qualifies. */
  lemma {:induction false} NoFilterIff(criteria: seq<(string, string)>)
    ensures PropFilters(criteria) == [] <==> forall i :: 0 <= i < |criteria| ==> !Qualifies(criteria[i])
  {
    if criteria != [] {
      var front := criteria[..|criteria| - 1];
      NoFilterIff(front);
      assert forall i :: 0 <= i < |front| ==> front[i] == criteria[i];
    }
  }

  /** Every criterion that qualifies contributes exactly one element, in order. */
  lemma {:induction false} FilterPerCriterion(criteria: seq<(string, string)>, c: (string, string))
    requires Qualifies(c)
    ensures PropFilters(criteria + [c]) == PropFilters(criteria) + [CreatePropFilter(PropertyMapping[c.0], c.1, "contains")]
  {
    assert (criteria + [c])[..|criteria|] == criteria;
  }

  /** The `test` attribute of the filter is the search type, verbatim. */
  lemma FilterTestAttribute(criteria: seq<(string, string)>, searchType: string)
    requires PropFilters(criteria) != []
    ensures OccursAt(SearchFilter(criteria, searchType), "test=\"" + searchType + "\"", 22)
  {
    var head := "\n        <card:filter ";
    assert |head| == 22;
    var tail := ">\n            " + Concat(PropFilters(criteria)) + "\n        </card:filter>\n    ";
    OccursBetween(head, "test=\"" + searchType + "\"", tail);
  }

  /** `create_search_request_xml`: the `addressbook-query` body, holding the
      filter only when criteria were given (`None` and `{}` give none). */
  function CreateSearchRequestXml(criteria: Option<seq<(string, string)>>, searchType: string): (r: string)
    ensures criteria.None? || criteria.value == [] ==> r == RequestBody("")
    ensures criteria.Some? ==> r == RequestBody(SearchFilter(criteria.value, searchType))
  {
    var filterXml := if criteria.Some? && criteria.value != [] then SearchFilter(criteria.value, searchType) else "";
    RequestBody(filterXml)
  }

  const RequestHead: string :=
    "<?xml version=\"1.0\"?>\n        <card:addressbook-query xmlns:d=\"DAV:\" xmlns:card=\"urn:ietf:params:xml:ns:carddav\">\n"
    + "            <d:prop>\n                <d:getetag/>\n                <card:address-data/>\n            </d:prop>\n"
    + "            "

  const RequestTail: string := "\n        </card:addressbook-query>"

  function RequestBody(filterXml: string): string {
    RequestHead + filterXml + RequestTail
  }

  /** The request carries its filter right after the `prop` element. */
  lemma RequestCarriesFilter(criteria: seq<(string, string)>, searchType: string)
    ensures OccursAt(CreateSearchRequestXml(Some(criteria), searchType), SearchFilter(criteria, searchType), |RequestHead|)
  {
    OccursBetween(RequestHead, SearchFilter(criteria, searchType), RequestTail);
  }

  /** The request holds no filter exactly when no criterion has a mapped
      field and a non-empty value. */
  lemma RequestUnfilteredIff(criteria: Option<seq<(string, string)>>, searchType: string)
    ensures CreateSearchRequestXml(criteria, searchType) == RequestBody("")
            <==> criteria.None? || forall i :: 0 <= i < |criteria.value| ==> !Qualifies(criteria.value[i])
  {
    if criteria.Some? {
      NoFilterIff(criteria.value);
      var f := SearchFilter(criteria.value, searchType);
      assert |RequestBody(f)| == |RequestHead| + |f| + |RequestTail|;
      assert f != "" <==> PropFilters(criteria.value) != [];
    }
  }

  // ---------------------------------------------------------------------
  // Records
  // ---------------------------------------------------------------------

  datatype Email = Email(tag: Option<string>, email: Option<string>)
  datatype Phone = Phone(tag: Option<string>, number: Option<string>)
  datatype Address = Address(tag: Option<string>, street: Option<string>, city: Option<string>,
                             state: Option<string>, postalCode: Option<string>, country: Option<string>)

  /** The contact record of the API. */
  datatype ContactData = ContactData(
    uid: string,
    fullName: string,
    url: Option<string>,
    emails: Option<seq<Email>>,
    phones: Option<seq<Phone>>,
    addresses: Option<seq<Address>>,
    birthday: Option<string>,
    notes: Option<string>,
    groups: Option<seq<string>>)

  /** A vCard content line with a text value and its optional `TYPE` parameter. */
  datatype TaggedLine = TaggedLine(value: string, typeParam: Option<string>)

  /** An `ADR` line: the structured value's parts and the `TYPE` parameter. */
  datatype AdrLine = AdrLine(street: string, city: string, region: string, code: string,
                             country: string, typeParam: Option<string>)

  /** The value of `CATEGORIES`: a list, or sometimes a single text. */
  datatype CategoriesValue = CategoryList(items: seq<string>) | CategoryText(text: string)

  /** Any other content line: its name and text value. */
  datatype Line = Line(name: string, value: string)

  /** A parsed vCard: the properties the mapping reads or writes (`None`
      when the property is absent) and the remaining content lines. */
  datatype VCard = VCard(
    uid: Option<string>,
    fn: Option<string>,
    emails: seq<TaggedLine>,
    tels: seq<TaggedLine>,
    adrs: seq<AdrLine>,
    bday: Option<string>,
    note: Option<string>,
    categories: Option<CategoriesValue>,
    others: seq<Line>)

  // ---------------------------------------------------------------------
  // Birthday formats
  // ---------------------------------------------------------------------

  /** `f"{d[0:4]}-{d[4:6]}-{d[6:8]}"` */
  function Dashed(d: string): (r: string)
    requires |d| == 8
    ensures |r| == 10 && r[4] == '-' && r[7] == '-'
    ensures r[..4] == d[..4] && r[5..7] == d[4..6] && r[8..] == d[6..]
  {
    d[0..4] + "-" + d[4..6] + "-" + d[6..8]
  }

  /** A birthday already in `YYYY-MM-DD` shape (ten characters, dashes at
      positions 4 and 7). */
  predicate IsDashedDate(b: string) {
    |b| == 10 && b[4] == '-' && b[7] == '-'
  }

  /** The birthday normalisation of `parse_vcard_to_contact`:
      `YYYYMMDD` gains dashes, `YYYY-MM-DD` is kept, a longer value with a
      `T` keeps the part before the first `T` (gaining dashes when that part
      has eight characters), and anything else is kept as it is. */
  function NormalizeBirthday(b: string): (r: string)
    ensures |b| == 8 && AllDigits(b) ==> IsDashedDate(r) && r == Dashed(b)
    ensures IsDashedDate(b) ==> r == b
    ensures r != b ==> IsDashedDate(r) || (|b| > 8 && 'T' in b && 'T' !in r && StartsWith(b, r))
    ensures !(|b| == 8 && AllDigits(b)) && !IsDashedDate(b) && !(|b| > 8 && 'T' in b) ==> r == b
    ensures !(|b| == 8 && AllDigits(b)) && !IsDashedDate(b) && |b| > 8 && 'T' in b ==>
              var date := BeforeFirst(b, 'T');
              StartsWith(b, date) && 'T' !in date && b[|date|] == 'T'
              && r == if |date| == 8 then Dashed(date) else date
  {
    if |b| == 8 && AllDigits(b) then Dashed(b)
    else if IsDashedDate(b) then b
    else if |b| > 8 && 'T' in b then
      var datePart := BeforeFirst(b, 'T');
      if |datePart| == 8 then Dashed(datePart) else datePart
    else b
  }

  /** Normalising a normalised birthday changes nothing. */
  lemma BirthdayIdempotent(b: string)
    ensures NormalizeBirthday(NormalizeBirthday(b)) == NormalizeBirthday(b)
  {
    var r := NormalizeBirthday(b);
    if r != b && !IsDashedDate(r) {
      assert 'T' !in r;
    }
  }

  // ---------------------------------------------------------------------
  // Groups
  // ---------------------------------------------------------------------

  /** `s.split(pat)[-1]`: the text after the last occurrence of `pat`, found
      scanning left to right, or all of `s` when there is none. */
  function LastPiece(s: string, pat: string): (r: string)
    requires pat != []
    ensures |r| <= |s| && r == s[|s| - |r|..]
    decreases |s|
  {
    if |s| < |pat| then s
    else if s[..|pat|] == pat then LastPiece(s[|pat|..], pat)
    else
      var rest := LastPiece(s[1..], pat);
      if rest == s[1..] then s else rest
  }

  /** Found in a suffix means found in the whole. */
  lemma ContainsFrom(s: string, pat: string, j: nat)
    requires j <= |s| && Contains(s[j..], pat)
    ensures Contains(s, pat)
  {
    var k :| 0 <= k <= |s[j..]| - |pat| && OccursAt(s[j..], pat, k);
    assert s[j + k..j + k + |pat|] == s[j..][k..k + |pat|];
    assert OccursAt(s, pat, j + k);
  }

  /** Not at the front and not in the rest means not at all. */
  lemma NotContainsStep(s: string, pat: string)
    requires pat != [] && |s| >= |pat| && s[..|pat|] != pat && !Contains(s[1..], pat)
    ensures !Contains(s, pat)
  {
    if Contains(s, pat) {
      var k :| 0 <= k <= |s| - |pat| && OccursAt(s, pat, k);
      if k > 0 {
        assert s[1..][k - 1..k - 1 + |pat|] == s[k..k + |pat|];
        assert OccursAt(s[1..], pat, k - 1);
      }
    }
  }

  lemma EndsWithAfter(a: string, b: string, pat: string)
    requires EndsWith(b, pat)
    ensures EndsWith(a + b, pat)
  {
    assert (a + b)[|a + b| - |pat|..] == b[|b| - |pat|..];
  }

  /** `r` ends `s` and the text before it ends with `pat`. */
  predicate FollowsPat(s: string, r: string, pat: string) {
    |r| <= |s| && EndsWith(s[..|s| - |r|], pat)
  }

  /** Cutting `n` characters off a suffix of `s` that ends with `pat` after
      the cut leaves a prefix of `s` that ends with `pat`. */
  lemma CutEndsWith(s: string, j: nat, n: nat, pat: string)
    requires j <= |s| && n <= |s| - j && EndsWith(s[j..][..|s| - j - n], pat)
    ensures EndsWith(s[..|s| - n], pat)
  {
    assert s[..|s| - n] == s[..j] + s[j..][..|s| - j - n];
    EndsWithAfter(s[..j], s[j..][..|s| - j - n], pat);
  }

  /** The step of `LastPieceAfterLast` past a leading `pat`, given what
      holds of the piece `r` of the rest `t`. */
  lemma AfterLeadingPat(s: string, pat: string, t: string, r: string)
    requires pat != [] && |pat| <= |s| && s[..|pat|] == pat && t == s[|pat|..] && |r| <= |t|
    requires Contains(t, pat) ==> !Contains(r, pat) && FollowsPat(t, r, pat)
    requires !Contains(t, pat) ==> r == t
    ensures Contains(s, pat) && !Contains(r, pat) && FollowsPat(s, r, pat)
  {
    assert OccursAt(s, pat, 0);
    if Contains(t, pat) {
      CutEndsWith(s, |pat|, |r|, pat);
    } else {
      assert s[..|s| - |r|] == pat;
    }
  }

  /** The step of `LastPieceAfterLast` past a first character that does not
      start `pat`, when the rest `t` holds `pat`. */
  lemma AfterOtherChar(s: string, pat: string, t: string, r: string)
    requires pat != [] && 1 <= |s| && t == s[1..] && |r| <= |t| && Contains(t, pat)
    requires !Contains(r, pat) && FollowsPat(t, r, pat)
    ensures Contains(s, pat) && !Contains(r, pat) && FollowsPat(s, r, pat)
  {
    ContainsFrom(s, pat, 1);
    CutEndsWith(s, 1, |r|, pat);
  }

  /** What `split(pat)[-1]` promises: when `pat` occurs, the piece holds no
      `pat` and what precedes it ends with `pat`; otherwise it is all of `s`. */
  lemma {:induction false} LastPieceAfterLast(s: string, pat: string)
    requires pat != []
    ensures Contains(s, pat) ==> !Contains(LastPiece(s, pat), pat) && FollowsPat(s, LastPiece(s, pat), pat)
    ensures !Contains(s, pat) ==> LastPiece(s, pat) == s
    decreases |s|
  {
    if |s| < |pat| {
    } else if s[..|pat|] == pat {
      var t := s[|pat|..];
      LastPieceAfterLast(t, pat);
      AfterLeadingPat(s, pat, t, LastPiece(t, pat));
    } else {
      var t := s[1..];
      LastPieceAfterLast(t, pat);
      if Contains(t, pat) {
        assert LastPiece(t, pat) != t;
        AfterOtherChar(s, pat, t, LastPiece(t, pat));
      } else {
        NotContainsStep(s, pat);
      }
    }
  }

  /** The group name of an `X-ADDRESSBOOKSERVER-MEMBER` value: the text
      after the last `urn:uuid:`, or the whole value. */
  function MemberGroup(value: string): (r: string)
    ensures EndsWith(value, r)
    ensures Contains(value, "urn:uuid:") ==> !Contains(r, "urn:uuid:") && FollowsPat(value, r, "urn:uuid:")
    ensures !Contains(value, "urn:uuid:") ==> r == value
  {
    LastPieceAfterLast(value, "urn:uuid:");
    if Contains(value, "urn:uuid:") then LastPiece(value, "urn:uuid:") else value
  }

  /** The non-empty values of the lines named `tag` (compared upper-cased), in order. */
  function LineValues(lines: seq<Line>, tag: string): seq<string> {
    if lines == [] then []
    else
      var last := lines[|lines| - 1];
      var front := LineValues(lines[..|lines| - 1], tag);
      if AsciiUpper(last.name) == tag && last.value != "" then front + [last.value] else front
  }

  /** The member lines' group names, in order. */
  function MemberGroups(lines: seq<Line>): seq<string> {
    if lines == [] then []
    else
      var last := lines[|lines| - 1];
      var front := MemberGroups(lines[..|lines| - 1]);
      if AsciiUpper(last.name) == "X-ADDRESSBOOKSERVER-MEMBER" && last.value != ""
      then front + [MemberGroup(last.value)] else front
  }

  function CategoryNames(categories: Option<CategoriesValue>): seq<string> {
    match categories
    case None => []
    case Some(CategoryList(items)) => items
    case Some(CategoryText(t)) => [t]
  }

  /** The groups of a vCard: the `CATEGORIES` values, then the
      `X-ADDRESSBOOKSERVER-GROUP` values, then the group names of the
      `X-ADDRESSBOOKSERVER-MEMBER` values. */
  function Groups(vcard: VCard): seq<string> {
    CategoryNames(vcard.categories)
    + LineValues(vcard.others, "X-ADDRESSBOOKSERVER-GROUP")
    + MemberGroups(vcard.others)
  }

  /** The three group-collecting passes of `parse_vcard_to_contact`. */
  method CollectGroups(vcard: VCard) returns (groups: seq<string>)
    ensures groups == Groups(vcard)
  {
    groups := CategoryNames(vcard.categories);
    var named := CollectLineValues(vcard.others, "X-ADDRESSBOOKSERVER-GROUP");
    groups := groups + named;
    var members := CollectMemberGroups(vcard.others);
    groups := groups + members;
  }

  /** The loop over the children that keeps the non-empty values of one property. */
  method CollectLineValues(children: seq<Line>, tag: string) returns (values: seq<string>)
    ensures values == LineValues(children, tag)
  {
    values := [];
    var i := 0;
    while i < |children|
      invariant 0 <= i <= |children|
      invariant values == LineValues(children[..i], tag)
    {
      assert children[..i + 1][..i] == children[..i];
      if AsciiUpper(children[i].name) == tag && children[i].value != "" {
        values := values + [children[i].value];
      }
      i := i + 1;
    }
    assert children[..i] == children;
  }

  /** The loop over the children that keeps the group of each member line. */
  method CollectMemberGroups(children: seq<Line>) returns (groups: seq<string>)
    ensures groups == MemberGroups(children)
  {
    groups := [];
    var i := 0;
    while i < |children|
      invariant 0 <= i <= |children|
      invariant groups == MemberGroups(children[..i])
    {
      assert children[..i + 1][..i] == children[..i];
      if AsciiUpper(children[i].name) == "X-ADDRESSBOOKSERVER-MEMBER" && children[i].value != "" {
        var value := children[i].value;
        if Contains(value, "urn:uuid:") {
          groups := groups + [LastPiece(value, "urn:uuid:")];
        } else {
          groups := groups + [value];
        }
      }
      i := i + 1;
    }
    assert children[..i] == children;
  }

  // ---------------------------------------------------------------------
  // `parse_vcard_to_contact`
  // ---------------------------------------------------------------------

  /** `str(e.type_param) if ... is not None else ""` */
  function Tag(typeParam: Option<string>): string {
    typeParam.GetOr("")
  }

  function EmailOf(line: TaggedLine): Email {
    Email(Some(Tag(line.typeParam)), Some(line.value))
  }

  function PhoneOf(line: TaggedLine): Phone {
    Phone(Some(Tag(line.typeParam)), Some(line.value))
  }

  /** An address; with privacy on (`privacy is True`), street and city are
      replaced by the mask text and the postal code is dropped. */
  function AddressOf(adr: AdrLine, privacy: Option<bool>, mask: string): (r: Address)
    ensures privacy == Some(true) ==> r.street == Some(mask) && r.city == Some(mask) && r.postalCode.None?
    ensures privacy != Some(true) ==> r.street == Some(adr.street) && r.city == Some(adr.city) && r.postalCode == Some(adr.code)
    ensures r.state == Some(adr.region) && r.country == Some(adr.country)
  {
    var masked := privacy == Some(true);
    Address(Some(Tag(adr.typeParam)),
            if masked then Some(mask) else Some(adr.street),
            if masked then Some(mask) else Some(adr.city),
            Some(adr.region),
            if masked then None else Some(adr.code),
            Some(adr.country))
  }

  /** Notes are kept only when privacy is off (`privacy is False`); otherwise
      a present note becomes the mask text. */
  function NotesOf(note: Option<string>, privacy: Option<bool>, mask: string): (r: Option<string>)
    ensures note.None? ==> r.None?
    ensures note.Some? ==> r == Some(if privacy == Some(false) then note.value else mask)
  {
    match note
    case None => None
    case Some(n) => if privacy == Some(false) then Some(n) else Some(mask)
  }

  function Emails(lines: seq<TaggedLine>): (r: seq<Email>)
    ensures |r| == |lines| && forall i :: 0 <= i < |lines| ==> r[i] == EmailOf(lines[i])
  {
    seq(|lines|, i requires 0 <= i < |lines| => EmailOf(lines[i]))
  }

  function Phones(lines: seq<TaggedLine>): (r: seq<Phone>)
    ensures |r| == |lines| && forall i :: 0 <= i < |lines| ==> r[i] == PhoneOf(lines[i])
  {
    seq(|lines|, i requires 0 <= i < |lines| => PhoneOf(lines[i]))
  }

  function Addresses(lines: seq<AdrLine>, privacy: Option<bool>, mask: string): (r: seq<Address>)
    ensures |r| == |lines| && forall i :: 0 <= i < |lines| ==> r[i] == AddressOf(lines[i], privacy, mask)
  {
    seq(|lines|, i requires 0 <= i < |lines| => AddressOf(lines[i], privacy, mask))
  }

  /** `parse_vcard_to_contact` as the repository writes it: with privacy on,
      a vCard that has a `BDAY` makes the function return `None` for the
      whole contact, because the birthday branch ends in a bare `return`. */
  function ParseVcardAsWritten(vcard: VCard, href: Option<string>, privacy: Option<bool>, mask: string): (r: Option<ContactData>)
    ensures privacy == Some(true) && vcard.bday.Some? ==> r.None?
  {
    if privacy == Some(true) && vcard.bday.Some? then None
    else Some(ParseVcardToContact(vcard, href, privacy, mask))
  }

  /** `parse_vcard_to_contact` with the birthday branch doing what its
      comment says (privacy drops the birthday only). */
  function ParseVcardToContact(vcard: VCard, href: Option<string>, privacy: Option<bool>, mask: string): (r: ContactData)
    ensures r.uid == vcard.uid.GetOr("") && r.fullName == vcard.fn.GetOr("") && r.url == href
    ensures privacy == Some(true) ==> r.birthday.None?
    ensures privacy != Some(true) ==> r.birthday == (if vcard.bday.Some? then Some(NormalizeBirthday(vcard.bday.value)) else None)
    ensures r.groups == Some(Groups(vcard))
  {
    ContactData(
      vcard.uid.GetOr(""),
      vcard.fn.GetOr(""),
      href,
      Some(Emails(vcard.emails)),
      Some(Phones(vcard.tels)),
      Some(Addresses(vcard.adrs, privacy, mask)),
      if vcard.bday.None? || privacy == Some(true) then None else Some(NormalizeBirthday(vcard.bday.value)),
      NotesOf(vcard.note, privacy, mask),
      Some(Groups(vcard)))
  }

  /** With privacy on, nothing sensitive survives: streets and cities are
      masked, postal codes, the birthday and the note's text are gone. */
  lemma PrivacyMasks(vcard: VCard, href: Option<string>, mask: string)
    ensures var c := ParseVcardToContact(vcard, href, Some(true), mask);
            c.birthday.None?
            && (c.notes.None? || c.notes == Some(mask))
            && forall a :: a in c.addresses.value ==> a.street == Some(mask) && a.city == Some(mask) && a.postalCode.None?
  {
  }

  /** The bare `return`: one vCard with a birthday, read with privacy on,
      is lost entirely as written, and kept (without its birthday) once
      the branch only clears the birthday. */
  lemma BirthdayReturnLosesContact()
    ensures var v := VCard(Some("u1"), Some("Ann"), [], [], [], Some("19900101"), None, None, []);
            ParseVcardAsWritten(v, None, Some(true), "*").None?
            && ParseVcardToContact(v, None, Some(true), "*").uid == "u1"
            && ParseVcardToContact(v, None, Some(true), "*").birthday.None?
  {
  }

  // ---------------------------------------------------------------------
  // `contact_to_vcard`
  // ---------------------------------------------------------------------

  predicate Truthy(s: Option<string>) {
    s.Some? && s.value != ""
  }

  function EmailLine(e: Email): TaggedLine {
    TaggedLine(e.email.GetOr(""), if Truthy(e.tag) then e.tag else None)
  }

  function PhoneLine(p: Phone): TaggedLine {
    TaggedLine(p.number.GetOr(""), if Truthy(p.tag) then p.tag else None)
  }

  /** An `ADR` line: missing parts become empty text. */
  function AdrLineOf(a: Address): AdrLine {
    AdrLine(a.street.GetOr(""), a.city.GetOr(""), a.state.GetOr(""), a.postalCode.GetOr(""),
            a.country.GetOr(""), if Truthy(a.tag) then a.tag else None)
  }

  /** The vCard `contact_to_vcard` writes: `UID` and `FN` always, each
      optional property only when the contact's field is truthy. */
  function VcardOf(c: ContactData): VCard {
    var emails := c.emails.GetOr([]);
    var phones := c.phones.GetOr([]);
    var addresses := c.addresses.GetOr([]);
    VCard(
      Some(c.uid), Some(c.fullName),
      seq(|emails|, i requires 0 <= i < |emails| => EmailLine(emails[i])),
      seq(|phones|, i requires 0 <= i < |phones| => PhoneLine(phones[i])),
      seq(|addresses|, i requires 0 <= i < |addresses| => AdrLineOf(addresses[i])),
      if Truthy(c.birthday) then c.birthday else None,
      if Truthy(c.notes) then c.notes else None,
      if c.groups.Some? && c.groups.value != [] then Some(CategoryList(c.groups.value)) else None,
      [])
  }

  /** `contact_to_vcard`, adding the properties one after another. */
  method ContactToVcard(c: ContactData) returns (v: VCard)
    ensures v == VcardOf(c)
  {
    v := VCard(Some(c.uid), Some(c.fullName), [], [], [], None, None, None, []);
    ghost var goal := VcardOf(c);
    if c.emails.Some? {
      var lines := AddEmails(c.emails.value);
      v := v.(emails := lines);
    }
    assert v.emails == goal.emails;
    if c.phones.Some? {
      var lines := AddPhones(c.phones.value);
      v := v.(tels := lines);
    }
    assert v.tels == goal.tels;
    if c.addresses.Some? {
      var lines := AddAddresses(c.addresses.value);
      v := v.(adrs := lines);
    }
    assert v.adrs == goal.adrs;
    if Truthy(c.birthday) {
      v := v.(bday := c.birthday);
    }
    if Truthy(c.notes) {
      v := v.(note := c.notes);
    }
    if c.groups.Some? && |c.groups.value| > 0 {
      v := v.(categories := Some(CategoryList(c.groups.value)));
    }
  }

  /** The loop adding one `EMAIL` line per address. */
  method AddEmails(emails: seq<Email>) returns (lines: seq<TaggedLine>)
    ensures |lines| == |emails| && forall j :: 0 <= j < |emails| ==> lines[j] == EmailLine(emails[j])
  {
    lines := [];
    var i := 0;
    while i < |emails|
      invariant 0 <= i <= |emails|
      invariant |lines| == i && forall j :: 0 <= j < i ==> lines[j] == EmailLine(emails[j])
    {
      var tag := if Truthy(emails[i].tag) then emails[i].tag else None;
      lines := lines + [TaggedLine(emails[i].email.GetOr(""), tag)];
      i := i + 1;
    }
  }

  /** The loop adding one `TEL` line per phone number. */
  method AddPhones(phones: seq<Phone>) returns (lines: seq<TaggedLine>)
    ensures |lines| == |phones| && forall j :: 0 <= j < |phones| ==> lines[j] == PhoneLine(phones[j])
  {
    lines := [];
    var i := 0;
    while i < |phones|
      invariant 0 <= i <= |phones|
      invariant |lines| == i && forall j :: 0 <= j < i ==> lines[j] == PhoneLine(phones[j])
    {
      var tag := if Truthy(phones[i].tag) then phones[i].tag else None;
      lines := lines + [TaggedLine(phones[i].number.GetOr(""), tag)];
      i := i + 1;
    }
  }

  /** The loop adding one `ADR` line per address. */
  method AddAddresses(addresses: seq<Address>) returns (lines: seq<AdrLine>)
    ensures |lines| == |addresses| && forall j :: 0 <= j < |addresses| ==> lines[j] == AdrLineOf(addresses[j])
  {
    lines := [];
    var i := 0;
    while i < |addresses|
      invariant 0 <= i <= |addresses|
      invariant |lines| == i && forall j :: 0 <= j < i ==> lines[j] == AdrLineOf(addresses[j])
    {
      lines := lines + [AdrLineOf(addresses[i])];
      i := i + 1;
    }
  }

  /** Writing a contact as a vCard and reading it back (privacy off) keeps
      its identity, addresses, texts and groups: the uid and name, the
      e-mail addresses and phone numbers in order, a non-empty note, a
      non-empty group list, and the birthday in normalised form. */
  lemma VcardRoundTrip(c: ContactData, href: Option<string>, mask: string)
    ensures var r := ParseVcardToContact(VcardOf(c), href, Some(false), mask);
            r.uid == c.uid && r.fullName == c.fullName && r.url == href
            && |r.emails.value| == |c.emails.GetOr([])|
            && (forall i :: 0 <= i < |r.emails.value| ==> r.emails.value[i].email == Some(c.emails.value[i].email.GetOr("")))
            && |r.phones.value| == |c.phones.GetOr([])|
            && (forall i :: 0 <= i < |r.phones.value| ==> r.phones.value[i].number == Some(c.phones.value[i].number.GetOr("")))
            && (Truthy(c.notes) ==> r.notes == c.notes)
            && (c.groups.Some? && c.groups.value != [] ==> r.groups == c.groups)
            && (Truthy(c.birthday) ==> r.birthday == Some(NormalizeBirthday(c.birthday.value)))
  {
    var v := VcardOf(c);
    assert v.others == [];
    assert LineValues([], "X-ADDRESSBOOKSERVER-GROUP") == [] && MemberGroups([]) == [];
    if c.groups.Some? && c.groups.value != [] {
      assert v.categories == Some(CategoryList(c.groups.value));
      assert CategoryNames(v.categories) == c.groups.value;
      assert Groups(v) == c.groups.value + [] + [];
      assert Groups(v) == c.groups.value;
    }
  }
}
