/** The CardDAV and CalDAV clients: the base URL a client keeps, how it
    joins resource paths to it, and what each request method makes of the
    server's status code. The HTTP exchange itself is left to the caller:
    each outcome function takes the status (and body) the server answered;
    the body is any type, as the model never looks inside it. */
module DavClients {

  import opened Wrappers
  import opened Strings
  import CardDavHelpers
  import CalDavHelpers

  /** A client: the base URL (always ending in `/`) and the `Authorization` header. */
  datatype Client = Client(baseUrl: string, authHeader: string)

  /** `BaseDavClient.__init__`: a `/` is added to the base URL unless it
      already ends with one. */
  function NewClient(baseUrl: string, authHeader: string): (c: Client)
    ensures EndsWith(c.baseUrl, "/")
    ensures EndsWith(baseUrl, "/") ==> c.baseUrl == baseUrl
    ensures !EndsWith(baseUrl, "/") ==> c.baseUrl == baseUrl + "/"
    ensures c.authHeader == authHeader
  {
    var b := if EndsWith(baseUrl, "/") then baseUrl else baseUrl + "/";
    assert EndsWith(b, "/") by {
      if !EndsWith(baseUrl, "/") {
        assert b[|b| - 1..] == "/";
      }
    }
    Client(b, authHeader)
  }

  /** Building a client from its own base URL changes nothing. */
  lemma NewClientIdempotent(baseUrl: string, authHeader: string)
    ensures NewClient(NewClient(baseUrl, authHeader).baseUrl, authHeader) == NewClient(baseUrl, authHeader)
  {
  }

  /** `build_url`: the base URL followed by the path without its leading slashes. */
  function BuildUrl(c: Client, relativePath: string): (r: string)
    ensures StartsWith(r, c.baseUrl)
    ensures r[|c.baseUrl|..] == LStripChar(relativePath, '/')
  {
    var relative := LStripChar(relativePath, '/');
    assert (c.baseUrl + relative)[..|c.baseUrl|] == c.baseUrl;
    c.baseUrl + relative
  }

  /** Leading slashes on the path never double the separator: the URL has
      exactly one `/` where the base URL ends. */
  lemma {:induction false} SingleSeparator(c: Client, relativePath: string)
    requires EndsWith(c.baseUrl, "/")
    ensures var r := BuildUrl(c, relativePath);
            r[|c.baseUrl| - 1] == '/' && (|r| == |c.baseUrl| || r[|c.baseUrl|] != '/')
  {
    var r := BuildUrl(c, relativePath);
    assert r[|c.baseUrl| - 1] == c.baseUrl[|c.baseUrl| - 1];
    assert c.baseUrl[|c.baseUrl| - 1..] == "/";
    if |r| > |c.baseUrl| {
      assert r[|c.baseUrl|] == r[|c.baseUrl|..][0];
    }
  }

  /** Slashes in front of the path do not change the URL. */
  lemma LeadingSlashIgnored(c: Client, relativePath: string)
    ensures BuildUrl(c, "/" + relativePath) == BuildUrl(c, relativePath)
  {
    assert ("/" + relativePath)[1..] == relativePath;
  }

  /** The error the status-code dispatch of the helpers raises. */
  function StatusError(status: int): Error {
    HttpError(if status >= 500 then 500 else status)
  }

  // ---------------------------------------------------------------------
  // `CardDavClient`
  // ---------------------------------------------------------------------

  /** `report_addressbook` and `search_addressbook`: the body, unless the
      status check raises. */
  function CardReport<T>(status: int, text: T): (r: Result<T>)
    ensures r.Ok? <==> status == 207
    ensures r.Ok? ==> r.value == text
    ensures r.Err? ==> r.error == StatusError(status)
  {
    match CardDavHelpers.HandleResponseStatus(status)
    case Some(err) => Err(err)
    case None => Ok(text)
  }

  /** `get_contact`: `None` on 404, the body on 200, and otherwise whatever
      the status check decides (so a 207 also returns the body). */
  function CardGetContact<T>(status: int, text: T): (r: Result<Option<T>>)
    ensures r == Ok(None) <==> status == 404
    ensures r == Ok(Some(text)) <==> status == 200 || status == 207
    ensures r.Err? <==> status !in {200, 207, 404}
    ensures r.Err? ==> r.error == StatusError(status)
  {
    if status == 404 then Ok(None)
    else if status != 200 then
      match CardDavHelpers.HandleResponseStatus(status)
      case Some(err) => Err(err)
      case None => Ok(Some(text))
    else Ok(Some(text))
  }

  /** `create_contact`: success on 201 and 204, 405 raised as such, the rest
      through the status check (which lets a 207 through). */
  function CardCreateContact(status: int): (r: Option<Error>)
    ensures r.None? <==> status in {201, 204, 207}
    ensures r.Some? ==> r.value == StatusError(status)
  {
    if status !in {201, 204} then
      if status == 405 then Some(HttpError(405))
      else CardDavHelpers.HandleResponseStatus(status)
    else None
  }

  /** `update_contact`: success on 200, 201 and 204; 404 and 405 raised as
      such; the rest through the status check. */
  function CardUpdateContact(status: int): (r: Option<Error>)
    ensures r.None? <==> status in {200, 201, 204, 207}
    ensures r.Some? ==> r.value == StatusError(status)
  {
    if status !in {200, 201, 204} then
      if status == 404 then Some(HttpError(404))
      else if status == 405 then Some(HttpError(405))
      else CardDavHelpers.HandleResponseStatus(status)
    else None
  }

  /** `delete_contact`: success on 200 and 204; 404 and 405 raised as such;
      the rest through the status check. A missing contact is an error. */
  function CardDeleteContact(status: int): (r: Option<Error>)
    ensures r.None? <==> status in {200, 204, 207}
    ensures r.Some? ==> r.value == StatusError(status)
    ensures status == 404 ==> r == Some(HttpError(404))
  {
    if status in {200, 204} then None
    else if status == 404 then Some(HttpError(404))
    else if status == 405 then Some(HttpError(405))
    else CardDavHelpers.HandleResponseStatus(status)
  }

  // ---------------------------------------------------------------------
  // `CalDavClient`
  // ---------------------------------------------------------------------

  /** `report_time_range`: the body on 207, or on any status the status
      check lets through (200). */
  function CalReportTimeRange<T>(status: int, text: T): (r: Result<T>)
    ensures r.Ok? <==> status == 200 || status == 207
    ensures r.Ok? ==> r.value == text
    ensures r.Err? ==> r.error == StatusError(status)
  {
    if status != 207 then
      match CalDavHelpers.HandleCalDavResponseStatus(status)
      case Some(err) => Err(err)
      case None => Ok(text)
    else Ok(text)
  }

  /** `get_event`: `None` on 404, the body on 200, otherwise the status check. */
  function CalGetEvent<T>(status: int, text: T): (r: Result<Option<T>>)
    ensures r == Ok(None) <==> status == 404
    ensures r == Ok(Some(text)) <==> status == 200 || status == 207
    ensures r.Err? <==> status !in {200, 207, 404}
    ensures r.Err? ==> r.error == StatusError(status)
  {
    if status == 404 then Ok(None)
    else if status != 200 then
      match CalDavHelpers.HandleCalDavResponseStatus(status)
      case Some(err) => Err(err)
      case None => Ok(Some(text))
    else Ok(Some(text))
  }

  /** `create_event`: success on 201 and 204, otherwise the status check,
      which also lets 200 and 207 through. */
  function CalCreateEvent(status: int): (r: Option<Error>)
    ensures r.None? <==> status in {200, 201, 204, 207}
    ensures r.Some? ==> r.value == StatusError(status)
  {
    if status !in {201, 204} then CalDavHelpers.HandleCalDavResponseStatus(status) else None
  }

  /** `update_event`: success on 200 and 204, otherwise the status check. */
  function CalUpdateEvent(status: int): (r: Option<Error>)
    ensures r.None? <==> status in {200, 204, 207}
    ensures r.Some? ==> r.value == StatusError(status)
  {
    if status !in {200, 204} then CalDavHelpers.HandleCalDavResponseStatus(status) else None
  }

  /** `delete_event`: `True` on 200 and 204, `False` on 404, otherwise the
      status check, after which (207) it also answers `True`. */
  function CalDeleteEvent(status: int): (r: Result<bool>)
    ensures r == Ok(true) <==> status in {200, 204, 207}
    ensures r == Ok(false) <==> status == 404
    ensures r.Err? ==> r.error == StatusError(status)
  {
    if status in {200, 204} then Ok(true)
    else if status == 404 then Ok(false)
    else match CalDavHelpers.HandleCalDavResponseStatus(status)
      case Some(err) => Err(err)
      case None => Ok(true)
  }
}
