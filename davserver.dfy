/** A WebDAV server as the clients see it: resources stored under their
    URLs, answering `GET`, `PUT`, `DELETE` and `REPORT` with the status a
    CalDAV or CardDAV collection gives, and logging every request. It
    stands in for the network and the Nextcloud server behind it. */
module DavServer {

  import opened Wrappers

  /** A status a failing server answers with: never one of success. */
  type FailureStatus = s: int | s !in {200, 201, 204, 207} witness 500

  datatype Verb = GET | PUT | DELETE | REPORT

  /** A request sent to the server. */
  datatype Request = Request(verb: Verb, url: string)

  /** The server: the stored resources and the requests received. A server
      with an `outage` answers every request with that status and changes
      nothing. */
  class Server<R(0)> {
    var resources: map<string, R>
    var requests: seq<Request>
    const outage: Option<FailureStatus>

    constructor (resources: map<string, R>, outage: Option<FailureStatus>)
      ensures this.resources == resources && this.outage == outage && requests == []
    {
      this.resources := resources;
      this.outage := outage;
      requests := [];
    }

    /** `GET`: 200 and the stored resource, or 404. */
    method Get(url: string) returns (status: int, body: R)
      modifies this
      ensures requests == old(requests) + [Request(GET, url)] && resources == old(resources)
      ensures outage.Some? ==> status == outage.value
      ensures outage.None? && url in resources ==> status == 200 && body == resources[url]
      ensures outage.None? && url !in resources ==> status == 404
    {
      requests := requests + [Request(GET, url)];
      var nothing: R := *;  // no body comes with a failure or a 404
      if outage.Some? {
        return outage.value, nothing;
      }
      if url in resources {
        return 200, resources[url];
      }
      return 404, nothing;
    }

    /** `PUT`: stores the resource, 201 when it is new and 204 when it replaces one. */
    method Put(url: string, body: R) returns (status: int)
      modifies this
      ensures requests == old(requests) + [Request(PUT, url)]
      ensures outage.Some? ==> status == outage.value && resources == old(resources)
      ensures outage.None? ==> status == (if url in old(resources) then 204 else 201)
                               && resources == old(resources)[url := body]
    {
      requests := requests + [Request(PUT, url)];
      if outage.Some? {
        return outage.value;
      }
      status := if url in resources then 204 else 201;
      resources := resources[url := body];
    }

    /** `DELETE`: 204 and the resource removed, or 404. */
    method Delete(url: string) returns (status: int)
      modifies this
      ensures requests == old(requests) + [Request(DELETE, url)]
      ensures outage.Some? ==> status == outage.value && resources == old(resources)
      ensures outage.None? ==> status == (if url in old(resources) then 204 else 404)
                               && resources == old(resources) - {url}
    {
      requests := requests + [Request(DELETE, url)];
      if outage.Some? {
        return outage.value;
      }
      status := if url in resources then 204 else 404;
      resources := resources - {url};
    }

    /** `REPORT` on a collection: 207 Multi-Status. */
    method Report(url: string) returns (status: int)
      modifies this
      ensures requests == old(requests) + [Request(REPORT, url)] && resources == old(resources)
      ensures status == (if outage.Some? then outage.value else 207)
    {
      requests := requests + [Request(REPORT, url)];
      status := if outage.Some? then outage.value else 207;
    }
  }
}
