/** The contact operations of the API over a CardDAV address book: fetch
    one contact, create, update and delete. The address book is a stand-in
    server holding parsed vCards by URL. */
module Contacts {

  import opened Wrappers
  import opened Strings
  import opened CardDavHelpers
  import opened DavClients
  import opened DavServer

  /** The address book: vCards stored under their URLs. */
  type AddressBookServer = Server<VCard>

  /** The contact object a caller passes in, which the operations update in place. */
  class ContactRecord {
    var data: ContactData

    constructor (data: ContactData)
      ensures this.data == data
    {
      this.data := data;
    }
  }

  const UpdateUidMessage := "Contact must have a UID to be updated"
  const DeleteUidMessage := "Contact UID must be provided for deletion"
  const RetrieveUidMessage := "Contact UID must be provided for retrieval"

  /** The URL of a contact: the address book URL with one trailing `/`
      (the rule of the clients' constructor), then `<uid>.vcf`. The UID is
      used as it is, leading slashes included. */
  function ContactUrl(carddavUrl: string, uid: string): (r: string)
    ensures StartsWith(r, carddavUrl) && EndsWith(r, uid + ".vcf")
    ensures EndsWith(carddavUrl, "/") ==> r == carddavUrl + uid + ".vcf"
    ensures !EndsWith(carddavUrl, "/") ==> r == carddavUrl + "/" + uid + ".vcf"
  {
    var base := NewClient(carddavUrl, "").baseUrl;
    var r := base + (uid + ".vcf");
    assert r[..|carddavUrl|] == carddavUrl by {
      assert base[..|carddavUrl|] == carddavUrl;
    }
    assert r[|r| - |uid + ".vcf"|..] == uid + ".vcf";
    r
  }

  function DeletedMessage(uid: string): (r: string)
    ensures OccursAt(r, uid, 17)
  {
    OccursBetween("Contact with UID ", uid, " successfully deleted");
    "Contact with UID " + uid + " successfully deleted"
  }

  /** What fetching the contact stored at `url` gives: nothing when the
      address book has no vCard there, otherwise the vCard read as a
      contact; a failing server's status goes through the status check. */
  function ContactLookup(resources: map<string, VCard>, outage: Option<FailureStatus>, url: string,
                         privacy: Option<bool>, mask: string): (r: Result<Option<ContactData>>)
    ensures r == Ok(None) <==> outage == Some(404) || (outage.None? && url !in resources)
    ensures outage.Some? && r.Err? ==> r.error == StatusError(outage.value)
    ensures r.Ok? && r.value.Some? ==> outage.None? && url in resources
    ensures r.Ok? && r.value.Some? ==>
              r.value.value == ParseVcardToContact(resources[url], Some(url), privacy, mask)
              && r.value.value.url == Some(url) && r.value.value.uid == resources[url].uid.GetOr("")
  {
    if outage.Some? then
      if outage.value == 404 then Ok(None) else Err(StatusError(outage.value))
    else if url !in resources then Ok(None)
    else Ok(Some(ParseVcardToContact(resources[url], Some(url), privacy, mask)))
  }

  /** `get_contact_by_uid`: an empty UID is refused before any request;
      else one `GET`, 404 meaning no such contact, 200 the vCard read as a
      contact, anything else through the status check. */
  method GetContactByUid(server: AddressBookServer, carddavUrl: string, uid: string, privacy: Option<bool>, mask: string)
    returns (r: Result<Option<ContactData>>)
    modifies server
    ensures uid == "" ==> r == Err(ValueError(RetrieveUidMessage)) && server.requests == old(server.requests)
    ensures uid != "" ==> server.requests == old(server.requests) + [Request(GET, ContactUrl(carddavUrl, uid))]
    ensures server.resources == old(server.resources)
    ensures uid != "" ==> r == ContactLookup(server.resources, server.outage, ContactUrl(carddavUrl, uid), privacy, mask)
  {
    if uid == "" {
      return Err(ValueError(RetrieveUidMessage));
    }
    var url := ContactUrl(carddavUrl, uid);
    var status, body := server.Get(url);
    var got := CardGetContact(status, body);
    if got.Err? {
      return Err(got.error);
    }
    if got.value.None? {
      return Ok(None);
    }
    return Ok(Some(ParseVcardToContact(got.value.value, Some(url), privacy, mask)));
  }

  /** `create_contact`: a missing UID is generated; the contact URL is
      recorded on the contact before the `PUT` is sent, so it stays there
      even when the server refuses. */
  method CreateContact(server: AddressBookServer, carddavUrl: string, contact: ContactRecord, freshUid: string)
    returns (r: Result<ContactData>)
    modifies server, contact
    ensures var uid := if old(contact.data.uid) == "" then freshUid else old(contact.data.uid);
            var url := ContactUrl(carddavUrl, uid);
            && contact.data == old(contact.data).(uid := uid, url := Some(url))
            && server.requests == old(server.requests) + [Request(PUT, url)]
            && (r.Ok? <==> server.outage.None?)
            && (r.Ok? ==> r.value == contact.data && server.resources == old(server.resources)[url := VcardOf(contact.data)])
            && (r.Err? ==> r.error == StatusError(server.outage.value) && server.resources == old(server.resources))
  {
    if contact.data.uid == "" {
      contact.data := contact.data.(uid := freshUid);
    }
    var url := ContactUrl(carddavUrl, contact.data.uid);
    contact.data := contact.data.(url := Some(url));
    var vcard := ContactToVcard(contact.data);
    var status := server.Put(url, vcard);
    var failure := CardCreateContact(status);
    if failure.Some? {
      return Err(failure.value);
    }
    return Ok(contact.data);
  }

  /** `update_contact`: the UID is required; a contact that has a URL is
      put there as it is, otherwise under the constructed URL, which is then
      recorded on it. There is no existence check: a contact missing from
      the address book is created (201 counts as success). */
  method UpdateContact(server: AddressBookServer, carddavUrl: string, contact: ContactRecord)
    returns (r: Result<ContactData>)
    modifies server, contact
    ensures old(contact.data.uid) == "" ==>
              r == Err(ValueError(UpdateUidMessage)) && contact.data == old(contact.data)
              && server.requests == old(server.requests) && server.resources == old(server.resources)
    ensures var url := if CardDavHelpers.Truthy(old(contact.data.url)) then old(contact.data.url.value)
                       else ContactUrl(carddavUrl, old(contact.data.uid));
            old(contact.data.uid) != "" ==>
              && contact.data == old(contact.data).(url := Some(url))
              && server.requests == old(server.requests) + [Request(PUT, url)]
              && (r.Ok? <==> server.outage.None?)
              && (r.Ok? ==> r.value == contact.data && server.resources == old(server.resources)[url := VcardOf(contact.data)])
              && (r.Err? ==> r.error == StatusError(server.outage.value) && server.resources == old(server.resources))
  {
    if contact.data.uid == "" {
      return Err(ValueError(UpdateUidMessage));
    }
    var url;
    if CardDavHelpers.Truthy(contact.data.url) {
      url := contact.data.url.value;
    } else {
      url := ContactUrl(carddavUrl, contact.data.uid);
      contact.data := contact.data.(url := Some(url));
    }
    var vcard := ContactToVcard(contact.data);
    var status := server.Put(url, vcard);
    var failure := CardUpdateContact(status);
    if failure.Some? {
      return Err(failure.value);
    }
    return Ok(contact.data);
  }

  /** `delete_contact`: the UID is required; one `DELETE`; a missing
      contact is an error (404), so deleting twice fails the second time. */
  method DeleteContact(server: AddressBookServer, carddavUrl: string, uid: string) returns (r: Result<string>)
    modifies server
    ensures uid == "" ==> r == Err(ValueError(DeleteUidMessage)) && server.requests == old(server.requests)
                          && server.resources == old(server.resources)
    ensures var url := ContactUrl(carddavUrl, uid);
            uid != "" ==>
              && server.requests == old(server.requests) + [Request(DELETE, url)]
              && server.resources == (if server.outage.None? then old(server.resources) - {url} else old(server.resources))
              && (server.outage.None? && url in old(server.resources) ==> r == Ok(DeletedMessage(uid)))
              && (server.outage.None? && url !in old(server.resources) ==> r == Err(HttpError(404)))
              && (server.outage.Some? ==> r == Err(StatusError(server.outage.value)))
  {
    if uid == "" {
      return Err(ValueError(DeleteUidMessage));
    }
    var url := ContactUrl(carddavUrl, uid);
    var status := server.Delete(url);
    var failure := CardDeleteContact(status);
    if failure.Some? {
      return Err(failure.value);
    }
    return Ok(DeletedMessage(uid));
  }

  /** A contact written to the address book reads back with its UID, name,
      URL, e-mail addresses, phone numbers, note and groups. */
  lemma CreatedContactFetched(resources: map<string, VCard>, c: ContactData, url: string, mask: string)
    ensures var got := ContactLookup(resources[url := VcardOf(c)], None, url, Some(false), mask);
            got.Ok? && got.value.Some?
            && got.value.value.uid == c.uid && got.value.value.fullName == c.fullName
            && got.value.value.url == Some(url)
            && |got.value.value.emails.value| == |c.emails.GetOr([])|
            && |got.value.value.phones.value| == |c.phones.GetOr([])|
            && (CardDavHelpers.Truthy(c.notes) ==> got.value.value.notes == c.notes)
            && (c.groups.Some? && c.groups.value != [] ==> got.value.value.groups == c.groups)
  {
    VcardRoundTrip(c, Some(url), mask);
  }
}
