/** The vendor form: its prefill from the vendor being edited and its save, with the
    name guard, the trimmed payload and the choice between creating and updating. */
module VendorForm {
  import opened Common
  import opened Catalog

  /** A vendor as the service returns it; the text fields may be absent. */
  datatype Vendor = Vendor(id: Id, name: Option<string>, phone: Option<string>, address: Option<string>)

  /** The three inputs of the form. */
  datatype Fields = Fields(name: string, phone: string, address: string)

  datatype Payload = Payload(name: string, phone: string, address: string)

  const NameRequired := "Vendor name required"

  function VendorPath(id: Id): string {
    "/api/vendors/" + id
  }

  function OrEmpty(s: Option<string>): string {
    if s.Some? then s.value else ""
  }

  /** The prefill effect: with a vendor to edit, each input takes its field or "" when
      absent; without one the inputs keep what they hold. */
  function Prefill(current: Fields, editing: Option<Vendor>): (r: Fields)
    ensures editing.None? ==> r == current
    ensures editing.Some? && editing.value.name.Some? ==> r.name == editing.value.name.value
    ensures editing.Some? && editing.value.name.None? ==> r.name == []
    ensures editing.Some? && editing.value.phone.Some? ==> r.phone == editing.value.phone.value
    ensures editing.Some? && editing.value.phone.None? ==> r.phone == []
    ensures editing.Some? && editing.value.address.Some? ==> r.address == editing.value.address.value
    ensures editing.Some? && editing.value.address.None? ==> r.address == []
  {
    if editing.None? then current
    else Fields(OrEmpty(editing.value.name), OrEmpty(editing.value.phone), OrEmpty(editing.value.address))
  }

  /** `handleSave`: a blank name is refused and nothing is sent; otherwise the trimmed
      fields are sent as an update of the vendor being edited or as a new vendor. */
  function Save(f: Fields, editing: Option<Vendor>): (r: Outcome<Request<Payload>>)
    ensures r.Refused? <==> AllSpace(f.name)
    ensures r.Refused? ==> r.message == NameRequired
    ensures r.Done? ==> r.value.body == Payload(Trim(f.name), Trim(f.phone), Trim(f.address))
    ensures r.Done? ==> r.value.body.name != []
    ensures r.Done? && editing.Some? ==> r.value.verb == Put && r.value.path == VendorPath(editing.value.id)
    ensures r.Done? && editing.None? ==> r.value.verb == Post && r.value.path == "/api/vendors"
  {
    var name := Trim(f.name);
    if name == [] then Refused(NameRequired)
    else
      var payload := Payload(name, Trim(f.phone), Trim(f.address));
      if editing.Some? then Done(Request(Put, VendorPath(editing.value.id), payload))
      else Done(Request(Post, "/api/vendors", payload))
  }

  /** Saving what the prefill put in the form updates the edited vendor, and a vendor
      without a name cannot be saved unchanged. */
  lemma EditSavesSameVendor(current: Fields, v: Vendor)
    ensures Save(Prefill(current, Some(v)), Some(v)).Done? ==>
              Save(Prefill(current, Some(v)), Some(v)).value.path == VendorPath(v.id)
    ensures v.name.None? ==> Save(Prefill(current, Some(v)), Some(v)).Refused?
  {
    assert AllSpace([]);
  }

  /** Saving a prefilled vendor again sends the same payload: trimming what was
      already trimmed changes nothing. */
  lemma SaveTwiceSamePayload(f: Fields, editing: Option<Vendor>)
    requires Save(f, editing).Done?
    ensures var p := Save(f, editing).value.body;
            Save(Fields(p.name, p.phone, p.address), editing) == Save(f, editing)
  {
    TrimIdempotent(f.name);
    TrimIdempotent(f.phone);
    TrimIdempotent(f.address);
  }
}
