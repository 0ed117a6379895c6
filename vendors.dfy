/** The vendors page: the search over vendor names and the delete of the vendor held
    by the confirmation dialog. */
module Vendors {
  import opened Common
  import opened Catalog
  import opened VendorForm

  /** `v.name?.toLowerCase().includes(search.toLowerCase())`. */
  predicate Matches(v: Vendor, search: string) {
    v.name.Some? && Includes(Lower(v.name.value), Lower(search))
  }

  function MatchesFilter(search: string): Vendor -> bool {
    (v: Vendor) => Matches(v, search)
  }

  /** `filtered`. */
  function Filtered(vendors: seq<Vendor>, search: string): seq<Vendor> {
    Filter(vendors, MatchesFilter(search))
  }

  /** The list keeps, in order, exactly the vendors whose name contains the query,
      ignoring case; a vendor without a name is never listed, and an empty query
      keeps every vendor that has a name. */
  lemma FilteredFacts(vendors: seq<Vendor>, search: string)
    ensures IsSubsequence(Filtered(vendors, search), vendors)
    ensures forall i :: 0 <= i < |Filtered(vendors, search)| ==>
              Filtered(vendors, search)[i].name.Some? && Matches(Filtered(vendors, search)[i], search)
    ensures forall i :: 0 <= i < |vendors| && Matches(vendors[i], search) ==> vendors[i] in Filtered(vendors, search)
    ensures Filtered(vendors, "") == Filter(vendors, (v: Vendor) => v.name.Some?)
  {
    FilterIsSubsequence(vendors, MatchesFilter(search));
    FilterMembers(vendors, MatchesFilter(search));
    forall v: Vendor | v.name.Some? ensures Matches(v, "") {
      IncludesEmpty(Lower(v.name.value));
    }
    FilterExt(vendors, MatchesFilter(""), (v: Vendor) => v.name.Some?);
  }

  /** `handleDelete`: the DELETE of the vendor the dialog holds. Without one, reading
      `deleteVendor.id` throws inside the `try` and nothing is sent. */
  function DeleteRequest(deleteVendor: Option<Vendor>): (r: Option<Request<()>>)
    ensures r.Some? <==> deleteVendor.Some?
    ensures r.Some? ==> r.value.verb == Delete && r.value.path == VendorPath(deleteVendor.value.id)
  {
    if deleteVendor.Some? then Some(Request(Delete, VendorPath(deleteVendor.value.id), ())) else None
  }

  /** The vendor the dialog holds once the DELETE settled: cleared on success (which
      closes the dialog), kept on failure. */
  function AfterDelete(deleteVendor: Option<Vendor>, succeeded: bool): (r: Option<Vendor>)
    ensures succeeded && deleteVendor.Some? ==> r.None?
    ensures !succeeded ==> r == deleteVendor
  {
    if succeeded && deleteVendor.Some? then None else deleteVendor
  }

  /** Different vendors are deleted through different paths. */
  lemma DeleteTargetsHeldVendor(a: Vendor, b: Vendor)
    requires a.id != b.id
    ensures DeleteRequest(Some(a)) != DeleteRequest(Some(b))
  {
    PrefixCancel("/api/vendors/", a.id, b.id);
  }
}
