/** The customers page: the entry form with its save guard and payload, the reset
    after a save, the edit prefill and the search. */
module Customers {
  import opened Common
  import opened Catalog

  /** A customer as the service returns it; any text field may be absent. */
  datatype Customer = Customer(id: Id, name: Option<string>, mobile: Option<string>, route: Option<string>)

  /** The form state: the three inputs and the id being edited (`null` when adding). */
  datatype Form = Form(name: string, mobile: string, route: string, editingId: Option<Id>)

  datatype Payload = Payload(name: string, mobile: string, route: string)

  const Required := "Name & mobile required"

  function CustomerPath(id: Id): string {
    "/api/customers/" + id
  }

  /** `if (editingId)`: an id counts only when it is non-empty text. */
  predicate Editing(f: Form) {
    f.editingId.Some? && f.editingId.value != []
  }

  /** `saveCustomer`: refused when the trimmed name or mobile is empty; otherwise the
      trimmed fields go to the edited customer (PUT) or to a new one (POST). */
  function SaveCustomer(f: Form): (r: Outcome<Request<Payload>>)
    ensures r.Refused? <==> AllSpace(f.name) || AllSpace(f.mobile)
    ensures r.Refused? ==> r.message == Required
    ensures r.Done? ==> r.value.body == Payload(Trim(f.name), Trim(f.mobile), Trim(f.route))
    ensures r.Done? ==> r.value.body.name != [] && r.value.body.mobile != []
    ensures r.Done? && Editing(f) ==> r.value.verb == Put && r.value.path == CustomerPath(f.editingId.value)
    ensures r.Done? && !Editing(f) ==> r.value.verb == Post && r.value.path == "/api/customers"
  {
    var name, mobile, route := Trim(f.name), Trim(f.mobile), Trim(f.route);
    if name == [] || mobile == [] then Refused(Required)
    else
      var payload := Payload(name, mobile, route);
      if Editing(f) then Done(Request(Put, CustomerPath(f.editingId.value), payload))
      else Done(Request(Post, "/api/customers", payload))
  }

  /** `reset()`: every input cleared and no customer being edited. */
  function Reset(): (f: Form)
    ensures f.name == [] && f.mobile == [] && f.route == [] && f.editingId.None?
  {
    Form("", "", "", None)
  }

  /** After the reset that follows a save, saving again is refused until the inputs
      are filled in. */
  lemma SaveAfterReset()
    ensures SaveCustomer(Reset()) == Refused(Required)
  {
    assert AllSpace(Reset().name);
  }

  function OrEmpty(s: Option<string>): string {
    if s.Some? then s.value else ""
  }

  /** The edit button: the customer's id, and each field or "" when absent. */
  function Prefill(c: Customer): (f: Form)
    ensures f.editingId == Some(c.id)
    ensures c.name.Some? ==> f.name == c.name.value
    ensures c.name.None? ==> f.name == []
    ensures c.mobile.Some? ==> f.mobile == c.mobile.value
    ensures c.mobile.None? ==> f.mobile == []
    ensures c.route.Some? ==> f.route == c.route.value
    ensures c.route.None? ==> f.route == []
  {
    Form(OrEmpty(c.name), OrEmpty(c.mobile), OrEmpty(c.route), Some(c.id))
  }

  /** Saving a customer straight after the edit button updates that customer, and a
      customer without a name or mobile cannot be saved unchanged. */
  lemma EditSavesSameCustomer(c: Customer)
    requires c.id != []
    ensures SaveCustomer(Prefill(c)).Done? ==> SaveCustomer(Prefill(c)).value.path == CustomerPath(c.id)
    ensures c.name.None? || c.mobile.None? ==> SaveCustomer(Prefill(c)).Refused?
  {
    assert AllSpace([]);
  }

  /** The search: `q` is the lower-cased query; the name and route are lower-cased
      before matching, the mobile number is matched as stored. */
  predicate Matches(c: Customer, search: string) {
    var q := Lower(search);
    (c.name.Some? && Includes(Lower(c.name.value), q))
    || (c.mobile.Some? && Includes(c.mobile.value, q))
    || (c.route.Some? && Includes(Lower(c.route.value), q))
  }

  function MatchesFilter(search: string): Customer -> bool {
    (c: Customer) => Matches(c, search)
  }

  /** `filtered`. */
  function Filtered(customers: seq<Customer>, search: string): seq<Customer> {
    Filter(customers, MatchesFilter(search))
  }

  predicate HasSomeField(c: Customer) {
    c.name.Some? || c.mobile.Some? || c.route.Some?
  }

  /** The list keeps, in order, exactly the matching customers; an empty query keeps
      every customer that has a name, a mobile or a route, and drops the others. */
  lemma FilteredFacts(customers: seq<Customer>, search: string)
    ensures IsSubsequence(Filtered(customers, search), customers)
    ensures forall i :: 0 <= i < |Filtered(customers, search)| ==> Matches(Filtered(customers, search)[i], search)
    ensures forall i :: 0 <= i < |customers| && Matches(customers[i], search) ==> customers[i] in Filtered(customers, search)
    ensures Filtered(customers, "") == Filter(customers, HasSomeField)
  {
    FilterIsSubsequence(customers, MatchesFilter(search));
    FilterMembers(customers, MatchesFilter(search));
    forall c: Customer ensures Matches(c, "") == HasSomeField(c) {
      assert Lower("") == [];
      if c.name.Some? { IncludesEmpty(Lower(c.name.value)); }
      if c.mobile.Some? { IncludesEmpty(c.mobile.value); }
      if c.route.Some? { IncludesEmpty(Lower(c.route.value)); }
    }
    FilterExt(customers, MatchesFilter(""), HasSomeField);
  }

  /** `removeCustomer(id)`: a DELETE once the user confirmed, nothing otherwise. */
  function RemoveCustomer(id: Id, confirmed: bool): (r: Option<Request<()>>)
    ensures r.Some? <==> confirmed
    ensures r.Some? ==> r.value.verb == Delete && r.value.path == CustomerPath(id)
  {
    if confirmed then Some(Request(Delete, CustomerPath(id), ())) else None
  }
}
