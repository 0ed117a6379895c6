/** The categories page: adding and renaming a category, the delete guard that keeps
    categories in use, the per-category product count and the search. */
module Categories {
  import opened Common
  import opened Catalog

  datatype NameBody = NameBody(name: string)

  function CategoryPath(id: Id): string {
    "/api/categories/" + id
  }

  /** A trimmed, non-blank name: what the guards let through. */
  predicate CleanName(s: string) {
    s != [] && Trim(s) == s
  }

  const AddHint := "Enter category name"

  /** `addCategory`: a blank name is refused with an alert; otherwise the trimmed name
      is posted. */
  function AddCategory(name: string): (r: Outcome<Request<NameBody>>)
    ensures r.Refused? <==> AllSpace(name)
    ensures r.Refused? ==> r.message == AddHint
    ensures r.Done? ==> r.value.verb == Post && r.value.path == "/api/categories"
    ensures r.Done? ==> r.value.body.name == Trim(name) && CleanName(r.value.body.name)
  {
    var t := Trim(name);
    TrimIdempotent(name);
    if t == [] then Refused(AddHint) else Done(Request(Post, "/api/categories", NameBody(t)))
  }

  /** `saveEdit(id)`: a blank name is ignored without a message; otherwise the trimmed
      name is sent to that category. */
  function SaveEdit(id: Id, editName: string): (r: Option<Request<NameBody>>)
    ensures r.None? <==> AllSpace(editName)
    ensures r.Some? ==> r.value.verb == Put && r.value.path == CategoryPath(id)
    ensures r.Some? ==> r.value.body.name == Trim(editName) && CleanName(r.value.body.name)
  {
    var t := Trim(editName);
    TrimIdempotent(editName);
    if t == [] then None else Some(Request(Put, CategoryPath(id), NameBody(t)))
  }

  /** Adding or renaming with a name that differs only in surrounding white space
      sends the same name. */
  lemma SurroundingSpaceIgnored(id: Id, name: string)
    ensures AddCategory(Trim(name)) == AddCategory(name)
    ensures SaveEdit(id, Trim(name)) == SaveEdit(id, name)
  {
    TrimIdempotent(name);
  }

  function UsesCategory(id: Id): Product -> bool {
    (p: Product) => p.categoryId == Some(id)
  }

  /** `getItemCount(id)`, which is also the `usedCount` of the delete guard. */
  function ItemCount(products: seq<Product>, id: Id): nat {
    |Filter(products, UsesCategory(id))|
  }

  /** The count is positive exactly when some product has the category. */
  lemma ItemCountPositive(products: seq<Product>, id: Id)
    ensures ItemCount(products, id) > 0 <==> exists i :: 0 <= i < |products| && products[i].categoryId == Some(id)
  {
    FilterMembers(products, UsesCategory(id));
    var r := Filter(products, UsesCategory(id));
    if |r| > 0 {
      assert r[0] in products && UsesCategory(id)(r[0]);
      var i :| 0 <= i < |products| && products[i] == r[0];
      assert products[i].categoryId == Some(id);
    }
  }

  /** `removeCategory(id)`: a category with products is refused with the count in the
      message; otherwise a DELETE once the user confirmed, nothing when not. */
  function RemoveCategory(products: seq<Product>, id: Id, confirmed: bool): (r: Option<Outcome<Request<()>>>)
    ensures ItemCount(products, id) > 0 ==> r == Some(Refused(
              "Cannot delete ❌\n" + NatToString(ItemCount(products, id)) + " products are using this category"))
    ensures ItemCount(products, id) == 0 && !confirmed ==> r == None
    ensures ItemCount(products, id) == 0 && confirmed ==> r == Some(Done(Request(Delete, CategoryPath(id), ())))
  {
    var used := ItemCount(products, id);
    if used > 0 then Some(Refused("Cannot delete ❌\n" + NatToString(used) + " products are using this category"))
    else if !confirmed then None
    else Some(Done(Request(Delete, CategoryPath(id), ())))
  }

  /** A category in use by any product is never deleted, and one in use by none is
      deleted once confirmed. */
  lemma DeleteGuard(products: seq<Product>, id: Id, confirmed: bool)
    ensures (exists i :: 0 <= i < |products| && products[i].categoryId == Some(id)) ==>
              RemoveCategory(products, id, confirmed).Some? && RemoveCategory(products, id, confirmed).value.Refused?
    ensures (forall i :: 0 <= i < |products| ==> products[i].categoryId != Some(id)) && confirmed ==>
              RemoveCategory(products, id, confirmed) == Some(Done(Request(Delete, CategoryPath(id), ())))
  {
    ItemCountPositive(products, id);
  }

  function MatchesSearch(search: string): Category -> bool {
    (c: Category) => Includes(Lower(c.name), Lower(search))
  }

  /** `filtered`. */
  function Filtered(categories: seq<Category>, search: string): seq<Category> {
    Filter(categories, MatchesSearch(search))
  }

  /** The search keeps, in order, exactly the categories whose lower-cased name contains
      the lower-cased query; an empty query keeps them all. */
  lemma FilteredFacts(categories: seq<Category>, search: string)
    ensures IsSubsequence(Filtered(categories, search), categories)
    ensures forall i :: 0 <= i < |Filtered(categories, search)| ==>
              Includes(Lower(Filtered(categories, search)[i].name), Lower(search))
    ensures forall i :: 0 <= i < |categories| && Includes(Lower(categories[i].name), Lower(search)) ==>
              categories[i] in Filtered(categories, search)
    ensures search == "" ==> Filtered(categories, search) == categories
  {
    FilterIsSubsequence(categories, MatchesSearch(search));
    FilterMembers(categories, MatchesSearch(search));
    if search == "" {
      forall i | 0 <= i < |categories| ensures MatchesSearch(search)(categories[i]) {
        IncludesEmpty(Lower(categories[i].name));
      }
      FilterAll(categories, MatchesSearch(search));
    }
  }
}
