/** The row check boxes of the product and order lists. */
module Selection {
  import opened Common
  import opened Catalog

  /** Checking a row appends its id; unchecking drops every copy of it and keeps the
      other ids in order. */
  function Toggle(selected: seq<Id>, id: Id, checked: bool): (r: seq<Id>)
    ensures checked ==> r == selected + [id]
    ensures !checked ==> id !in r && IsSubsequence(r, selected)
    ensures !checked ==> forall i :: 0 <= i < |selected| && selected[i] != id ==> selected[i] in r
    ensures !checked ==> forall x :: x != id ==> multiset(r)[x] == multiset(selected)[x]
  {
    if checked then selected + [id]
    else
      var keep := (x: Id) => x != id;
      FilterIsSubsequence(selected, keep);
      FilterMembers(selected, keep);
      forall x | x != id
        ensures multiset(Filter(selected, keep))[x] == multiset(selected)[x]
      {
        FilterCounts(selected, keep, x);
      }
      Filter(selected, keep)
  }

  /** Checking an id that was not selected and unchecking it again restores the
      selection. */
  lemma CheckThenUncheck(selected: seq<Id>, id: Id)
    requires id !in selected
    ensures Toggle(Toggle(selected, id, true), id, false) == selected
  {
    var p := (x: Id) => x != id;
    FilterAppend(selected, [id], p);
    FilterAll(selected, p);
  }
}
