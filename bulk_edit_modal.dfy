/** The bulk edit dialog: one check box per field group, and the list of chosen
    groups it hands to the editor. */
module BulkEditModal {
  import opened Common

  /** The field groups, in the order the dialog's state object declares them. */
  datatype Field = Pricing | Stock | Vendor | CategoryField | NameField | UnitsField

  const AllFields: seq<Field> := [Pricing, Stock, Vendor, CategoryField, NameField, UnitsField]

  /** The key of the group in the state object and in the list handed on. */
  function Key(f: Field): string {
    match f
    case Pricing => "pricing"
    case Stock => "stock"
    case Vendor => "vendor"
    case CategoryField => "category"
    case NameField => "name"
    case UnitsField => "units"
  }

  /** Its position among `AllFields`. */
  function Position(f: Field): (k: nat)
    ensures k < |AllFields| && AllFields[k] == f
  {
    match f
    case Pricing => 0
    case Stock => 1
    case Vendor => 2
    case CategoryField => 3
    case NameField => 4
    case UnitsField => 5
  }

  /** Every group is listed, at its own position. */
  lemma AllFieldsListed()
    ensures forall f: Field :: f in AllFields
    ensures forall i :: 0 <= i < |AllFields| ==> Position(AllFields[i]) == i
  {
    forall f: Field ensures f in AllFields {
      assert AllFields[Position(f)] == f;
    }
  }

  /** The check boxes' state. */
  type Flags = map<Field, bool>

  predicate Complete(m: Flags) {
    forall f: Field :: f in m
  }

  /** The initial state: nothing chosen. */
  function Initial(): (m: Flags)
    ensures Complete(m)
    ensures forall f :: f in m ==> !m[f]
  {
    AllFieldsListed();
    map f | f in AllFields :: false
  }

  /** `toggleField(key)`: that box flips, the others keep their value. */
  function ToggleField(m: Flags, k: Field): (r: Flags)
    requires Complete(m)
    ensures Complete(r)
    ensures r[k] == !m[k]
    ensures forall f :: f != k ==> r[f] == m[f]
  {
    m[k := !m[k]]
  }

  /** Toggling a box twice restores the dialog's state. */
  lemma ToggleTwice(m: Flags, k: Field)
    requires Complete(m)
    ensures ToggleField(ToggleField(m, k), k) == m
  {
  }

  /** `Object.keys(fields).filter((k) => fields[k])`. */
  function SelectedFields(m: Flags): seq<Field>
    requires Complete(m)
  {
    Filter(AllFields, (f: Field) => m[f])
  }

  /** The chosen groups are the boxes that are ticked. */
  lemma SelectedExactly(m: Flags)
    requires Complete(m)
    ensures forall f :: f in SelectedFields(m) <==> m[f]
  {
    var p := (f: Field) => m[f];
    FilterMembers(AllFields, p);
    AllFieldsListed();
    forall f | m[f] ensures f in SelectedFields(m) {
      assert AllFields[Position(f)] == f;
    }
  }

  /** Each chosen group comes once, in declaration order. */
  lemma SelectedInOrder(m: Flags)
    requires Complete(m)
    ensures Ordered(SelectedFields(m))
  {
    AllFieldsListed();
    assert Ordered(AllFields);
    FilterIsSubsequence(AllFields, (f: Field) => m[f]);
    SubsequenceOrdered(SelectedFields(m), AllFields);
  }

  /** A sequence of strictly increasing positions. */
  predicate Ordered(s: seq<Field>) {
    forall i, j :: 0 <= i < j < |s| ==> Position(s[i]) < Position(s[j])
  }

  /** A subsequence of an ordered sequence is ordered. */
  lemma {:induction false} SubsequenceOrdered(a: seq<Field>, b: seq<Field>)
    requires IsSubsequence(a, b) && Ordered(b)
    ensures Ordered(a)
    decreases |b|
  {
    if a != [] && b != [] {
      assert Ordered(b[1..]) by {
        forall i, j | 0 <= i < j < |b[1..]| ensures Position(b[1..][i]) < Position(b[1..][j]) {
          assert b[1..][i] == b[i + 1] && b[1..][j] == b[j + 1];
        }
      }
      if a[0] == b[0] && IsSubsequence(a[1..], b[1..]) {
        SubsequenceOrdered(a[1..], b[1..]);
        SubsequenceIn(a[1..], b[1..]);
        forall j | 0 < j < |a| ensures Position(a[0]) < Position(a[j]) {
          assert a[j] == a[1..][j - 1];
          var k :| 0 <= k < |b[1..]| && b[1..][k] == a[j];
          assert b[k + 1] == a[j];
        }
      } else {
        SubsequenceOrdered(a, b[1..]);
      }
    }
  }

  const NothingChosen := "Select at least one field to edit"

  /** `handleContinue`: an error when no box is ticked, and `onContinue` is not called;
      otherwise the chosen groups are handed on. */
  function Continue(m: Flags): (r: Outcome<seq<Field>>)
    requires Complete(m)
    ensures r.Refused? <==> forall f :: !m[f]
    ensures r.Refused? ==> r.message == NothingChosen
    ensures r.Done? ==> r.value == SelectedFields(m) && r.value != []
  {
    SelectedExactly(m);
    var chosen := SelectedFields(m);
    if chosen == [] then Refused(NothingChosen) else Done(chosen)
  }

  /** Continuing straight away reports the error. */
  lemma ContinueAtOnce()
    ensures Continue(Initial()).Refused?
  {
  }
}
