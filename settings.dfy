/** The settings context: a JSON settings tree, the dotted-path update that the
    context applies to its local copy once the service accepted the change, and the
    `savingKey` flag shown while a change is in flight. */
module Settings {
  import opened Common

  /** A JSON scalar. */
  datatype Scalar = Null | Bool(b: bool) | Num(n: real) | Str(s: string)

  /** A settings value: a scalar, or an object of named values. */
  datatype Setting = Leaf(scalar: Scalar) | Node(children: map<string, Setting>)

  type Tree = map<string, Setting>

  /** JavaScript truthiness: objects are truthy; `null`, `false`, 0 and "" are not. */
  predicate Truthy(s: Setting) {
    match s
    case Node(_) => true
    case Leaf(Null) => false
    case Leaf(Bool(b)) => b
    case Leaf(Num(n)) => n != 0.0
    case Leaf(Str(t)) => t != ""
  }

  /** The object the walk continues in below key `k` of `m`: the existing object, or a
      new empty one when the key is missing or holds a falsy value; `None` when a
      truthy scalar is in the way. A dictionary has no inherited keys, so a key
      naming an `Object.prototype` member counts as missing here. */
  function Descend(m: Tree, k: string): (r: Option<Tree>)
    ensures (k !in m || !Truthy(m[k])) ==> r == Some(map[])
    ensures k in m && m[k].Node? ==> r == Some(m[k].children)
    ensures r.None? <==> k in m && m[k].Leaf? && Truthy(m[k])
  {
    if k !in m || !Truthy(m[k]) then Some(map[])
    else if m[k].Node? then Some(m[k].children)
    else None
  }

  /** The tree after setting `v` at the path `parts`, creating every missing or falsy
      intermediate object; `None` when a truthy scalar stands on the path, where the
      assignment into it throws. */
  function SetIn(m: Tree, parts: seq<string>, v: Setting): Option<Tree>
    requires |parts| >= 1
    decreases |parts|
  {
    if |parts| == 1 then Some(m[parts[0] := v])
    else
      var child := Descend(m, parts[0]);
      if child.None? then None
      else
        var r := SetIn(child.value, parts[1..], v);
        if r.None? then None else Some(m[parts[0] := Node(r.value)])
  }

  /** Reading a dotted path: `None` when a key is missing or a scalar is in the way. */
  function GetPath(m: Tree, parts: seq<string>): Option<Setting>
    requires |parts| >= 1
    decreases |parts|
  {
    if parts[0] !in m then None
    else if |parts| == 1 then Some(m[parts[0]])
    else if m[parts[0]].Node? then GetPath(m[parts[0]].children, parts[1..])
    else None
  }

  /** After a successful update, reading the same path gives the new value. */
  lemma {:induction false} GetAfterSet(m: Tree, parts: seq<string>, v: Setting)
    requires |parts| >= 1
    requires SetIn(m, parts, v).Some?
    ensures GetPath(SetIn(m, parts, v).value, parts) == Some(v)
    decreases |parts|
  {
    if |parts| > 1 {
      GetAfterSet(Descend(m, parts[0]).value, parts[1..], v);
    }
  }

  /** A path that leaves the updated path at position `k` reads as before. */
  lemma {:induction false} OtherPathsUnchanged(m: Tree, parts: seq<string>, v: Setting, q: seq<string>, k: nat)
    requires |parts| >= 1 && k < |parts| && k < |q|
    requires q[..k] == parts[..k] && q[k] != parts[k]
    requires SetIn(m, parts, v).Some?
    ensures GetPath(SetIn(m, parts, v).value, q) == GetPath(m, q)
    decreases k
  {
    var r := SetIn(m, parts, v).value;
    if k > 0 {
      assert q[0] == parts[0] by { assert q[..k][0] == parts[..k][0]; }
      assert q[1..][..k - 1] == parts[1..][..k - 1] by {
        assert q[1..][..k - 1] == q[..k][1..];
        assert parts[1..][..k - 1] == parts[..k][1..];
      }
      var child := Descend(m, parts[0]).value;
      assert |parts| > 1;
      assert r[q[0]] == Node(SetIn(child, parts[1..], v).value);
      OtherPathsUnchanged(child, parts[1..], v, q[1..], k - 1);
      if q[0] in m && m[q[0]].Leaf? {
        assert !Truthy(m[q[0]]);
        assert child == map[];
        assert GetPath(r, q) == GetPath(child, q[1..]);
        assert GetPath(child, q[1..]) == None;
      }
    }
  }

  /** A path of one segment sets a top-level key and nothing else. */
  lemma SingleSegment(m: Tree, key: string, v: Setting)
    ensures SetIn(m, [key], v) == Some(m[key := v])
  {
  }

  /** A dotted path without a dot names a top-level key. */
  lemma PathWithoutDot(m: Tree, path: string, v: Setting)
    requires '.' !in path
    ensures SetIn(m, Split(path, '.'), v) == Some(m[path := v])
  {
    SplitWithoutSeparator(path, '.');
  }

  /** A missing or falsy intermediate is replaced by an empty object holding the rest
      of the path. */
  lemma FalsyIntermediate(m: Tree, a: string, b: string, v: Setting)
    requires a !in m || !Truthy(m[a])
    ensures SetIn(m, [a, b], v) == Some(m[a := Node(map[b := v])])
  {
    assert [a, b][1..] == [b];
  }

  /** The walk goes wrong when a truthy scalar sits on the path. */
  lemma ScalarInTheWay(m: Tree, a: string, b: string, v: Setting)
    requires a in m && m[a].Leaf? && Truthy(m[a])
    ensures SetIn(m, [a, b], v).None?
  {
  }

  /** When the walk stopped at position `i`, the update as a whole fails. */
  lemma {:induction false} BlockedWalk(maps: seq<Tree>, parts: seq<string>, v: Setting, i: nat, j: nat)
    requires j <= i < |parts| - 1 && i < |maps|
    requires forall t :: 0 <= t < i ==> Descend(maps[t], parts[t]) == Some(maps[t + 1])
    requires Descend(maps[i], parts[i]).None?
    ensures SetIn(maps[j], parts[j..], v).None?
    decreases i - j
  {
    assert parts[j..][0] == parts[j];
    if j < i {
      BlockedWalk(maps, parts, v, i, j + 1);
      assert parts[j..][1..] == parts[j + 1..];
    }
  }

  /** The pointer walk of `updateSetting` over the cloned tree: walk down the
      intermediate keys, creating `{}` for each missing or falsy one, assign the last
      key, and return the updated clone. */
  method SetAtPath(tree: Tree, path: string, v: Setting) returns (r: Option<Tree>)
    ensures r == SetIn(tree, Split(path, '.'), v)
  {
    var parts := Split(path, '.');
    var n := |parts|;
    // maps[t] is the object the pointer stands in after t steps.
    var maps: seq<Tree> := [tree];
    var i := 0;
    while i < n - 1
      invariant 0 <= i <= n - 1
      invariant |maps| == i + 1 && maps[0] == tree
      invariant forall t :: 0 <= t < i ==> Descend(maps[t], parts[t]) == Some(maps[t + 1])
    {
      var obj := maps[i];
      var next := Descend(obj, parts[i]);
      if next.None? {
        BlockedWalk(maps, parts, v, i, 0);
        assert parts[0..] == parts;
        return None;
      }
      maps := maps + [next.value];
      i := i + 1;
    }
    var cur := maps[n - 1][parts[n - 1] := v];
    assert parts[n - 1..] == [parts[n - 1]];
    var j := n - 1;
    while j > 0
      invariant 0 <= j <= n - 1
      invariant SetIn(maps[j], parts[j..], v) == Some(cur)
    {
      j := j - 1;
      assert parts[j..][0] == parts[j] && parts[j..][1..] == parts[j + 1..];
      cur := maps[j][parts[j] := Node(cur)];
    }
    assert parts[0..] == parts;
    r := Some(cur);
  }

  /** The body of the settings POST. */
  datatype Change = Change(key: string, value: Setting)

  /** The context state: the settings tree (`None` while it is `null`) and the path
      being saved ("" when none). */
  class Store {
    var settings: Option<Tree>
    var savingKey: string

    constructor()
      ensures settings == None && savingKey == ""
    {
      settings := None;
      savingKey := "";
    }

    /** The start of `updateSetting`: mark the path as saving and issue the POST. The
        tree is not changed yet. */
    method BeginUpdate(path: string, value: Setting) returns (req: Request<Change>)
      modifies this
      ensures savingKey == path
      ensures settings == old(settings)
      ensures req == Request(Post, "/api/settings", Change(path, value))
    {
      savingKey := path;
      req := Request(Post, "/api/settings", Change(path, value));
    }

    /** The end of `updateSetting`, once the POST resolved (`accepted`) or threw. Only
        an accepted change updates the tree, and only when there is one; `savingKey`
        is cleared on either outcome. */
    method FinishUpdate(path: string, value: Setting, accepted: bool)
      modifies this
      ensures savingKey == ""
      ensures !accepted || old(settings).None? ==> settings == old(settings)
      ensures accepted && old(settings).Some? && SetIn(old(settings).value, Split(path, '.'), value).Some? ==>
                settings == SetIn(old(settings).value, Split(path, '.'), value)
      ensures accepted && old(settings).Some? && SetIn(old(settings).value, Split(path, '.'), value).None? ==>
                settings == old(settings)
    {
      if accepted && settings.Some? {
        var updated := SetAtPath(settings.value, path, value);
        if updated.Some? {
          settings := updated;
        }
      }
      savingKey := "";
    }
  }
}
