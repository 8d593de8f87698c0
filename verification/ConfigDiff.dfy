/** The structural diff between two configuration payloads, as JSON trees.

    A path is the sequence of keys from the root. A key that is absent reads as null. */
module ConfigDiff {

  datatype Json =
    | Null
    | Bool(b: bool)
    | Number(r: real)
    | String(s: string)
    | Array(items: seq<Json>)
    | Object(members: map<string, Json>)

  datatype Kind = Changed | Added | Removed
  datatype Change = Change(path: seq<string>, before: Json, after: Json, kind: Kind)

  function Get(members: map<string, Json>, key: string): Json {
    if key in members then members[key] else Null
  }

  // "removed" overrides "added", which overrides "changed".
  function KindOf(before: Json, after: Json): Kind {
    if after == Null then Removed else if before == Null then Added else Changed
  }

  // ---------- The set of changes ----------

  function Under(key: string, c: Change): Change {
    c.(path := [key] + c.path)
  }

  // The changes from one tree to the other, with paths from here.
  ghost function Changes(before: Json, after: Json): set<Change>
    decreases before
  {
    if before.Object? && after.Object? then
      set key, c | key in before.members.Keys + after.members.Keys
                   && c in (if key in before.members then Changes(before.members[key], Get(after.members, key))
                            else LeafChange(Null, after.members[key]))
        :: Under(key, c)
    else LeafChange(before, after)
  }

  ghost function LeafChange(before: Json, after: Json): set<Change> {
    if before == after then {} else {Change([], before, after, KindOf(before, after))}
  }

  lemma {:induction false} ChangesOfMember(before: Json, after: Json, key: string, c: Change)
    requires before.Object? && after.Object?
    ensures Under(key, c) in Changes(before, after)
       <==> c in Changes(Get(before.members, key), Get(after.members, key))
  {
    if Under(key, c) in Changes(before, after) {
      var k, d :| k in before.members.Keys + after.members.Keys
                  && d in (if k in before.members then Changes(before.members[k], Get(after.members, k)) else LeafChange(Null, after.members[k]))
                  && Under(key, c) == Under(k, d);
      assert Under(key, c).path[0] == key && Under(k, d).path[0] == k;
      assert Under(key, c).path[1..] == c.path && Under(k, d).path[1..] == d.path;
    }
  }

  lemma {:induction false} ChangesAreUnderKeys(before: Json, after: Json, c: Change)
    requires before.Object? && after.Object? && c in Changes(before, after)
    ensures c.path != [] && Under(c.path[0], c.(path := c.path[1..])) == c
  {
    var k, d :| k in before.members.Keys + after.members.Keys
                && d in (if k in before.members then Changes(before.members[k], Get(after.members, k)) else LeafChange(Null, after.members[k]))
                && c == Under(k, d);
    assert c.path[1..] == d.path;
  }

  // ---------- The walk ----------

  class ChangeList {
    var items: seq<Change>

    constructor ()
      ensures items == []
    {
      items := [];
    }
  }

  // The same changes with their paths extended to the root.
  function Rooted(path: seq<string>, changes: seq<Change>): seq<Change> {
    seq(|changes|, i requires 0 <= i < |changes| => changes[i].(path := path + changes[i].path))
  }

  // The list holds these changes, each once, in some order.
  ghost predicate Enumerates(list: seq<Change>, changes: set<Change>) {
    && (forall i, j :: 0 <= i < j < |list| ==> list[i] != list[j])
    && (forall c :: c in list <==> c in changes)
  }

  ghost function ChangesBelow(before: Json, after: Json, keys: set<string>): set<Change> {
    set c | c in Changes(before, after) && c.path != [] && c.path[0] in keys
  }

  /** Walks both trees together and appends what differs to the shared list. The keys of two
      objects come in no particular order. */
  method WalkDiff(path: seq<string>, before: Json, after: Json, changes: ChangeList) returns (ghost added: seq<Change>)
    modifies changes
    ensures changes.items == old(changes.items) + Rooted(path, added)
    ensures Enumerates(added, Changes(before, after))
    decreases before.Object?, before, 1
  {
    if before.Object? && after.Object? {
      added := WalkMembers(path, before, after, changes);
    } else {
      added := NoteDifference(path, before, after, changes);
    }
  }

  // The keys of two objects, in any order.
  method WalkMembers(path: seq<string>, before: Json, after: Json, changes: ChangeList) returns (ghost added: seq<Change>)
    requires before.Object? && after.Object?
    modifies changes
    ensures changes.items == old(changes.items) + Rooted(path, added)
    ensures Enumerates(added, Changes(before, after))
    decreases before.Object?, before, 0
  {
    added := [];
    var keys := before.members.Keys + after.members.Keys;
    ghost var done := {};
    while keys != {}
      invariant keys !! done && keys + done == before.members.Keys + after.members.Keys
      invariant changes.items == old(changes.items) + Rooted(path, added)
      invariant Enumerates(added, ChangesBelow(before, after, done))
      decreases |keys|
    {
      var key :| key in keys;
      ghost var below := WalkDiff(path + [key], Get(before.members, key), Get(after.members, key), changes);
      EnumeratesMore(before, after, done, key, added, below);
      RootedMore(path, key, added, below);
      added := added + Rooted([key], below);
      keys, done := keys - {key}, done + {key};
    }
    AllKeysDone(before, after, done);
  }

  // Two trees that are not both objects.
  method NoteDifference(path: seq<string>, before: Json, after: Json, changes: ChangeList) returns (ghost added: seq<Change>)
    requires !(before.Object? && after.Object?)
    modifies changes
    ensures changes.items == old(changes.items) + Rooted(path, added)
    ensures Enumerates(added, Changes(before, after))
  {
    added := [];
    if before == after {
      return;
    }
    var kind := Changed;
    if before == Null {
      kind := Added;
    }
    if after == Null {
      kind := Removed;
    }
    added := [Change([], before, after, kind)];
    assert path + [] == path;
    changes.items := changes.items + [Change(path, before, after, kind)];
  }

  lemma {:induction false} RootedMore(path: seq<string>, key: string, items: seq<Change>, below: seq<Change>)
    ensures Rooted(path, items + Rooted([key], below)) == Rooted(path, items) + Rooted(path + [key], below)
  {
    forall c: Change ensures path + ([key] + c.path) == path + [key] + c.path {}
  }

  lemma {:induction false} AllKeysDone(before: Json, after: Json, done: set<string>)
    requires before.Object? && after.Object? && done == before.members.Keys + after.members.Keys
    ensures ChangesBelow(before, after, done) == Changes(before, after)
  {
    forall c | c in Changes(before, after) ensures c.path != [] && c.path[0] in done {
      var k, d :| k in before.members.Keys + after.members.Keys
                  && d in (if k in before.members then Changes(before.members[k], Get(after.members, k)) else LeafChange(Null, after.members[k]))
                  && c == Under(k, d);
    }
  }

  lemma {:induction false} EnumeratesMore(before: Json, after: Json, done: set<string>, key: string, items: seq<Change>, below: seq<Change>)
    requires before.Object? && after.Object? && key !in done
    requires Enumerates(items, ChangesBelow(before, after, done))
    requires Enumerates(below, Changes(Get(before.members, key), Get(after.members, key)))
    ensures Enumerates(items + Rooted([key], below), ChangesBelow(before, after, done + {key}))
  {
    var under := Rooted([key], below);
    forall i, j | 0 <= i < j < |under| ensures under[i] != under[j] {
      assert under[i].path[1..] == below[i].path && under[j].path[1..] == below[j].path;
    }
    forall c: Change ensures c in under <==> c in ChangesBelow(before, after, {key}) {
      if c in under {
        var i :| 0 <= i < |under| && under[i] == c;
        assert below[i] in below;
        ChangesOfMember(before, after, key, below[i]);
      }
      if c in ChangesBelow(before, after, {key}) {
        var d := c.(path := c.path[1..]);
        ChangesAreUnderKeys(before, after, c);
        ChangesOfMember(before, after, key, d);
        var i :| 0 <= i < |below| && below[i] == d;
        assert under[i] == c;
      }
    }
    var all := items + under;
    forall i, j | 0 <= i < j < |all| ensures all[i] != all[j] {
      if i < |items| <= j {
        assert all[i] in items && all[j] == under[j - |items|] && all[j] in under;
        assert all[i].path[0] in done && all[j].path[0] in {key};
      }
    }
  }

  // ---------- Sound and complete ----------

  // The tree without the object members that read as null.
  function Bare(j: Json): Json {
    match j
    case Object(members) => Object(map key | key in members && Bare(members[key]) != Null :: Bare(members[key]))
    case _ => j
  }

  // No change is reported exactly when the trees are the same with absent read as null.
  lemma {:induction false} NoChangesIff(before: Json, after: Json)
    ensures Changes(before, after) == {} <==> Bare(before) == Bare(after)
    decreases before.Object?, before
  {
    if before.Object? && after.Object? {
      var b, a := Bare(before).members, Bare(after).members;
      forall key: string
        ensures Changes(Get(before.members, key), Get(after.members, key)) == {} <==> Get(b, key) == Get(a, key)
        ensures key in b <==> Get(b, key) != Null
        ensures key in a <==> Get(a, key) != Null
      {
        NoChangesIff(Get(before.members, key), Get(after.members, key));
      }
      if Changes(before, after) == {} {
        forall key: string ensures Get(b, key) == Get(a, key) {
          var inner := Changes(Get(before.members, key), Get(after.members, key));
          if c :| c in inner {
            ChangesOfMember(before, after, key, c);
          }
        }
        assert b.Keys == a.Keys && forall key :: key in b ==> b[key] == a[key];
      } else {
        var c :| c in Changes(before, after);
        ChangesAreUnderKeys(before, after, c);
        ChangesOfMember(before, after, c.path[0], c.(path := c.path[1..]));
        assert Get(b, c.path[0]) != Get(a, c.path[0]);
      }
    } else if before != after {
      assert Change([], before, after, KindOf(before, after)) in Changes(before, after);
    }
  }

  // No reported path is another's, or leads to another's.
  lemma {:induction false} PathsFormAnAntichain(before: Json, after: Json, c: Change, d: Change)
    requires c in Changes(before, after) && d in Changes(before, after) && c != d
    ensures !(c.path <= d.path)
    decreases before.Object?, before
  {
    if before.Object? && after.Object? {
      ChangesAreUnderKeys(before, after, c);
      ChangesAreUnderKeys(before, after, d);
      if c.path <= d.path {
        var key := c.path[0];
        var c', d' := c.(path := c.path[1..]), d.(path := d.path[1..]);
        ChangesOfMember(before, after, key, c');
        ChangesOfMember(before, after, key, d');
        assert c'.path <= d'.path;
        PathsFormAnAntichain(Get(before.members, key), Get(after.members, key), c', d');
      }
    }
  }

  // ---------- What a change says ----------

  function At(tree: Json, path: seq<string>): Json
    decreases |path|
  {
    if path == [] then tree
    else if tree.Object? then At(Get(tree.members, path[0]), path[1..])
    else Null
  }

  // Both trees have objects all the way to the path.
  predicate SharedPath(before: Json, after: Json, path: seq<string>)
    decreases |path|
  {
    path != [] ==>
      before.Object? && after.Object? && SharedPath(Get(before.members, path[0]), Get(after.members, path[0]), path[1..])
  }

  // A change is reported exactly where two objects first hold different values that are not
  // both objects: with these values, as removed where the second is null, as added where only
  // the first is, and as changed otherwise.
  lemma {:induction false} ChangesMean(before: Json, after: Json, c: Change)
    ensures var x, y := At(before, c.path), At(after, c.path);
            var differs := SharedPath(before, after, c.path) && x != y && !(x.Object? && y.Object?);
            var kind := if y == Null then Removed else if x == Null then Added else Changed;
            c in Changes(before, after) <==> differs && c == Change(c.path, x, y, kind)
    decreases |c.path|
  {
    if before.Object? && after.Object? {
      if c.path == [] {
        if c in Changes(before, after) {
          ChangesAreUnderKeys(before, after, c);
        }
      } else {
        var key, inner := c.path[0], c.(path := c.path[1..]);
        assert Under(key, inner) == c;
        ChangesOfMember(before, after, key, inner);
        ChangesMean(Get(before.members, key), Get(after.members, key), inner);
      }
    }
  }

  // ---------- Applying the changes ----------

  function Put(members: map<string, Json>, key: string, value: Json): map<string, Json> {
    if value == Null then members - {key} else members[key := value]
  }

  function Apply(tree: Json, path: seq<string>, value: Json): Json
    decreases |path|
  {
    if path == [] then value
    else if tree.Object? then Object(Put(tree.members, path[0], Apply(Get(tree.members, path[0]), path[1..], value)))
    else tree
  }

  function ApplyAll(tree: Json, changes: seq<Change>): Json
    decreases |changes|
  {
    if changes == [] then tree else ApplyAll(Apply(tree, changes[0].path, changes[0].after), changes[1..])
  }

  // Applying one change leaves all the others to be made and no new ones.
  lemma {:induction false} ApplyOne(before: Json, after: Json, c: Change)
    requires c in Changes(before, after)
    ensures Changes(Apply(before, c.path, c.after), after) == Changes(before, after) - {c}
    decreases before.Object?, before
  {
    var next := Apply(before, c.path, c.after);
    if before.Object? && after.Object? {
      ChangesAreUnderKeys(before, after, c);
      var key, inner := c.path[0], c.(path := c.path[1..]);
      ChangesOfMember(before, after, key, inner);
      ApplyOne(Get(before.members, key), Get(after.members, key), inner);
      forall d: Change ensures d in Changes(next, after) <==> d in Changes(before, after) - {c} {
        if d.path != [] {
          var d' := d.(path := d.path[1..]);
          assert Under(d.path[0], d') == d;
          ChangesOfMember(before, after, d.path[0], d');
          ChangesOfMember(next, after, d.path[0], d');
          assert d == c <==> d.path[0] == key && d' == inner;
        } else {
          if d in Changes(next, after) {
            ChangesAreUnderKeys(next, after, d);
          }
          if d in Changes(before, after) {
            ChangesAreUnderKeys(before, after, d);
          }
        }
      }
    } else {
      SelfHasNoChanges(after);
    }
  }

  lemma {:induction false} SelfHasNoChanges(j: Json)
    ensures Changes(j, j) == {}
  {
    NoChangesIff(j, j);
  }

  // In whatever order they are applied, the reported changes turn `before` into `after`.
  lemma {:induction false} ApplyingTheDiffGivesAfter(before: Json, after: Json, changes: seq<Change>)
    requires Enumerates(changes, Changes(before, after))
    ensures Bare(ApplyAll(before, changes)) == Bare(after)
    decreases |changes|
  {
    if changes == [] {
      assert Changes(before, after) == {};
      NoChangesIff(before, after);
    } else {
      var c, rest := changes[0], changes[1..];
      ApplyOne(before, after, c);
      EnumeratesRest(changes, Changes(before, after));
      ApplyingTheDiffGivesAfter(Apply(before, c.path, c.after), after, rest);
    }
  }

  lemma {:induction false} EnumeratesRest(list: seq<Change>, changes: set<Change>)
    requires list != [] && Enumerates(list, changes)
    ensures list[0] in changes && Enumerates(list[1..], changes - {list[0]})
  {
    assert list[0] in list;
    forall c | c in list ensures c == list[0] || c in list[1..] {
      var i :| 0 <= i < |list| && list[i] == c;
      assert i > 0 ==> list[1..][i - 1] == c;
    }
  }

  /** The whole diff: every change from the first tree to the second, from the root. */
  method DiffConfigs(before: map<string, Json>, after: map<string, Json>) returns (changes: seq<Change>)
    ensures Enumerates(changes, Changes(Object(before), Object(after)))
    ensures changes == [] <==> Bare(Object(before)) == Bare(Object(after))
    ensures Bare(ApplyAll(Object(before), changes)) == Bare(Object(after))
  {
    var list := new ChangeList();
    ghost var added := WalkDiff([], Object(before), Object(after), list);
    forall c: Change ensures [] + c.path == c.path {}
    assert Rooted([], added) == added;
    changes := list.items;
    ApplyingTheDiffGivesAfter(Object(before), Object(after), changes);
    NoChangesIff(Object(before), Object(after));
    if changes != [] {
      assert changes[0] in Changes(Object(before), Object(after));
    } else {
      assert Changes(Object(before), Object(after)) == {};
    }
  }

  // ---------- Paths written with dots ----------

  // How a path is reported: a dot before every key but the first, or after an empty path.
  function Dotted(path: seq<string>): string {
    if path == [] then ""
    else
      var front, key := Dotted(path[..|path| - 1]), path[|path| - 1];
      if front == "" then key else front + "." + key
  }

  function Pieces(s: string): (r: seq<string>)
    ensures r != [] && forall i :: 0 <= i < |r| ==> '.' !in r[i]
  {
    if s == "" then [""]
    else
      var front, c := Pieces(s[..|s| - 1]), s[|s| - 1];
      if c == '.' then front + [""] else front[..|front| - 1] + [front[|front| - 1] + [c]]
  }

  // Reading a reported path: the keys between the dots.
  function Keys(s: string): (r: seq<string>)
    ensures forall i :: 0 <= i < |r| ==> '.' !in r[i]
  {
    if s == "" then [] else Pieces(s)
  }

  predicate DotFree(path: seq<string>) {
    forall i :: 0 <= i < |path| ==> '.' !in path[i]
  }

  // No key with a dot, and none that is empty at the start.
  predicate Plain(path: seq<string>) {
    DotFree(path) && (path != [] ==> path[0] != "")
  }

  lemma {:induction false} PiecesOfKey(key: string)
    requires '.' !in key
    ensures Pieces(key) == [key]
    decreases |key|
  {
    if key != "" {
      var n := |key| - 1;
      PiecesOfKey(key[..n]);
      assert Pieces(key) == [key[..n] + [key[n]]];
      assert key[..n] + [key[n]] == key;
    }
  }

  lemma {:induction false} PiecesAppend(s: string, key: string)
    requires '.' !in key
    ensures Pieces(s + "." + key) == Pieces(s) + [key]
    decreases |key|
  {
    var n := |key| - 1;
    if key == "" {
      assert (s + "." + key)[..|s|] == s;
    } else {
      var all, front := s + "." + key, Pieces(s) + [key[..n]];
      PiecesAppend(s, key[..n]);
      assert all[..|all| - 1] == s + "." + key[..n];
      assert front[|front| - 1] == key[..n] && front[..|front| - 1] == Pieces(s);
      assert key[..n] + [key[n]] == key && all[|all| - 1] == key[n] != '.';
    }
  }

  lemma {:induction false} PlainReadsBack(path: seq<string>)
    requires Plain(path)
    ensures Keys(Dotted(path)) == path && (path != [] ==> Dotted(path) != "")
    decreases |path|
  {
    if path != [] {
      var n := |path| - 1;
      var front, key := path[..n], path[n];
      PlainReadsBack(front);
      if front == [] {
        PiecesOfKey(key);
      } else {
        PiecesAppend(Dotted(front), key);
      }
    }
  }

  // Empty keys at the start leave no trace.
  lemma {:induction false} LeadingEmptyIsLost(path: seq<string>)
    requires path != [] && path[0] == ""
    ensures Dotted(path) == Dotted(path[1..])
    decreases |path|
  {
    var n := |path| - 1;
    if n > 0 {
      LeadingEmptyIsLost(path[..n]);
      assert path[..n][1..] == path[1..][..n - 1];
    }
  }

  function WithoutLeadingEmpty(path: seq<string>): (r: seq<string>)
    ensures |r| <= |path| && (DotFree(path) ==> Plain(r))
  {
    if path != [] && path[0] == "" then WithoutLeadingEmpty(path[1..]) else path
  }

  lemma {:induction false} LeadingEmptiesAreLost(path: seq<string>)
    ensures Dotted(path) == Dotted(WithoutLeadingEmpty(path))
    decreases |path|
  {
    if path != [] && path[0] == "" {
      LeadingEmptyIsLost(path);
      LeadingEmptiesAreLost(path[1..]);
    }
  }

  // A reported path can be read back exactly when no key has a dot and the first is not empty.
  lemma {:induction false} ReadsBackIff(path: seq<string>)
    ensures Keys(Dotted(path)) == path <==> Plain(path)
  {
    if Plain(path) {
      PlainReadsBack(path);
    } else if DotFree(path) {
      LeadingEmptiesAreLost(path);
      PlainReadsBack(WithoutLeadingEmpty(path));
    }
  }

  // So plain paths are never confused with each other.
  lemma {:induction false} PlainPathsDiffer(path: seq<string>, other: seq<string>)
    requires Plain(path) && Plain(other)
    ensures Dotted(path) == Dotted(other) <==> path == other
  {
    ReadsBackIff(path);
    ReadsBackIff(other);
  }

  // A key with a dot in it makes two different changes share one reported path.
  lemma {:induction false} DottedPathsCollide()
    ensures var before := Object(map["a.b" := Bool(true), "a" := Object(map["b" := Bool(true)])]);
            var after := Object(map["a.b" := Bool(false), "a" := Object(map["b" := Bool(false)])]);
            var c, d := Change(["a.b"], Bool(true), Bool(false), Changed), Change(["a", "b"], Bool(true), Bool(false), Changed);
            c in Changes(before, after) && d in Changes(before, after) && Dotted(c.path) == Dotted(d.path) == "a.b"
  {
    var inner, inner' := Object(map["b" := Bool(true)]), Object(map["b" := Bool(false)]);
    var before := Object(map["a.b" := Bool(true), "a" := inner]);
    var after := Object(map["a.b" := Bool(false), "a" := inner']);
    var leaf := Change([], Bool(true), Bool(false), Changed);
    assert leaf in Changes(Bool(true), Bool(false));
    ChangesOfMember(before, after, "a.b", leaf);
    ChangesOfMember(inner, inner', "b", leaf);
    ChangesOfMember(before, after, "a", Under("b", leaf));
    assert Under("a.b", leaf) == Change(["a.b"], Bool(true), Bool(false), Changed);
    assert Under("a", Under("b", leaf)) == Change(["a", "b"], Bool(true), Bool(false), Changed);
    assert ["a", "b"][..1] == ["a"];
    assert Dotted(["a"]) == "a";
    assert Dotted(["a", "b"]) == "a" + "." + "b" == "a.b";
  }
}
