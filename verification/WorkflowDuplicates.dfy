/** The identities that the checker meets in a tree are all different exactly when
    no mapping that it sees repeats a key. */
module WorkflowDuplicates {
  import opened Common
  import opened LogText
  import opened WorkflowKeys
  import opened WorkflowTrees

  // ------------------------------------------------------------- what is seen at all

  /** A sequence item whose first key has a block scalar. */
  predicate HidesKeys(item: Node)
  {
    item.Mapping? && item.entries != [] && item.entries[0].value.Block?
  }

  /** Some mapping that the checker sees repeats a key. */
  predicate SeenRepeat(node: Node)
  {
    match node
    case Mapping(entries) => Repeats(entries) || SeenBelow(entries)
    case Sequence(items) => SeenAmong(items)
    case _ => false
  }

  predicate SeenBelow(entries: seq<Entry>)
  {
    entries != [] && (SeenRepeat(entries[0].value) || SeenBelow(entries[1..]))
  }

  predicate SeenAmong(items: seq<Node>)
  {
    items != [] && ((!HidesKeys(items[0]) && SeenRepeat(items[0])) || SeenAmong(items[1..]))
  }

  /** Some sequence item of the tree hides keys from the checker. */
  predicate Hides(node: Node)
  {
    match node
    case Mapping(entries) => HidesBelow(entries)
    case Sequence(items) => HidesAmong(items)
    case _ => false
  }

  predicate HidesBelow(entries: seq<Entry>)
  {
    entries != [] && (Hides(entries[0].value) || HidesBelow(entries[1..]))
  }

  predicate HidesAmong(items: seq<Node>)
  {
    items != [] && (HidesKeys(items[0]) || Hides(items[0]) || HidesAmong(items[1..]))
  }

  /** What is seen to repeat does repeat; nothing else does unless keys are hidden. */
  lemma {:induction false} SeenIsReal(node: Node)
    ensures SeenRepeat(node) ==> HasRepeat(node)
    ensures !Hides(node) ==> (SeenRepeat(node) <==> HasRepeat(node))
    decreases node
  {
    match node
    case Mapping(entries) => SeenBelowIsReal(entries);
    case Sequence(items) => SeenAmongIsReal(items);
    case _ =>
  }

  lemma {:induction false} SeenBelowIsReal(entries: seq<Entry>)
    ensures SeenBelow(entries) ==> EntryHasRepeat(entries)
    ensures !HidesBelow(entries) ==> (SeenBelow(entries) <==> EntryHasRepeat(entries))
    decreases entries
  {
    if entries != [] {
      SeenIsReal(entries[0].value);
      SeenBelowIsReal(entries[1..]);
    }
  }

  lemma {:induction false} SeenAmongIsReal(items: seq<Node>)
    ensures SeenAmong(items) ==> ItemHasRepeat(items)
    ensures !HidesAmong(items) ==> (SeenAmong(items) <==> ItemHasRepeat(items))
    decreases items
  {
    if items != [] {
      SeenIsReal(items[0]);
      SeenAmongIsReal(items[1..]);
    }
  }

  // ------------------------------------------------------------ sequences of identities

  predicate Disjoint(a: seq<Id>, b: seq<Id>)
  {
    forall i, j :: 0 <= i < |a| && 0 <= j < |b| ==> a[i] != b[j]
  }

  lemma UniqueConcat(a: seq<Id>, b: seq<Id>)
    ensures Unique(a + b) <==> Unique(a) && Unique(b) && Disjoint(a, b)
  {
    var s := a + b;
    if Unique(s) {
      forall i, j | 0 <= i < j < |b| ensures b[i] != b[j] {
        assert s[|a| + i] == b[i] && s[|a| + j] == b[j];
      }
      forall i, j | 0 <= i < j < |a| ensures a[i] != a[j] {
        assert s[i] == a[i] && s[j] == a[j];
      }
      forall i, j | 0 <= i < |a| && 0 <= j < |b| ensures a[i] != b[j] {
        assert s[i] == a[i] && s[|a| + j] == b[j];
      }
    }
  }

  // ---------------------------------------------------------------- scopes of a tree

  /** Every identity lies in this scope or deeper. */
  predicate Under(ids: seq<Id>, path: seq<string>)
  {
    forall i :: 0 <= i < |ids| ==> path <= ids[i].path
  }

  /** It is an entry of this mapping, or lies below one. */
  predicate OfEntry(id: Id, entries: seq<Entry>, path: seq<string>, n: nat)
  {
    exists j :: 0 <= j < |entries| && (id == Id(path, n, entries[j].key) || path + [entries[j].key] <= id.path)
  }

  predicate OfMapping(ids: seq<Id>, entries: seq<Entry>, path: seq<string>, n: nat)
  {
    forall i :: 0 <= i < |ids| ==> OfEntry(ids[i], entries, path, n)
  }

  /** It lies in the scope of one item that was counted from c to d. */
  ghost predicate OfItem(id: Id, path: seq<string>, c: map<nat, nat>, d: map<nat, nat>)
  {
    exists i: nat, m: nat :: Count(c, i) < m <= Count(d, i) && path + [ItemToken(i, m)] <= id.path
  }

  ghost predicate OfItems(ids: seq<Id>, path: seq<string>, c: map<nat, nat>, d: map<nat, nat>)
  {
    forall i :: 0 <= i < |ids| ==> OfItem(ids[i], path, c, d)
  }

  ghost predicate Grown(c: map<nat, nat>, d: map<nat, nat>)
  {
    forall i: nat :: Count(c, i) <= Count(d, i)
  }

  lemma OfEntryIsUnder(id: Id, entries: seq<Entry>, path: seq<string>, n: nat)
    requires OfEntry(id, entries, path, n)
    ensures path <= id.path
  {
  }

  lemma OfMappingIsUnder(ids: seq<Id>, entries: seq<Entry>, path: seq<string>, n: nat)
    requires OfMapping(ids, entries, path, n)
    ensures Under(ids, path)
  {
    forall i | 0 <= i < |ids| ensures path <= ids[i].path {
      OfEntryIsUnder(ids[i], entries, path, n);
    }
  }

  lemma OfItemsIsUnder(ids: seq<Id>, path: seq<string>, c: map<nat, nat>, d: map<nat, nat>)
    requires OfItems(ids, path, c, d)
    ensures Under(ids, path)
  {
    forall k | 0 <= k < |ids| ensures path <= ids[k].path {
      assert OfItem(ids[k], path, c, d);
    }
  }

  lemma {:induction false} MappingScopes(entries: seq<Entry>, path: seq<string>, n: nat, c: map<nat, nat>)
    ensures OfMapping(WalkMapping(entries, path, n, c).0, entries, path, n)
    ensures Grown(c, WalkMapping(entries, path, n, c).1)
    decreases entries, 0
  {
    if entries != [] {
      var e := entries[0];
      var below := WalkChild(e.value, path + [e.key], n, c);
      var rest := WalkMapping(entries[1..], path, n, below.1);
      ChildScopes(e.value, path + [e.key], n, c);
      MappingScopes(entries[1..], path, n, below.1);
      MappingWalk(entries, path, n, c);
      FirstEntry(entries, path, n, below.0);
      LaterEntries(entries, path, n, rest.0);
    }
  }

  lemma FirstEntry(entries: seq<Entry>, path: seq<string>, n: nat, below: seq<Id>)
    requires entries != [] && Under(below, path + [entries[0].key])
    ensures OfMapping([Id(path, n, entries[0].key)] + below, entries, path, n)
  {
    var ids := [Id(path, n, entries[0].key)] + below;
    forall i | 0 <= i < |ids| ensures OfEntry(ids[i], entries, path, n) {
      assert i > 0 ==> ids[i] == below[i - 1];
      assert ids[i] == Id(path, n, entries[0].key) || path + [entries[0].key] <= ids[i].path;
    }
  }

  lemma LaterEntries(entries: seq<Entry>, path: seq<string>, n: nat, rest: seq<Id>)
    requires entries != [] && OfMapping(rest, entries[1..], path, n)
    ensures OfMapping(rest, entries, path, n)
  {
    forall i | 0 <= i < |rest| ensures OfEntry(rest[i], entries, path, n) {
      assert OfEntry(rest[i], entries[1..], path, n);
      var j :| 0 <= j < |entries[1..]| &&
        (rest[i] == Id(path, n, entries[1..][j].key) || path + [entries[1..][j].key] <= rest[i].path);
      assert entries[1..][j] == entries[j + 1];
    }
  }

  lemma {:induction false} ChildScopes(node: Node, path: seq<string>, n: nat, c: map<nat, nat>)
    ensures Under(WalkChild(node, path, n, c).0, path) && Grown(c, WalkChild(node, path, n, c).1)
    decreases node
  {
    match node
    case Mapping(entries) =>
      MappingScopes(entries, path, n + 2, c);
      OfMappingIsUnder(WalkMapping(entries, path, n + 2, c).0, entries, path, n + 2);
    case Sequence(items) =>
      ItemsScopes(items, path, n + 2, c);
      var walk := WalkItems(items, path, n + 2, c);
      OfItemsIsUnder(walk.0, path, c, walk.1);
    case _ =>
  }

  lemma {:induction false} ItemsScopes(items: seq<Node>, path: seq<string>, n: nat, c: map<nat, nat>)
    ensures var walk := WalkItems(items, path, n, c); Grown(c, walk.1) && OfItems(walk.0, path, c, walk.1)
    decreases items
  {
    if items != [] {
      var first := WalkItem(items[0], path, n, c);
      OneItemScopes(items[0], path, n, c);
      ItemsScopes(items[1..], path, n, first.1);
      var rest := WalkItems(items[1..], path, n, first.1);
      WidenItems(first.0, path, c, first.1, c, rest.1);
      WidenItems(rest.0, path, first.1, rest.1, c, rest.1);
    }
  }

  lemma WidenItems(ids: seq<Id>, path: seq<string>, c: map<nat, nat>, d: map<nat, nat>, c': map<nat, nat>, d': map<nat, nat>)
    requires OfItems(ids, path, c, d) && Grown(c', c) && Grown(d, d')
    ensures OfItems(ids, path, c', d')
  {
    forall k | 0 <= k < |ids| ensures OfItem(ids[k], path, c', d') {
      assert OfItem(ids[k], path, c, d);
      var i: nat, m: nat :| Count(c, i) < m <= Count(d, i) && path + [ItemToken(i, m)] <= ids[k].path;
      assert Count(c', i) < m <= Count(d', i);
    }
  }

  lemma CountedGrows(c: map<nat, nat>, n: nat)
    ensures Grown(c, Counted(c, n)) && Count(Counted(c, n), n) == Count(c, n) + 1
  {
  }

  lemma {:induction false} OneItemScopes(item: Node, path: seq<string>, n: nat, c: map<nat, nat>)
    ensures var walk := WalkItem(item, path, n, c); Grown(c, walk.1) && OfItems(walk.0, path, c, walk.1)
    decreases item
  {
    CountedGrows(c, n);
    match item
    case Mapping(entries) =>
      if entries != [] {
        var c1 := Counted(c, n);
        var inside := path + [ItemToken(n, c1[n])];
        if !entries[0].value.Block? {
          MappingScopes(entries, inside, n + 2, c1);
          OfMappingIsUnder(WalkMapping(entries, inside, n + 2, c1).0, entries, inside, n + 2);
        }
        var walk := WalkItem(item, path, n, c);
        assert Under(walk.0, inside);
        forall k | 0 <= k < |walk.0| ensures OfItem(walk.0[k], path, c, walk.1) {
          assert path + [ItemToken(n, c1[n])] <= walk.0[k].path;
          assert Count(c, n) < c1[n] <= Count(walk.1, n);
        }
      }
    case Sequence(inner) => ItemsScopes(inner, path, n + 2, c);
    case _ =>
  }

  // ----------------------------------------------------------- item tokens are unique

  lemma ColonSplits(a: string, b: string, c: string, d: string)
    requires ':' !in a && ':' !in c && a + ":" + b == c + ":" + d
    ensures a == c && b == d
  {
    var s := a + ":" + b;
    var t := c + ":" + d;
    assert s[|a|] == ':' && t[|c|] == ':';
    assert forall k :: 0 <= k < |a| ==> s[k] == a[k];
    assert forall k :: 0 <= k < |c| ==> t[k] == c[k];
    assert |a| == |c|;
    assert a == s[..|a|] && c == t[..|a|] && b == s[|a| + 1..] && d == t[|a| + 1..];
  }

  lemma TokenIsInjective(i: nat, m: nat, j: nat, k: nat)
    requires ItemToken(i, m) == ItemToken(j, k)
    ensures i == j && m == k
  {
    var s, t := ItemToken(i, m), ItemToken(j, k);
    assert s[1..] == Digits(i) + ":" + Digits(m) && t[1..] == Digits(j) + ":" + Digits(k);
    ColonSplits(Digits(i), Digits(m), Digits(j), Digits(k));
    NatRoundTrip(i);
    NatRoundTrip(j);
    NatRoundTrip(m);
    NatRoundTrip(k);
  }

  /** Items counted one after the other share no scope. */
  lemma ItemsApart(a: Id, b: Id, path: seq<string>, c: map<nat, nat>, d: map<nat, nat>, e: map<nat, nat>)
    requires OfItem(a, path, c, d) && OfItem(b, path, d, e)
    ensures a != b
  {
    var i: nat, m: nat :| Count(c, i) < m <= Count(d, i) && path + [ItemToken(i, m)] <= a.path;
    var j: nat, k: nat :| Count(d, j) < k <= Count(e, j) && path + [ItemToken(j, k)] <= b.path;
    if a.path == b.path {
      assert a.path[|path|] == (path + [ItemToken(i, m)])[|path|] == ItemToken(i, m);
      assert b.path[|path|] == (path + [ItemToken(j, k)])[|path|] == ItemToken(j, k);
      TokenIsInjective(i, m, j, k);
    }
  }

  lemma ItemsDisjoint(one: seq<Id>, two: seq<Id>, path: seq<string>, c: map<nat, nat>, d: map<nat, nat>, e: map<nat, nat>)
    requires OfItems(one, path, c, d) && OfItems(two, path, d, e)
    ensures Disjoint(one, two)
  {
    forall i, j | 0 <= i < |one| && 0 <= j < |two| ensures one[i] != two[j] {
      assert OfItem(one[i], path, c, d) && OfItem(two[j], path, d, e);
      ItemsApart(one[i], two[j], path, c, d, e);
    }
  }

  // -------------------------------------------------------------- entries of a mapping

  /** An entry's own identity is not below it. */
  lemma EntryAboveItsChildren(path: seq<string>, n: nat, key: string, below: seq<Id>)
    requires Under(below, path + [key])
    ensures Disjoint([Id(path, n, key)], below)
  {
    forall j | 0 <= j < |below| ensures Id(path, n, key) != below[j] {
      assert |below[j].path| > |path|;
    }
  }

  /** What belongs to one key does not belong to the other keys. */
  lemma EntriesDisjoint(path: seq<string>, n: nat, key: string, below: seq<Id>, entries: seq<Entry>, rest: seq<Id>)
    requires Under(below, path + [key]) && OfMapping(rest, entries, path, n)
    requires forall j :: 0 <= j < |entries| ==> entries[j].key != key
    ensures Disjoint([Id(path, n, key)] + below, rest)
  {
    var own := [Id(path, n, key)] + below;
    forall i, j | 0 <= i < |own| && 0 <= j < |rest| ensures own[i] != rest[j] {
      assert OfEntry(rest[j], entries, path, n);
      var k :| 0 <= k < |entries| && (rest[j] == Id(path, n, entries[k].key) || path + [entries[k].key] <= rest[j].path);
      if i > 0 {
        assert own[i] == below[i - 1] && path + [key] <= own[i].path;
        assert own[i].path[|path|] == (path + [key])[|path|] == key;
      }
      if path + [entries[k].key] <= rest[j].path {
        assert rest[j].path[|path|] == (path + [entries[k].key])[|path|] == entries[k].key;
      }
    }
  }

  /** Every key of a mapping has its identity among those of the mapping. */
  lemma {:induction false} KeyIsMet(entries: seq<Entry>, path: seq<string>, n: nat, c: map<nat, nat>, j: nat)
    requires j < |entries|
    ensures Id(path, n, entries[j].key) in WalkMapping(entries, path, n, c).0
    decreases |entries|
  {
    var below := WalkChild(entries[0].value, path + [entries[0].key], n, c);
    var rest := WalkMapping(entries[1..], path, n, below.1);
    MappingWalk(entries, path, n, c);
    if j > 0 {
      KeyIsMet(entries[1..], path, n, below.1, j - 1);
    }
  }

  predicate FirstKeyAgain(entries: seq<Entry>)
  {
    entries != [] && exists j :: 1 <= j < |entries| && entries[j].key == entries[0].key
  }

  lemma RepeatsSplit(entries: seq<Entry>)
    requires entries != []
    ensures Repeats(entries) <==> FirstKeyAgain(entries) || Repeats(entries[1..])
  {
    if Repeats(entries) && !FirstKeyAgain(entries) {
      var i, j :| 0 <= i < j < |entries| && entries[i].key == entries[j].key;
      assert entries[1..][i - 1].key == entries[1..][j - 1].key;
    }
    if Repeats(entries[1..]) {
      var i, j :| 0 <= i < j < |entries[1..]| && entries[1..][i].key == entries[1..][j].key;
      assert entries[i + 1].key == entries[j + 1].key;
    }
  }

  /** A first key that occurs again makes two identities equal. */
  lemma {:induction false} FirstKeyCollides(entries: seq<Entry>, path: seq<string>, n: nat, c: map<nat, nat>, own: seq<Id>)
    requires FirstKeyAgain(entries) && own != [] && own[0] == Id(path, n, entries[0].key)
    ensures !Disjoint(own, WalkMapping(entries[1..], path, n, c).0)
  {
    var j :| 1 <= j < |entries| && entries[j].key == entries[0].key;
    KeyIsMet(entries[1..], path, n, c, j - 1);
    var rest := WalkMapping(entries[1..], path, n, c).0;
    var k :| 0 <= k < |rest| && rest[k] == Id(path, n, entries[0].key);
    assert own[0] == rest[k];
  }

  lemma FirstKeyApart(entries: seq<Entry>, path: seq<string>, n: nat, below: seq<Id>, rest: seq<Id>)
    requires entries != [] && !FirstKeyAgain(entries)
    requires Under(below, path + [entries[0].key]) && OfMapping(rest, entries[1..], path, n)
    ensures Disjoint([Id(path, n, entries[0].key)] + below, rest)
  {
    forall j | 0 <= j < |entries[1..]| ensures entries[1..][j].key != entries[0].key {
      assert entries[1..][j] == entries[j + 1];
    }
    EntriesDisjoint(path, n, entries[0].key, below, entries[1..], rest);
  }

  // ----------------------------------------------------------------------- uniqueness

  lemma OneAndBelow(path: seq<string>, n: nat, key: string, below: seq<Id>)
    requires Under(below, path + [key])
    ensures Unique([Id(path, n, key)] + below) <==> Unique(below)
  {
    EntryAboveItsChildren(path, n, key, below);
    UniqueConcat([Id(path, n, key)], below);
  }

  /** The identities of a mapping are all different exactly when no mapping in it
      that the checker sees repeats a key. */
  lemma {:induction false} MappingUnique(entries: seq<Entry>, path: seq<string>, n: nat, c: map<nat, nat>)
    ensures Unique(WalkMapping(entries, path, n, c).0) <==> !Repeats(entries) && !SeenBelow(entries)
    decreases entries, 0
  {
    if entries != [] {
      var e := entries[0];
      var below := WalkChild(e.value, path + [e.key], n, c);
      var rest := WalkMapping(entries[1..], path, n, below.1);
      var own := [Id(path, n, e.key)] + below.0;
      MappingWalk(entries, path, n, c);
      ChildUnique(e.value, path + [e.key], n, c);
      MappingUnique(entries[1..], path, n, below.1);
      ChildScopes(e.value, path + [e.key], n, c);
      MappingScopes(entries[1..], path, n, below.1);
      OneAndBelow(path, n, e.key, below.0);
      UniqueConcat(own, rest.0);
      RepeatsSplit(entries);
      if FirstKeyAgain(entries) {
        FirstKeyCollides(entries, path, n, below.1, own);
      } else {
        FirstKeyApart(entries, path, n, below.0, rest.0);
      }
    }
  }

  lemma {:induction false} ChildUnique(node: Node, path: seq<string>, n: nat, c: map<nat, nat>)
    ensures Unique(WalkChild(node, path, n, c).0) <==> !SeenRepeat(node)
    decreases node
  {
    match node
    case Mapping(entries) => MappingUnique(entries, path, n + 2, c);
    case Sequence(items) => ItemsUnique(items, path, n + 2, c);
    case _ =>
  }

  lemma {:induction false} ItemsUnique(items: seq<Node>, path: seq<string>, n: nat, c: map<nat, nat>)
    ensures Unique(WalkItems(items, path, n, c).0) <==> !SeenAmong(items)
    decreases items
  {
    if items != [] {
      var first := WalkItem(items[0], path, n, c);
      var rest := WalkItems(items[1..], path, n, first.1);
      ItemUnique(items[0], path, n, c);
      ItemsUnique(items[1..], path, n, first.1);
      OneItemScopes(items[0], path, n, c);
      ItemsScopes(items[1..], path, n, first.1);
      ItemsDisjoint(first.0, rest.0, path, c, first.1, rest.1);
      UniqueConcat(first.0, rest.0);
    }
  }

  lemma {:induction false} ItemUnique(item: Node, path: seq<string>, n: nat, c: map<nat, nat>)
    ensures Unique(WalkItem(item, path, n, c).0) <==> HidesKeys(item) || !SeenRepeat(item)
    decreases item
  {
    match item
    case Mapping(entries) =>
      if entries != [] && !entries[0].value.Block? {
        var c1 := Counted(c, n);
        MappingUnique(entries, path + [ItemToken(n, c1[n])], n + 2, c1);
      }
    case Sequence(inner) => ItemsUnique(inner, path, n + 2, c);
    case _ =>
  }
}
