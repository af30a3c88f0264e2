/** A file system that other processes edit, and the order in which names are listed. */
module ReviewWorld {
  import opened Results
  import opened Strings
  import opened Utf8

  // --- nodes, and their history ---------------------------------------------------

  datatype Item = Item(name: string, ino: nat)

  datatype Kind =
    | File(content: seq<byte>, links: nat, mode: nat)
    | Dir(items: seq<Item>)
    | Link
    | Special

  /** `stamp` stands for the device, link count, size and the two change times of a node. */
  datatype Node = Node(stamp: nat, kind: Kind)

  type World = nat -> Node

  /** The node that an inode number stands for at each time. */
  type History = (nat, nat) -> Node

  /**
   Every edit of a node, also of the entries of a directory, gives it a stamp that the
   inode number has never carried before.
   */
  ghost predicate Evolves(h: History) {
    forall t: nat, i: nat :: Edited(h, t, i)
  }

  ghost predicate Edited(h: History, t: nat, i: nat) {
    h(t + 1, i) == h(t, i) || forall s: nat | s <= t :: h(s, i).stamp != h(t + 1, i).stamp
  }

  /** A stamp seen again means that nothing happened to the node in between. */
  lemma {:induction false} StampHolds(h: History, i: nat, low: nat, high: nat, t: nat)
    requires Evolves(h) && low <= t <= high && h(low, i).stamp == h(high, i).stamp
    ensures h(t, i) == h(low, i)
    decreases high - low
  {
    if low < high {
      assert Edited(h, high - 1, i);
      assert h(high, i) == h(high - 1, i);
      StampHolds(h, i, low, high - 1, if t < high then t else high - 1);
      if t == high { StampHolds(h, i, low, high - 1, high - 1); }
    }
  }

  function LookupItem(items: seq<Item>, name: string): Option<nat> {
    if items == [] then None else if items[0].name == name then Some(items[0].ino) else LookupItem(items[1..], name)
  }

  function NamesOf(items: seq<Item>): (names: seq<string>)
    ensures |names| == |items| && forall i | 0 <= i < |items| :: names[i] == items[i].name
  {
    seq(|items|, i requires 0 <= i < |items| => items[i].name)
  }

  // A directory holds each name once.
  ghost predicate WellFormed(node: Node) {
    node.kind.Dir? ==> Distinct(NamesOf(node.kind.items))
  }

  ghost predicate Distinct(names: seq<string>) {
    forall i, j | 0 <= i < j < |names| :: names[i] != names[j]
  }

  // --- sorting names -----------------------------------------------------------------

  function Insert(name: string, sorted: seq<string>): seq<string> {
    if sorted == [] || !Less(sorted[0], name) then [name] + sorted
    else [sorted[0]] + Insert(name, sorted[1..])
  }

  function Sort(names: seq<string>): seq<string> {
    if names == [] then [] else Insert(names[0], Sort(names[1..]))
  }

  ghost predicate Ascending(names: seq<string>) {
    names == [] || ((forall k | 1 <= k < |names| :: Less(names[0], names[k])) && Ascending(names[1..]))
  }

  ghost function Elements(names: seq<string>): set<string> { set name | name in names }

  lemma {:induction false} ElementsTail(names: seq<string>)
    requires names != []
    ensures Elements(names) == {names[0]} + Elements(names[1..])
  {
    forall name | name in names ensures name in {names[0]} + Elements(names[1..]) {
      var i :| 0 <= i < |names| && names[i] == name;
      if i > 0 { assert names[1..][i - 1] == name; }
    }
  }

  lemma {:induction false} InsertSorted(name: string, sorted: seq<string>)
    requires Ascending(sorted) && name !in sorted
    ensures Ascending(Insert(name, sorted)) && Elements(Insert(name, sorted)) == Elements(sorted) + {name}
    ensures |Insert(name, sorted)| == |sorted| + 1
  {
    var r := Insert(name, sorted);
    if sorted == [] {
      assert r == [name];
    } else if !Less(sorted[0], name) {
      LessTotal(sorted[0], name);
      assert r[1..] == sorted;
      forall k | 1 <= k < |r| ensures Less(name, r[k]) {
        if k > 1 { LessTransitive(name, sorted[0], sorted[k - 1]); }
      }
      ElementsTail(r);
    } else {
      InsertSorted(name, sorted[1..]);
      assert r[1..] == Insert(name, sorted[1..]);
      forall k | 1 <= k < |r| ensures Less(r[0], r[k]) {
        assert r[k] in Elements(r[1..]);
        if r[k] != name { assert r[k] in Elements(sorted[1..]); }
      }
      ElementsTail(r);
      ElementsTail(sorted);
    }
  }

  lemma {:induction false} SortSorted(names: seq<string>)
    requires Distinct(names)
    ensures Ascending(Sort(names)) && Elements(Sort(names)) == Elements(names) && |Sort(names)| == |names|
  {
    if names != [] {
      SortSorted(names[1..]);
      assert names[0] !in Elements(names[1..]);
      assert names[0] !in Sort(names[1..]) by { assert names[0] !in Elements(Sort(names[1..])); }
      InsertSorted(names[0], Sort(names[1..]));
      ElementsTail(names);
    }
  }

  lemma {:induction false} HeadIn(names: seq<string>)
    ensures names == [] || names[0] in Elements(names)
  {
  }

  lemma {:induction false} AscendingUnique(a: seq<string>, b: seq<string>)
    requires Ascending(a) && Ascending(b) && Elements(a) == Elements(b)
    ensures a == b
  {
    if a == [] {
      HeadIn(b);
    } else {
      assert a[0] in Elements(a);
      assert b != [] by { assert a[0] in Elements(b); }
      assert b[0] in Elements(b);
      FirstLeast(a, b);
      FirstLeast(b, a);
      LessTotal(a[0], b[0]);
      RestElements(a);
      RestElements(b);
      AscendingUnique(a[1..], b[1..]);
    }
  }

  lemma {:induction false} FirstLeast(a: seq<string>, b: seq<string>)
    requires a != [] && b != [] && Ascending(a) && Elements(a) == Elements(b)
    ensures a[0] == b[0] || Less(a[0], b[0])
  {
    assert b[0] in Elements(b);
    assert b[0] in a;
  }

  lemma {:induction false} RestElements(a: seq<string>)
    requires a != [] && Ascending(a)
    ensures Elements(a[1..]) == Elements(a) - {a[0]}
  {
    ElementsTail(a);
    forall name | name in a[1..] ensures name != a[0] {
      var i :| 0 <= i < |a[1..]| && a[1..][i] == name;
      assert Less(a[0], a[i + 1]);
      LessTotal(a[0], a[i + 1]);
    }
  }

  /** However a directory is enumerated, its sorted names are the same. */
  lemma {:induction false} SortCanonical(a: seq<string>, b: seq<string>)
    requires Distinct(a) && Distinct(b) && Elements(a) == Elements(b)
    ensures Sort(a) == Sort(b)
  {
    SortSorted(a);
    SortSorted(b);
    AscendingUnique(Sort(a), Sort(b));
  }
}
