/** Extracting a verified export into a new directory: `write_relative`, `extract_export`. */
module ExportTree {
  import opened Results
  import opened Utf8
  import opened ExportFormat
  import opened ExportFraming
  import opened ExportCodec
  import opened ExportRoundTrip

  type Key = seq<string>

  datatype Content = Content(data: seq<byte>, mode: int)

  /** Where a file system that identifies names through `norm` keeps a path. */
  function KeyOf(norm: string -> string, path: string): (key: Key)
    ensures |key| == |Split(path)| && forall i | 0 <= i < |key| :: key[i] == norm(Split(path)[i])
  {
    seq(|Split(path)|, i requires 0 <= i < |Split(path)| => norm(Split(path)[i]))
  }

  /** The directories above a key, up to the n-th component. */
  function Above(key: Key, n: nat): set<Key>
    requires n <= |key|
  {
    set j | 1 <= j <= n :: key[..j]
  }

  function DirsOf(key: Key): set<Key>
    requires key != []
  {
    Above(key, |key| - 1)
  }

  /** The name lookups of this file system identify no names that folding tells apart. */
  ghost predicate Coarse(t: Tools, norm: string -> string) {
    forall a: string, b: string :: norm(a) == norm(b) ==> Fold(t, a) == Fold(t, b)
  }

  // What an exclusive creation at `key` needs.
  ghost predicate Vacant(files: map<Key, Content>, dirs: set<Key>, key: Key)
    requires key != []
  {
    && key !in files && key !in dirs
    && forall d | d in DirsOf(key) :: d !in files
  }

  class Tree {
    const norm: string -> string
    var files: map<Key, Content>
    var dirs: set<Key>          // the directories below the root

    constructor (norm: string -> string)
      ensures files == map[] && dirs == {} && this.norm == norm && Valid()
    {
      this.norm := norm;
      files, dirs := map[], {};
    }

    ghost predicate Valid() reads this { forall k | k in files :: k !in dirs }

    method WriteRelative(path: string, data: seq<byte>, mode: int) returns (ok: bool)
      requires Valid()
      modifies this
      ensures Valid()
      ensures ok <==> Vacant(old(files), old(dirs), KeyOf(norm, path))
      ensures ok ==>
        var key := KeyOf(norm, path);
        files == old(files)[key := Content(data, mode)] && dirs == old(dirs) + DirsOf(key)
      ensures !ok ==> files == old(files) && old(dirs) <= dirs
    {
      var parts := Split(path);
      var place := Descend(parts, KeyOf(norm, path));
      if place.None? {
        return false;
      }
      var output := place.value + [norm(parts[|parts| - 1])];
      assert output == KeyOf(norm, path);
      if output in files || output in dirs {
        return false;
      }
      files := files[output := Content(data, mode)];
      return true;
    }

    // Opens the directories above the file, making those that are missing.
    method Descend(parts: seq<string>, ghost key: Key) returns (r: Option<Key>)
      requires Valid() && 0 < |parts| == |key| && forall i | 0 <= i < |parts| :: key[i] == norm(parts[i])
      modifies this`dirs
      ensures Valid() && old(dirs) <= dirs
      ensures r.Some? <==> forall d | d in DirsOf(key) :: d !in files
      ensures r.Some? ==> r.value == key[..|key| - 1] && dirs == old(dirs) + DirsOf(key)
    {
      var place: Key := [];
      for i := 0 to |parts| - 1
        invariant place == key[..i]
        invariant Valid() && dirs == old(dirs) + Above(key, i)
        invariant forall d | d in Above(key, i) :: d !in files
      {
        var child := place + [norm(parts[i])];
        assert child == key[..i + 1];
        assert Above(key, i + 1) == Above(key, i) + {child};
        if child !in files && child !in dirs {
          dirs := dirs + {child};          // mkdir
        }
        if child !in dirs {
          assert child in DirsOf(key);
          return None;                     // not a directory
        }
        place := child;
      }
      return Some(place);
    }
  }

  // --- keys clash only if folded paths do ---------------------------------------------

  lemma {:induction false} FoldJoin(t: Tools, a: seq<string>, b: seq<string>)
    requires 0 < |a| == |b| && forall i | 0 <= i < |a| :: Fold(t, a[i]) == Fold(t, b[i])
    ensures Fold(t, Join(a)) == Fold(t, Join(b))
  {
    assert Fold(t, a[0]) == Fold(t, b[0]);
    if |a| > 1 {
      FoldConcat(t, a[0], "/" + Join(a[1..]));
      FoldConcat(t, b[0], "/" + Join(b[1..]));
      FoldConcat(t, "/", Join(a[1..]));
      FoldConcat(t, "/", Join(b[1..]));
      FoldJoin(t, a[1..], b[1..]);
      assert Join(a) == a[0] + ("/" + Join(a[1..])) && Join(b) == b[0] + ("/" + Join(b[1..]));
    }
  }

  lemma {:induction false} JoinSplits(parts: seq<string>, n: nat)
    requires 0 < n < |parts|
    ensures Join(parts) == Join(parts[..n]) + ("/" + Join(parts[n..]))
  {
    if n > 1 {
      JoinSplits(parts[1..], n - 1);
      assert parts[1..][..n - 1] == parts[..n][1..] && parts[1..][n - 1..] == parts[n..];
      var tail := "/" + Join(parts[n..]);
      assert parts[0] + "/" + (Join(parts[1..][..n - 1]) + tail) == parts[0] + "/" + Join(parts[1..][..n - 1]) + tail;
    } else {
      assert parts[..1] == [parts[0]];
    }
  }

  lemma {:induction false} FoldPrefix(t: Tools, q: seq<string>, n: nat)
    requires t.fold('/') == "/" && 0 < n < |q|
    ensures Fold(t, Join(q[..n])) + "/" <= Fold(t, Join(q))
  {
    JoinSplits(q, n);
    FoldConcat(t, Join(q[..n]), "/" + Join(q[n..]));
    FoldConcat(t, "/", Join(q[n..]));
    SlashFold(t);
    assert Fold(t, Join(q)) == Fold(t, Join(q[..n])) + "/" + Fold(t, Join(q[n..]));
  }

  lemma {:induction false} KeysFold(t: Tools, norm: string -> string, a: string, b: string)
    requires Coarse(t, norm) && KeyOf(norm, a) <= KeyOf(norm, b)
    ensures |Split(a)| <= |Split(b)| && Fold(t, a) == Fold(t, Join(Split(b)[..|Split(a)|]))
  {
    var p, q := Split(a), Split(b);
    forall i | 0 <= i < |p| ensures Fold(t, p[i]) == Fold(t, q[..|p|][i]) {
      assert norm(p[i]) == KeyOf(norm, a)[i] == KeyOf(norm, b)[i] == norm(q[i]);
    }
    FoldJoin(t, p, q[..|p|]);
  }

  /** A key that is a directory of another one, or equal to it, has a clashing folded path. */
  lemma {:induction false} KeysClash(t: Tools, norm: string -> string, a: string, b: string)
    requires Coarse(t, norm) && t.fold('/') == "/"
    requires KeyOf(norm, a) <= KeyOf(norm, b)
    ensures Clash(Fold(t, a), Fold(t, b))
  {
    var n, q := |Split(a)|, Split(b);
    KeysFold(t, norm, a, b);
    if n < |q| {
      FoldPrefix(t, q, n);
    } else {
      assert q[..n] == q;
    }
  }

  lemma {:induction false} SlashFold(t: Tools)
    requires t.fold('/') == "/"
    ensures Fold(t, "/") == "/"
  {
    assert Fold(t, "/"[1..]) == "";
  }

  // --- all files ------------------------------------------------------------------------

  datatype Place = Place(key: Key, content: Content)

  function Places(norm: string -> string, files: seq<Entry>, payloads: seq<seq<byte>>): (places: seq<Place>)
    requires |files| == |payloads|
    ensures |places| == |files|
    ensures forall i | 0 <= i < |files| ::
      && places[i].key == KeyOf(norm, files[i].path) != []
      && places[i].content == Content(payloads[i], files[i].mode)
  {
    seq(|files|, i requires 0 <= i < |files| => Place(KeyOf(norm, files[i].path), Content(payloads[i], files[i].mode)))
  }

  // The tree holds exactly the first `n` files, and the directories above them.
  ghost predicate HoldsPlaces(stored: map<Key, Content>, dirs: set<Key>, places: seq<Place>, n: nat)
    requires n <= |places| && forall i | 0 <= i < |places| :: places[i].key != []
  {
    && (forall i | 0 <= i < n :: places[i].key in stored && stored[places[i].key] == places[i].content)
    && (forall k | k in stored :: exists i :: 0 <= i < n && k == places[i].key)
    && (forall i | 0 <= i < n :: DirsOf(places[i].key) <= dirs)
    && (forall d | d in dirs :: exists i :: 0 <= i < n && d in DirsOf(places[i].key))
  }

  ghost predicate Separate(places: seq<Place>) {
    forall i, j | 0 <= i < |places| && 0 <= j < |places| && i != j :: !(places[i].key <= places[j].key)
  }

  lemma {:induction false} PlacesSeparate(t: Tools, norm: string -> string, files: seq<Entry>, payloads: seq<seq<byte>>)
    requires |files| == |payloads| && FilesOk(t, files) && Coarse(t, norm) && t.fold('/') == "/"
    ensures Separate(Places(norm, files, payloads))
  {
    var places := Places(norm, files, payloads);
    forall i, j | 0 <= i < |places| && 0 <= j < |places| && i != j ensures !(places[i].key <= places[j].key) {
      if places[i].key <= places[j].key {
        KeysClash(t, norm, files[i].path, files[j].path);
      }
    }
  }

  lemma {:induction false} DirBelow(key: Key, d: Key)
    requires key != [] && d in DirsOf(key)
    ensures d <= key && d != key
  {
  }

  lemma {:induction false} NextVacant(stored: map<Key, Content>, dirs: set<Key>, places: seq<Place>, n: nat)
    requires n < |places| && Separate(places) && forall i | 0 <= i < |places| :: places[i].key != []
    requires HoldsPlaces(stored, dirs, places, n)
    ensures Vacant(stored, dirs, places[n].key)
  {
    var key := places[n].key;
    forall d | d in DirsOf(key) ensures d !in stored {
      DirBelow(key, d);
    }
    forall i | 0 <= i < n ensures key !in DirsOf(places[i].key) {
      if key in DirsOf(places[i].key) { DirBelow(places[i].key, key); }
    }
  }

  lemma {:induction false} NextHeld(stored: map<Key, Content>, dirs: set<Key>, places: seq<Place>, n: nat)
    requires n < |places| && forall i | 0 <= i < |places| :: places[i].key != []
    requires HoldsPlaces(stored, dirs, places, n) && places[n].key !in stored
    ensures HoldsPlaces(stored[places[n].key := places[n].content], dirs + DirsOf(places[n].key), places, n + 1)
  {
  }

  method WriteAll(tree: Tree, files: seq<Entry>, payloads: seq<seq<byte>>) returns (ok: bool)
    requires |payloads| == |files| && Separate(Places(tree.norm, files, payloads))
    requires tree.Valid() && tree.files == map[] && tree.dirs == {}
    modifies tree
    ensures ok && HoldsPlaces(tree.files, tree.dirs, Places(tree.norm, files, payloads), |files|)
  {
    ghost var places := Places(tree.norm, files, payloads);
    for i := 0 to |files|
      invariant tree.Valid() && HoldsPlaces(tree.files, tree.dirs, places, i)
    {
      NextVacant(tree.files, tree.dirs, places, i);
      NextHeld(tree.files, tree.dirs, places, i);
      var written := tree.WriteRelative(files[i].path, payloads[i], files[i].mode);
      if !written {
        return false;
      }
    }
    return true;
  }

  ghost predicate Permutation(order: seq<nat>, n: nat) {
    && (forall k | 0 <= k < |order| :: order[k] < n)
    && (forall k, l | 0 <= k < l < |order| :: order[k] != order[l])
    && (forall i: nat | i < n :: i in order)
  }

  function Rearranged<T>(s: seq<T>, order: seq<nat>): (r: seq<T>)
    requires forall k | 0 <= k < |order| :: order[k] < |s|
    ensures |r| == |order| && forall k | 0 <= k < |order| :: r[k] == s[order[k]]
  {
    seq(|order|, k requires 0 <= k < |order| => s[order[k]])
  }

  // Whatever one order leaves in the tree, the other one does.
  lemma {:induction false} HeldInBoth(stored: map<Key, Content>, dirs: set<Key>, places: seq<Place>,
                                      stored': map<Key, Content>, dirs': set<Key>, places': seq<Place>)
    requires forall i | 0 <= i < |places| :: places[i].key != [] && places[i] in places'
    requires forall i | 0 <= i < |places'| :: places'[i].key != []
    requires HoldsPlaces(stored, dirs, places, |places|) && HoldsPlaces(stored', dirs', places', |places'|)
    ensures forall k | k in stored :: k in stored' && stored'[k] == stored[k]
    ensures dirs <= dirs'
  {
    forall k | k in stored ensures k in stored' && stored'[k] == stored[k] {
      var i :| 0 <= i < |places| && k == places[i].key;
      var j :| 0 <= j < |places'| && places'[j] == places[i];
    }
    forall d | d in dirs ensures d in dirs' {
      var i :| 0 <= i < |places| && d in DirsOf(places[i].key);
      var j :| 0 <= j < |places'| && places'[j] == places[i];
    }
  }

  lemma {:induction false} SameTree(stored: map<Key, Content>, dirs: set<Key>, places: seq<Place>,
                                    stored': map<Key, Content>, dirs': set<Key>, places': seq<Place>)
    requires forall i | 0 <= i < |places| :: places[i].key != [] && places[i] in places'
    requires forall i | 0 <= i < |places'| :: places'[i].key != [] && places'[i] in places
    requires HoldsPlaces(stored, dirs, places, |places|) && HoldsPlaces(stored', dirs', places', |places'|)
    ensures stored == stored' && dirs == dirs'
  {
    HeldInBoth(stored, dirs, places, stored', dirs', places');
    HeldInBoth(stored', dirs', places', stored, dirs, places);
  }

  /** Whatever the order: a rearranged list of acceptable files is acceptable. */
  lemma {:induction false} AcceptedInAnyOrder(t: Tools, files: seq<Entry>, order: seq<nat>)
    requires FilesOk(t, files) && Permutation(order, |files|)
    ensures FilesOk(t, Rearranged(files, order))
  {
    forall i, j | 0 <= i < j < |order|
      ensures !Clash(Fold(t, files[order[i]].path), Fold(t, files[order[j]].path))
    {
      if order[i] < order[j] {
        assert !Clash(Fold(t, files[order[i]].path), Fold(t, files[order[j]].path));
      } else {
        assert !Clash(Fold(t, files[order[j]].path), Fold(t, files[order[i]].path));
      }
    }
  }

  lemma {:induction false} PlacesRearranged(norm: string -> string, files: seq<Entry>, payloads: seq<seq<byte>>,
                                            order: seq<nat>)
    requires |files| == |payloads| && Permutation(order, |files|)
    ensures Places(norm, Rearranged(files, order), Rearranged(payloads, order))
            == Rearranged(Places(norm, files, payloads), order)
  {
  }

  lemma {:induction false} SameMembers<T>(s: seq<T>, order: seq<nat>)
    requires Permutation(order, |s|)
    ensures forall i | 0 <= i < |s| :: s[i] in Rearranged(s, order)
    ensures forall k | 0 <= k < |order| :: Rearranged(s, order)[k] in s
  {
    forall i: nat | i < |s| ensures s[i] in Rearranged(s, order) {
      assert i in order;
      var k :| 0 <= k < |order| && order[k] == i;
      assert Rearranged(s, order)[k] == s[i];
    }
  }

  /** Extracting rearranged files leaves the same tree. */
  lemma {:induction false} AnyOrder(norm: string -> string, files: seq<Entry>, payloads: seq<seq<byte>>,
                                    order: seq<nat>,
                                    stored: map<Key, Content>, dirs: set<Key>,
                                    stored': map<Key, Content>, dirs': set<Key>)
    requires |files| == |payloads| && Permutation(order, |files|)
    requires HoldsPlaces(stored, dirs, Places(norm, files, payloads), |files|)
    requires HoldsPlaces(stored', dirs', Places(norm, Rearranged(files, order), Rearranged(payloads, order)), |order|)
    ensures stored' == stored && dirs' == dirs
  {
    PlacesRearranged(norm, files, payloads, order);
    var places := Places(norm, files, payloads);
    SameMembers(places, order);
    SameTree(stored, dirs, places, stored', dirs', Rearranged(places, order));
  }

  // The tree holds what these files and payloads say, and the counts are theirs.
  ghost predicate Extracted(tree: Tree, files: seq<Entry>, payloads: seq<seq<byte>>, r: Option<(nat, nat)>) reads tree {
    && |files| == |payloads|
    && HoldsPlaces(tree.files, tree.dirs, Places(tree.norm, files, payloads), |files|)
    && r == Some((|payloads|, Total(payloads, |payloads|)))
  }

  method SumLengths(payloads: seq<seq<byte>>) returns (bytes: nat)
    ensures bytes == Total(payloads, |payloads|)
  {
    bytes := 0;
    for i := 0 to |payloads|
      invariant bytes == Total(payloads, i)
    {
      bytes := bytes + |payloads[i]|;
    }
  }

  method ExtractFiles(t: Tools, files: seq<Entry>, payloads: seq<seq<byte>>, tree: Tree) returns (r: Option<(nat, nat)>)
    requires FilesOk(t, files) && |files| == |payloads| && Coarse(t, tree.norm) && t.fold('/') == "/"
    requires tree.Valid() && tree.files == map[] && tree.dirs == {}
    modifies tree
    ensures Extracted(tree, files, payloads, r)
  {
    PlacesSeparate(t, tree.norm, files, payloads);
    var ok := WriteAll(tree, files, payloads);
    r := None;
    if ok {
      var bytes := SumLengths(payloads);
      r := Some((|payloads|, bytes));
    }
  }

  /** Whatever verification accepts is extracted without a collision, and completely. */
  method ExtractExport(t: Tools, dir: map<string, seq<byte>>, m: Manifest, tree: Tree) returns (r: Option<(nat, nat)>)
    requires ToolsOk(t) && Coarse(t, tree.norm)
    requires tree.Valid() && tree.files == map[] && tree.dirs == {}
    modifies tree
    ensures r.None? ==> tree.files == map[] && tree.dirs == {}
    ensures r.Some? ==> exists chunks, payloads :: Exports(t, dir, m, chunks, payloads)
    ensures forall chunks, payloads | Exports(t, dir, m, chunks, payloads) :: Extracted(tree, m.files, payloads, r)
  {
    var verified := VerifyExport(t, dir, m);
    if verified.None? {
      return None;
    }
    r := ExtractFiles(t, m.files, verified.value.payloads, tree);
  }
}
