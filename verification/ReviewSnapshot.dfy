/** Files copied between two equal manifests all come from the repository of one instant. */
module ReviewSnapshot {
  import opened Results
  import opened Utf8
  import opened ReviewWorld
  import opened ReviewWalk
  import opened ReviewSweep
  import opened ReviewCollect
  import opened ReviewCapture

  // --- names in a listing -----------------------------------------------------------------

  ghost predicate Within(sub: seq<Entry>, all: seq<Entry>) { forall e: Entry :: e in sub ==> e in all }

  // A child of a listed directory is listed, and below it everything it lists.
  ghost predicate Listed(w: World, skip: set<string>, child: nat, path: seq<string>, all: seq<Entry>) {
    && Entry(path, child, w(child).stamp) in all
    && (w(child).kind.Dir? ==>
          && ListFrom(w, skip, child, path, SortedNames(w(child)), 0).Some?
          && Within(ListFrom(w, skip, child, path, SortedNames(w(child)), 0).value, all))
  }

  lemma {:induction false} ListHas(w: World, skip: set<string>, d: nat, prefix: seq<string>, names: seq<string>, i: nat,
                                   j: nat,
                                   all: seq<Entry>)
    requires ListFrom(w, skip, d, prefix, names, i).Some? && Within(ListFrom(w, skip, d, prefix, names, i).value, all)
    requires i <= j < |names| && !(prefix == [] && names[j] in skip)
    ensures w(d).kind.Dir? && LookupItem(w(d).kind.items, names[j]).Some?
    ensures Listed(w, skip, LookupItem(w(d).kind.items, names[j]).value, prefix + [names[j]], all)
    decreases |names| - i
  {
    if prefix == [] && names[i] in skip {
      ListHas(w, skip, d, prefix, names, i + 1, j, all);
    } else {
      ListParts(w, skip, d, prefix, names, i, all);
      if i < j { ListHas(w, skip, d, prefix, names, i + 1, j, all); }
    }
  }

  lemma {:induction false} ListParts(w: World, skip: set<string>, d: nat, prefix: seq<string>, names: seq<string>,
                                     i: nat, all: seq<Entry>)
    requires ListFrom(w, skip, d, prefix, names, i).Some? && Within(ListFrom(w, skip, d, prefix, names, i).value, all)
    requires i < |names| && !(prefix == [] && names[i] in skip)
    ensures w(d).kind.Dir? && LookupItem(w(d).kind.items, names[i]).Some?
    ensures Listed(w, skip, LookupItem(w(d).kind.items, names[i]).value, prefix + [names[i]], all)
    ensures ListFrom(w, skip, d, prefix, names, i + 1).Some?
    ensures Within(ListFrom(w, skip, d, prefix, names, i + 1).value, all)
  {
    var child := LookupItem(w(d).kind.items, names[i]).value;
    var path := prefix + [names[i]];
    var entry := Entry(path, child, w(child).stamp);
    var below := if w(child).kind.Dir? then ListFrom(w, skip, child, path, SortedNames(w(child)), 0) else Some([]);
    var rest := ListFrom(w, skip, d, prefix, names, i + 1);
    var whole := ListFrom(w, skip, d, prefix, names, i).value;
    assert whole == [entry] + (below.value + rest.value);
    assert entry in whole;
    forall e: Entry | e in below.value || e in rest.value ensures e in all { assert e in whole; }
  }

  // --- paths ------------------------------------------------------------------------------

  /** What a path below `d` leads to. */
  ghost function Resolve(w: World, d: nat, parts: seq<string>): Option<nat>
    decreases |parts|
  {
    if parts == [] then Some(d)
    else if !w(d).kind.Dir? then None
    else
      match LookupItem(w(d).kind.items, parts[0])
      case None => None
      case Some(child) => Resolve(w, child, parts[1..])
  }

  // A directory all of whose names are listed.
  ghost predicate Known(w: World, skip: set<string>, d: nat, prefix: seq<string>, all: seq<Entry>) {
    && (exists e: Entry :: e in all && e.ino == d)
    && w(d).kind.Dir? && WellFormed(w(d))
    && ListFrom(w, skip, d, prefix, SortedNames(w(d)), 0).Some?
    && Within(ListFrom(w, skip, d, prefix, SortedNames(w(d)), 0).value, all)
  }

  lemma {:induction false} LookupNamed(items: seq<Item>, name: string)
    requires LookupItem(items, name).Some?
    ensures name in NamesOf(items)
  {
    if items[0].name != name {
      LookupNamed(items[1..], name);
      var i :| 0 <= i < |items[1..]| && NamesOf(items[1..])[i] == name;
      assert NamesOf(items)[i + 1] == name;
    } else {
      assert NamesOf(items)[0] == name;
    }
  }

  lemma {:induction false} KnownChild(w: World, skip: set<string>, d: nat, prefix: seq<string>, name: string,
                                      all: seq<Entry>)
    requires Known(w, skip, d, prefix, all) && LookupItem(w(d).kind.items, name).Some?
    requires !(prefix == [] && name in skip)
    ensures Listed(w, skip, LookupItem(w(d).kind.items, name).value, prefix + [name], all)
  {
    var names := NamesOf(w(d).kind.items);
    LookupNamed(w(d).kind.items, name);
    SortSorted(names);
    assert name in Elements(Sort(names));
    var j :| 0 <= j < |Sort(names)| && Sort(names)[j] == name;
    ListHas(w, skip, d, prefix, SortedNames(w(d)), 0, j, all);
  }

  // --- the quiet interval ------------------------------------------------------------------

  /** Every listed node is, at every tick from `low` to `high`, what it is in `w`. */
  ghost predicate Quiet(h: History, at: Clock, w: World, all: seq<Entry>, low: nat, high: nat) {
    && (forall e: Entry, k: nat | e in all && low <= k <= high :: QuietAt(h, at, w, e.ino, k))
    && (forall e: Entry | e in all :: QuietIn(h, at, w, e.ino, low, high))
  }

  ghost predicate QuietAt(h: History, at: Clock, w: World, i: nat, k: nat) { h(at(k), i) == w(i) }

  ghost predicate QuietIn(h: History, at: Clock, w: World, i: nat, low: nat, high: nat) {
    forall t: nat | at(low) <= t <= at(high) :: h(t, i) == w(i)
  }

  lemma {:induction false} GapQuiet(c: Calls, h: History, at: Clock, skip: set<string>, root: nat, first: nat,
                                    second: nat, t: nat)
    requires CallsOk(c, h, at) && Collected(c, skip, root, first, second)
    requires Between(c, at, skip, root, first, second, t)
    ensures Quiet(h, at, WorldAt(h, t), Manifest(c, skip, root, first), Walk(c, skip, root, first).value.tick, second)
  {
    var seen, low := Walk(c, skip, root, first).value.seen, Walk(c, skip, root, first).value.tick;
    var all := Manifest(c, skip, root, first);
    forall e: Entry | e in all ensures QuietIn(h, at, WorldAt(h, t), e.ino, low, second) {
      var k: nat :| k < |all| && all[k] == e;
      ListedHolds(c, h, at, skip, root, first, second, t, k);
      forall u: nat | at(low) <= u <= at(second) ensures h(u, e.ino) == WorldAt(h, t)(e.ino) {
        ListedHolds(c, h, at, skip, root, first, second, u, k);
        assert AgreesAt(WorldAt(h, u), h, at, seen[k]) && AgreesAt(WorldAt(h, t), h, at, seen[k]);
      }
    }
    forall e: Entry, k: nat | e in all && low <= k <= second ensures QuietAt(h, at, WorldAt(h, t), e.ino, k) {
      ClockGrows(c, h, at, low, k);
      ClockGrows(c, h, at, k, second);
      assert QuietIn(h, at, WorldAt(h, t), e.ino, low, second);
    }
  }

  lemma {:induction false} RootKnown(h: History, skip: set<string>, root: nat, t: nat, all: seq<Entry>)
    requires Listing(WorldAt(h, t), skip, root) == Some(all) && h(t, root).kind.Dir? && WellFormed(h(t, root))
    ensures Known(WorldAt(h, t), skip, root, [], all)
  {
    var w := WorldAt(h, t);
    var rest := ListFrom(w, skip, root, [], SortedNames(w(root)), 0).value;
    assert all == [Entry([], root, w(root).stamp)] + rest;
    assert all[0].ino == root;
  }

  // --- the copy follows the path in the quiet world --------------------------------------------

  lemma {:induction false} PrefixGrows(prefix: seq<string>, parts: seq<string>)
    requires |parts| >= 2
    ensures prefix + [parts[0]] + parts[1..][..|parts| - 2] == prefix + parts[..|parts| - 1]
  {
  }

  lemma {:induction false} DescendKnown(c: Calls, h: History, at: Clock, w: World, skip: set<string>, all: seq<Entry>,
                                        low: nat, high: nat, d: nat, prefix: seq<string>, parts: seq<string>, tick: nat)
    requires CallsOk(c, h, at) && Quiet(h, at, w, all, low, high) && (forall i: nat :: WellFormed(w(i)))
    requires Known(w, skip, d, prefix, all) && parts != [] && !(prefix == [] && parts[0] in skip)
    requires low <= tick && tick + |parts| <= high + 1 && Descend(c, d, parts, tick).Ok?
    ensures
      var last := Descend(c, d, parts, tick).value;
      && Known(w, skip, last, prefix + parts[..|parts| - 1], all)
      && Resolve(w, d, parts) == Resolve(w, last, [parts[|parts| - 1]])
    decreases |parts|
  {
    if |parts| == 1 {
      assert prefix + parts[..0] == prefix && parts == [parts[0]];
    } else {
      var child := c.openDir(tick, d, parts[0]).value;
      OpenKnown(c, h, at, w, skip, all, low, high, d, prefix, parts[0], tick);
      DescendKnown(c, h, at, w, skip, all, low, high, child, prefix + [parts[0]], parts[1..], tick + 1);
      PrefixGrows(prefix, parts);
    }
  }

  lemma {:induction false} OpenKnown(c: Calls, h: History, at: Clock, w: World, skip: set<string>, all: seq<Entry>,
                                     low: nat, high: nat, d: nat, prefix: seq<string>, name: string, tick: nat)
    requires CallsOk(c, h, at) && Quiet(h, at, w, all, low, high) && (forall i: nat :: WellFormed(w(i)))
    requires Known(w, skip, d, prefix, all) && !(prefix == [] && name in skip) && low <= tick <= high
    requires c.openDir(tick, d, name).Some?
    ensures
      var child := c.openDir(tick, d, name).value;
      LookupItem(w(d).kind.items, name) == Some(child) && Known(w, skip, child, prefix + [name], all)
  {
    var child := c.openDir(tick, d, name).value;
    assert OpenOk(c, h, at, tick, d, name);
    var e: Entry :| e in all && e.ino == d;
    assert QuietAt(h, at, w, e.ino, tick);
    KnownChild(w, skip, d, prefix, name, all);
    var entry := Entry(prefix + [name], child, w(child).stamp);
    assert entry in all;
    assert QuietAt(h, at, w, entry.ino, tick);
  }

  // --- the bytes that were read -----------------------------------------------------------------

  // A read of a file that does not change meanwhile returns what is there.
  ghost predicate ReadOk(c: Calls, h: History, at: Clock, k: nat, i: nat, pos: nat, size: nat) {
    h(at(k), i).kind.File? && Constant(h, i, at(k), at(k + 1)) ==>
      var content, chunk := h(at(k), i).kind.content, c.read(k, i, pos, size);
      && |chunk| <= size
      && (pos <= |content| ==> pos + |chunk| <= |content| && chunk == content[pos..pos + |chunk|])
      && (pos < |content| && size > 0 ==> chunk != [])
  }

  ghost predicate ReadsOk(c: Calls, h: History, at: Clock) {
    forall k: nat, i: nat, pos: nat, size: nat :: ReadOk(c, h, at, k, i, pos, size)
  }

  lemma {:induction false} QuietConstant(c: Calls, h: History, at: Clock, w: World, i: nat, low: nat, high: nat, k: nat)
    requires CallsOk(c, h, at) && QuietIn(h, at, w, i, low, high) && low <= k < high
    ensures h(at(k), i) == w(i) && Constant(h, i, at(k), at(k + 1))
  {
    ClockGrows(c, h, at, low, k);
    ClockGrows(c, h, at, k, k + 1);
    ClockGrows(c, h, at, k + 1, high);
    assert h(at(k), i) == w(i);
    forall t: nat | at(k) <= t <= at(k + 1) ensures h(t, i) == h(at(k), i) { assert h(t, i) == w(i); }
  }

  lemma {:induction false} ReadWhole(c: Calls, h: History, at: Clock, w: World, i: nat, low: nat, high: nat,
                                     maximum: nat, content: seq<byte>, remaining: nat, tick: nat)
    requires CallsOk(c, h, at) && ReadsOk(c, h, at) && QuietIn(h, at, w, i, low, high) && low <= tick
    requires w(i).kind.File? && |w(i).kind.content| <= maximum && content <= w(i).kind.content
    requires ReadOn(c, i, maximum, content, remaining, tick).Ok?
    requires ReadOn(c, i, maximum, content, remaining, tick).value.tick <= high
    ensures ReadOn(c, i, maximum, content, remaining, tick).value.content == w(i).kind.content
    decreases if |content| > maximum then 0 else maximum + 1 - |content|
  {
    var size := Least(CHUNK, maximum + 1 - |content|);
    var chunk := c.read(tick + 1, i, |content|, size);
    ReadTick(c, i, maximum, content, remaining, tick);
    QuietConstant(c, h, at, w, i, low, high, tick + 1);
    assert ReadOk(c, h, at, tick + 1, i, |content|, size);
    if chunk != [] {
      assert content + chunk == w(i).kind.content[..|content| + |chunk|];
      ReadWhole(c, h, at, w, i, low, high, maximum, content + chunk, remaining - |chunk|, tick + 3);
    } else {
      assert content == w(i).kind.content;
    }
  }

  lemma {:induction false} ReadTick(c: Calls, i: nat, maximum: nat, content: seq<byte>, remaining: nat, tick: nat)
    requires |content| <= maximum && ReadOn(c, i, maximum, content, remaining, tick).Ok?
    ensures ReadOn(c, i, maximum, content, remaining, tick).value.tick >= tick + 2
    decreases maximum + 1 - |content|
  {
    var chunk := c.read(tick + 1, i, |content|, Least(CHUNK, maximum + 1 - |content|));
    if chunk != [] && |content + chunk| <= maximum {
      ReadTick(c, i, maximum, content + chunk, remaining - |chunk|, tick + 3);
    }
  }

  // --- one captured file -------------------------------------------------------------------------

  // What a successful capture says about the world it was made in.
  ghost predicate Faithful(w: World, root: nat, parts: seq<string>, file: Option<Copy>) {
    match file
    case None => Resolve(w, root, parts) == None
    case Some(copy) =>
      && Resolve(w, root, parts).Some?
      && w(Resolve(w, root, parts).value).kind == File(copy.content, 1, copy.mode)
  }

  lemma {:induction false} ResolveLast(w: World, d: nat, name: string)
    requires w(d).kind.Dir?
    ensures Resolve(w, d, [name]) == LookupItem(w(d).kind.items, name)
  {
    var child := LookupItem(w(d).kind.items, name);
    if child.Some? { assert Resolve(w, child.value, [name][1..]) == child; }
  }

  // The last step: the file is found, opened, read and found again.
  lemma {:induction false} NamedFaithful(c: Calls, h: History, at: Clock, w: World, skip: set<string>, all: seq<Entry>,
                                         low: nat, high: nat, d: nat, prefix: seq<string>, name: string,
                                         allowMissing: bool, maximum: nat, remaining: nat, tick: nat)
    requires CallsOk(c, h, at) && ReadsOk(c, h, at) && Quiet(h, at, w, all, low, high)
    requires Known(w, skip, d, prefix, all) && !(prefix == [] && name in skip) && low <= tick
    requires CopyNamed(c, d, name, allowMissing, maximum, remaining, tick).Ok?
    requires CopyNamed(c, d, name, allowMissing, maximum, remaining, tick).value.tick <= high
    ensures Faithful(w, d, [name], CopyNamed(c, d, name, allowMissing, maximum, remaining, tick).value.file)
  {
    var e: Entry :| e in all && e.ino == d;
    CopyTick(c, d, name, allowMissing, maximum, remaining, tick);
    assert StatOk(c, h, at, tick, d, name);
    assert QuietAt(h, at, w, e.ino, tick);
    ResolveLast(w, d, name);
    if c.stat(tick, d, name).Some? {
      var before := c.stat(tick, d, name).value;
      KnownChild(w, skip, d, prefix, name, all);
      var entry := Entry(prefix + [name], before.ino, w(before.ino).stamp);
      assert entry in all;
      assert QuietAt(h, at, w, entry.ino, tick) && QuietIn(h, at, w, entry.ino, low, high);
      var file := c.openFile(tick + 1, d, name).value;
      assert c.fstat(tick + 2, file) == StatAt(h, at(tick + 2), file);
      ReadWhole(c, h, at, w, file, low, high, maximum, [], remaining, tick + 3);
    }
  }

  lemma {:induction false} CopyTick(c: Calls, d: nat, name: string, allowMissing: bool, maximum: nat, remaining: nat,
                                    tick: nat)
    requires CopyNamed(c, d, name, allowMissing, maximum, remaining, tick).Ok?
    ensures
      var captured := CopyNamed(c, d, name, allowMissing, maximum, remaining, tick).value;
      && tick < captured.tick
      && (c.stat(tick, d, name).Some? ==>
            ReadOn(c, c.openFile(tick + 1, d, name).value, maximum, [], remaining, tick + 3).value.tick < captured.tick)
  {
    if c.stat(tick, d, name).Some? {
      ReadTick(c, c.openFile(tick + 1, d, name).value, maximum, [], remaining, tick + 3);
    }
  }

  // The two parts of a successful capture.
  lemma {:induction false} CaptureParts(c: Calls, h: History, at: Clock, root: nat, parts: seq<string>,
                                        allowMissing: bool, maximum: nat, remaining: nat, tick: nat)
    requires CallsOk(c, h, at) && parts != []
    requires Capture(c, root, parts, allowMissing, maximum, remaining, tick).Ok?
    ensures
      var d := Descend(c, root, parts, tick + 3);
      d.Ok? && CopyNamed(c, d.value, parts[|parts| - 1], allowMissing, maximum, remaining, tick + 2 + |parts|)
        == Capture(c, root, parts, allowMissing, maximum, remaining, tick)
  {
    var reopened := c.openRoot(tick + 1).value;
    assert c.fstat(tick + 2, reopened) == StatAt(h, at(tick + 2), reopened);
  }

  lemma {:induction false} CaptureFaithful(c: Calls, h: History, at: Clock, w: World, skip: set<string>,
                                           all: seq<Entry>,
                                           low: nat, high: nat, root: nat, parts: seq<string>,
                                           allowMissing: bool, maximum: nat, remaining: nat, tick: nat)
    requires CallsOk(c, h, at) && ReadsOk(c, h, at) && Quiet(h, at, w, all, low, high)
    requires (forall i: nat :: WellFormed(w(i)))
    requires Known(w, skip, root, [], all) && parts != [] && parts[0] !in skip && low <= tick
    requires Capture(c, root, parts, allowMissing, maximum, remaining, tick).Ok?
    requires Capture(c, root, parts, allowMissing, maximum, remaining, tick).value.tick <= high
    ensures Faithful(w, root, parts, Capture(c, root, parts, allowMissing, maximum, remaining, tick).value.file)
  {
    CaptureParts(c, h, at, root, parts, allowMissing, maximum, remaining, tick);
    DescentFaithful(c, h, at, w, skip, all, low, high, root, parts, Descend(c, root, parts, tick + 3).value,
                    allowMissing, maximum, remaining, tick,
                    Capture(c, root, parts, allowMissing, maximum, remaining, tick).value);
  }

  lemma {:induction false} DescentFaithful(c: Calls, h: History, at: Clock, w: World, skip: set<string>,
                                           all: seq<Entry>,
                                           low: nat, high: nat, root: nat, parts: seq<string>, d: nat,
                                           allowMissing: bool, maximum: nat, remaining: nat, tick: nat,
                                           copied: Captured)
    requires CallsOk(c, h, at) && ReadsOk(c, h, at) && Quiet(h, at, w, all, low, high)
    requires (forall i: nat :: WellFormed(w(i)))
    requires Known(w, skip, root, [], all) && parts != [] && parts[0] !in skip && low <= tick
    requires Descend(c, root, parts, tick + 3) == Ok(d)
    requires CopyNamed(c, d, parts[|parts| - 1], allowMissing, maximum, remaining, tick + 2 + |parts|) == Ok(copied)
    requires copied.tick <= high
    ensures Faithful(w, root, parts, copied.file)
  {
    var name, prefix, now := parts[|parts| - 1], parts[..|parts| - 1], tick + 2 + |parts|;
    CopyLater(c, d, name, allowMissing, maximum, remaining, now, copied);
    DescentEnds(c, h, at, w, skip, all, low, high, root, parts, d, tick + 3);
    EndFaithful(c, h, at, w, skip, all, low, high, root, parts, d, prefix, name, allowMissing, maximum, remaining, now,
                copied);
  }

  lemma {:induction false} CopyLater(c: Calls, d: nat, name: string, allowMissing: bool, maximum: nat, remaining: nat,
                                     tick: nat, copied: Captured)
    requires CopyNamed(c, d, name, allowMissing, maximum, remaining, tick) == Ok(copied)
    ensures tick < copied.tick
  {
    CopyTick(c, d, name, allowMissing, maximum, remaining, tick);
  }

  lemma {:induction false} EndFaithful(c: Calls, h: History, at: Clock, w: World, skip: set<string>, all: seq<Entry>,
                                       low: nat, high: nat, root: nat, parts: seq<string>, d: nat, prefix: seq<string>,
                                       name: string, allowMissing: bool, maximum: nat, remaining: nat, tick: nat,
                                       copied: Captured)
    requires CallsOk(c, h, at) && ReadsOk(c, h, at) && Quiet(h, at, w, all, low, high)
    requires Known(w, skip, d, prefix, all) && !(prefix == [] && name in skip) && low <= tick
    requires Resolve(w, root, parts) == Resolve(w, d, [name])
    requires CopyNamed(c, d, name, allowMissing, maximum, remaining, tick) == Ok(copied) && copied.tick <= high
    ensures Faithful(w, root, parts, copied.file)
  {
    NamedFaithful(c, h, at, w, skip, all, low, high, d, prefix, name, allowMissing, maximum, remaining, tick);
    FaithfulVia(w, root, parts, d, [name], copied.file);
  }

  // Where the path's directories lead, its last name is looked up.
  lemma {:induction false} DescentEnds(c: Calls, h: History, at: Clock, w: World, skip: set<string>, all: seq<Entry>,
                                       low: nat, high: nat, root: nat, parts: seq<string>, d: nat, tick: nat)
    requires CallsOk(c, h, at) && Quiet(h, at, w, all, low, high) && (forall i: nat :: WellFormed(w(i)))
    requires Known(w, skip, root, [], all) && parts != [] && parts[0] !in skip
    requires low <= tick && tick + |parts| <= high + 1 && Descend(c, root, parts, tick) == Ok(d)
    ensures
      var name, prefix := parts[|parts| - 1], parts[..|parts| - 1];
      && Known(w, skip, d, prefix, all) && !(prefix == [] && name in skip)
      && Resolve(w, root, parts) == Resolve(w, d, [name])
  {
    DescendKnown(c, h, at, w, skip, all, low, high, root, [], parts, tick);
    assert [] + parts[..|parts| - 1] == parts[..|parts| - 1];
    if |parts| > 1 { assert parts[..|parts| - 1][0] == parts[0]; }
  }

  lemma {:induction false} FaithfulVia(w: World, root: nat, parts: seq<string>, d: nat, rest: seq<string>,
                                       file: Option<Copy>)
    requires Resolve(w, root, parts) == Resolve(w, d, rest) && Faithful(w, d, rest, file)
    ensures Faithful(w, root, parts, file)
  {
  }

  /**
   Whatever was copied between two equal manifests, at any two moments, was in the
   repository at one and the same instant, and a file found missing was missing then.
   */
  lemma {:induction false} ConsistentSnapshot(c: Calls, h: History, at: Clock, skip: set<string>, root: nat, first: nat,
                                              second: nat,
                                              t: nat, parts: seq<string>, allowMissing: bool, maximum: nat,
                                              remaining: nat, tick: nat)
    requires CallsOk(c, h, at) && ReadsOk(c, h, at)
    requires Collected(c, skip, root, first, second) && Between(c, at, skip, root, first, second, t)
    requires parts != [] && parts[0] !in skip
    requires Walk(c, skip, root, first).value.tick <= tick
    requires Capture(c, root, parts, allowMissing, maximum, remaining, tick).Ok?
    requires Capture(c, root, parts, allowMissing, maximum, remaining, tick).value.tick <= second
    ensures Faithful(WorldAt(h, t), root, parts,
                     Capture(c, root, parts, allowMissing, maximum, remaining, tick).value.file)
  {
    var w, all := WorldAt(h, t), Manifest(c, skip, root, first);
    GapQuiet(c, h, at, skip, root, first, second, t);
    DoubleCollect(c, h, at, skip, root, first, second, t);
    RootIsDir(c, h, at, skip, root, first, second, t);
    RootKnown(h, skip, root, t, all);
    CaptureFaithful(c, h, at, w, skip, all, Walk(c, skip, root, first).value.tick, second, root, parts,
                    allowMissing, maximum, remaining, tick);
  }

  lemma {:induction false} RootIsDir(c: Calls, h: History, at: Clock, skip: set<string>, root: nat, first: nat,
                                     second: nat, t: nat)
    requires CallsOk(c, h, at) && Collected(c, skip, root, first, second)
    requires Between(c, at, skip, root, first, second, t)
    ensures h(t, root).kind.Dir? && WellFormed(h(t, root))
  {
    WalkParts(c, skip, root, first);
    RootFacts(c, h, at, root, first);
    ListedHolds(c, h, at, skip, root, first, second, t, 0);
    assert AgreesAt(WorldAt(h, t), h, at, Walk(c, skip, root, first).value.seen[0]);
  }

  // --- Git metadata and worktree together ---------------------------------------------------------

  datatype Source = Git | Worktree

  datatype Sources = Sources(entries: seq<(Source, Entry)>, tick: nat)

  function Tagged(source: Source, entries: seq<Entry>): (tagged: seq<(Source, Entry)>)
    ensures |tagged| == |entries| && forall i | 0 <= i < |entries| :: tagged[i] == (source, entries[i])
  {
    seq(|entries|, i requires 0 <= i < |entries| => (source, entries[i]))
  }

  const SKIPPED: set<string> := {".git"}

  /** `_source_manifest`: the Git directory, then, if wanted, the worktree without it. */
  function SourceManifest(c: Calls, gitRoot: nat, root: nat, worktree: bool, tick: nat): Result<Sources, WalkError> {
    match Walk(c, {}, gitRoot, tick)
    case Err(e) => Err(e)
    case Ok(git) =>
      var entries := Tagged(Git, EntriesOf(git.seen));
      if !worktree then Ok(Sources(entries, git.tick))
      else
        match Walk(c, SKIPPED, root, git.tick)
        case Err(e) => Err(e)
        case Ok(tree) => Ok(Sources(entries + Tagged(Worktree, EntriesOf(tree.seen)), tree.tick))
  }

  // Where Git lines end and worktree lines begin is the same in equal lists.
  lemma {:induction false} TagsSeparate(a: seq<Entry>, b: seq<Entry>, x: seq<Entry>, y: seq<Entry>)
    requires Tagged(Git, a) + Tagged(Worktree, b) == Tagged(Git, x) + Tagged(Worktree, y)
    ensures a == x && b == y
  {
    var l, r := Tagged(Git, a) + Tagged(Worktree, b), Tagged(Git, x) + Tagged(Worktree, y);
    assert |a| < |x| ==> |a| < |l| && r[|a|].0 == Git;
    assert |x| < |a| ==> |x| < |r| && l[|x|].0 == Git;
    assert |a| == |x|;
    forall i | 0 <= i < |a| ensures a[i] == x[i] { assert l[i] == r[i]; }
    forall i | 0 <= i < |b| ensures b[i] == y[i] { assert l[|a| + i] == r[|a| + i]; }
  }

  /** Two source manifests, the second one after the first, are equal. */
  ghost predicate SourcesEqual(c: Calls, gitRoot: nat, root: nat, worktree: bool, first: nat, second: nat) {
    var a, b := SourceManifest(c, gitRoot, root, worktree, first), SourceManifest(c, gitRoot, root, worktree, second);
    a.Ok? && b.Ok? && a.value.tick <= second && a.value.entries == b.value.entries
  }

  /** Equal source manifests collect both trees twice, around everything in between. */
  lemma {:induction false} SourcesCollected(c: Calls, h: History, at: Clock, gitRoot: nat, root: nat, worktree: bool,
                                            first: nat, second: nat)
    requires CallsOk(c, h, at) && SourcesEqual(c, gitRoot, root, worktree, first, second)
    ensures Collected(c, {}, gitRoot, first, second)
    ensures Walk(c, {}, gitRoot, first).value.tick <= SourceManifest(c, gitRoot, root, worktree, first).value.tick
    ensures worktree ==>
              var low, high := Walk(c, {}, gitRoot, first).value.tick, Walk(c, {}, gitRoot, second).value.tick;
              && Collected(c, SKIPPED, root, low, high) && second <= high
              && Walk(c, SKIPPED, root, low).value.tick == SourceManifest(c, gitRoot, root, worktree, first).value.tick
  {
    var g1, g2 := Walk(c, {}, gitRoot, first).value, Walk(c, {}, gitRoot, second).value;
    WalkTrue(c, h, at, {}, gitRoot, second);
    if worktree {
      var t1, t2 := Walk(c, SKIPPED, root, g1.tick).value, Walk(c, SKIPPED, root, g2.tick).value;
      TagsSeparate(EntriesOf(g1.seen), EntriesOf(t1.seen), EntriesOf(g2.seen), EntriesOf(t2.seen));
      WalkTrue(c, h, at, SKIPPED, root, g1.tick);
    } else {
      TagsSeparate(EntriesOf(g1.seen), [], EntriesOf(g2.seen), []);
    }
  }

  // A copy made within these ticks holds what the file was at time `t`.
  ghost predicate CaptureTrue(c: Calls, w: World, skip: set<string>, root: nat, low: nat, high: nat,
                              parts: seq<string>, allowMissing: bool, maximum: nat, remaining: nat, tick: nat) {
    && parts != [] && parts[0] !in skip && low <= tick
    && Capture(c, root, parts, allowMissing, maximum, remaining, tick).Ok?
    && Capture(c, root, parts, allowMissing, maximum, remaining, tick).value.tick <= high
    ==> Faithful(w, root, parts, Capture(c, root, parts, allowMissing, maximum, remaining, tick).value.file)
  }

  ghost predicate CapturesTrue(c: Calls, w: World, skip: set<string>, root: nat, low: nat, high: nat) {
    forall parts: seq<string>, allowMissing: bool, maximum: nat, remaining: nat, tick: nat ::
      CaptureTrue(c, w, skip, root, low, high, parts, allowMissing, maximum, remaining, tick)
  }

  // This is the listing of both trees.
  ghost predicate SourceListing(w: World, gitRoot: nat, root: nat, worktree: bool, entries: seq<(Source, Entry)>) {
    var git, tree := Listing(w, {}, gitRoot), if worktree then Listing(w, SKIPPED, root) else Some([]);
    git.Some? && tree.Some? && entries == Tagged(Git, git.value) + Tagged(Worktree, tree.value)
  }

  lemma {:induction false} TreeSnapshot(c: Calls, h: History, at: Clock, skip: set<string>, root: nat,
                                        first: nat, second: nat, t: nat, low: nat, high: nat)
    requires CallsOk(c, h, at) && ReadsOk(c, h, at)
    requires Collected(c, skip, root, first, second) && Between(c, at, skip, root, first, second, t)
    requires Walk(c, skip, root, first).value.tick <= low && high <= second
    ensures CapturesTrue(c, WorldAt(h, t), skip, root, low, high)
  {
    forall parts: seq<string>, allowMissing: bool, maximum: nat, remaining: nat, tick: nat
      ensures CaptureTrue(c, WorldAt(h, t), skip, root, low, high, parts, allowMissing, maximum, remaining, tick)
    {
      if && parts != [] && parts[0] !in skip && low <= tick
         && Capture(c, root, parts, allowMissing, maximum, remaining, tick).Ok?
         && Capture(c, root, parts, allowMissing, maximum, remaining, tick).value.tick <= high
      {
        ConsistentSnapshot(c, h, at, skip, root, first, second, t, parts, allowMissing, maximum, remaining, tick);
      }
    }
  }

  /**
   There are instants between two equal source manifests, and at every one of them at
   once: the manifest was the listing of the Git directory and of the worktree, and
   whatever was copied from either of them between the manifests, in whatever order and
   number, was there with that content and mode, or was missing if it was found missing.
   */
  lemma {:induction false} OneInstant(c: Calls, h: History, at: Clock, gitRoot: nat, root: nat, worktree: bool,
                                      first: nat, second: nat)
    requires CallsOk(c, h, at) && ReadsOk(c, h, at)
    requires SourcesEqual(c, gitRoot, root, worktree, first, second)
    ensures
      var taken := SourceManifest(c, gitRoot, root, worktree, first).value;
      && at(taken.tick) <= at(second)
      && forall t: nat | at(taken.tick) <= t <= at(second) ::
           && SourceListing(WorldAt(h, t), gitRoot, root, worktree, taken.entries)
           && CapturesTrue(c, WorldAt(h, t), {}, gitRoot, taken.tick, second)
           && (worktree ==> CapturesTrue(c, WorldAt(h, t), SKIPPED, root, taken.tick, second))
  {
    var taken := SourceManifest(c, gitRoot, root, worktree, first).value;
    SourcesCollected(c, h, at, gitRoot, root, worktree, first, second);
    ClockGrows(c, h, at, taken.tick, second);
    forall t: nat | at(taken.tick) <= t <= at(second)
      ensures SourceListing(WorldAt(h, t), gitRoot, root, worktree, taken.entries)
      ensures CapturesTrue(c, WorldAt(h, t), {}, gitRoot, taken.tick, second)
      ensures worktree ==> CapturesTrue(c, WorldAt(h, t), SKIPPED, root, taken.tick, second)
    {
      InstantHolds(c, h, at, gitRoot, root, worktree, first, second, t);
    }
  }

  lemma {:induction false} InstantHolds(c: Calls, h: History, at: Clock, gitRoot: nat, root: nat, worktree: bool,
                                        first: nat, second: nat, t: nat)
    requires CallsOk(c, h, at) && ReadsOk(c, h, at)
    requires SourcesEqual(c, gitRoot, root, worktree, first, second)
    requires at(SourceManifest(c, gitRoot, root, worktree, first).value.tick) <= t <= at(second)
    ensures
      var taken := SourceManifest(c, gitRoot, root, worktree, first).value;
      && SourceListing(WorldAt(h, t), gitRoot, root, worktree, taken.entries)
      && CapturesTrue(c, WorldAt(h, t), {}, gitRoot, taken.tick, second)
      && (worktree ==> CapturesTrue(c, WorldAt(h, t), SKIPPED, root, taken.tick, second))
  {
    var taken := SourceManifest(c, gitRoot, root, worktree, first).value;
    var low, high := Walk(c, {}, gitRoot, first).value.tick, Walk(c, {}, gitRoot, second).value.tick;
    SourcesCollected(c, h, at, gitRoot, root, worktree, first, second);
    ClockGrows(c, h, at, low, taken.tick);
    DoubleCollect(c, h, at, {}, gitRoot, first, second, t);
    TreeSnapshot(c, h, at, {}, gitRoot, first, second, t, taken.tick, second);
    if worktree {
      ClockGrows(c, h, at, second, high);
      DoubleCollect(c, h, at, SKIPPED, root, low, high, t);
      TreeSnapshot(c, h, at, SKIPPED, root, low, high, t, taken.tick, second);
    }
  }

  // --- the assumptions can be met -----------------------------------------------------------------

  lemma {:induction false} StillWalk(skip: set<string>, tick: nat)
    ensures Walk(StillCalls(), skip, 0, tick) == Ok(Walked([Sighting(Entry([], 0, 0), tick + 2)], tick + 9))
  {
    var c := StillCalls();
    assert NamesIn(c, 0, tick + 3, 1) == Ok(Named([], tick + 4));
    var f := Frame(0, 0, [], [], None);
    assert OpenRoot(c, 0, tick) == Ok(Entered(Sighting(Entry([], 0, 0), tick + 2), Some(f), tick + 4));
    assert WalkFrom(c, skip, f, 0, tick + 4, 1) == Ok(Walked([], tick + 6));
    assert Finish(c, f, tick + 6) == Ok(tick + 9);
    assert [Sighting(Entry([], 0, 0), tick + 2)] + [] == [Sighting(Entry([], 0, 0), tick + 2)];
  }

  lemma {:induction false} StillManifest(worktree: bool, tick: nat)
    ensures
      var one := [Entry([], 0, 0)];
      SourceManifest(StillCalls(), 0, 0, worktree, tick) ==
        if worktree then Ok(Sources(Tagged(Git, one) + Tagged(Worktree, one), tick + 18))
        else Ok(Sources(Tagged(Git, one), tick + 9))
  {
    StillWalk({}, tick);
    StillWalk(SKIPPED, tick + 9);
    assert EntriesOf([Sighting(Entry([], 0, 0), tick + 2)]) == [Entry([], 0, 0)];
    assert EntriesOf([Sighting(Entry([], 0, 0), tick + 11)]) == [Entry([], 0, 0)];
  }

  /** A repository in which nothing happens gives equal source manifests. */
  lemma {:induction false} StillSources(worktree: bool)
    ensures CallsOk(StillCalls(), (t: nat, i: nat) => StillNode(), (k: nat) => k)
    ensures ReadsOk(StillCalls(), (t: nat, i: nat) => StillNode(), (k: nat) => k)
    ensures SourcesEqual(StillCalls(), 0, 0, worktree, 0, 100)
  {
    StillRepository();
    StillManifest(worktree, 0);
    StillManifest(worktree, 100);
  }
}
