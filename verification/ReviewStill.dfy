/** In a repository that stays as it is, walks and copies succeed, and find what is there. */
module ReviewStill {
  import opened Results
  import opened Utf8
  import opened Strings
  import opened ReviewWorld
  import opened ReviewWalk
  import opened ReviewSweep
  import opened ReviewCapture
  import opened ReviewSnapshot

  // --- calls that answer from one world -----------------------------------------------

  function StatIn(w: World, i: nat): Stat { Stat(i, w(i).stamp, ShapeOf(w(i).kind)) }

  /** What a name of a directory leads to. */
  function Child(w: World, d: nat, name: string): Option<nat> {
    if w(d).kind.Dir? then LookupItem(w(d).kind.items, name) else None
  }

  ghost predicate Named(c: Calls, w: World, k: nat, d: nat, name: string) {
    match Child(w, d, name)
    case None =>
      && c.stat(k, d, name) == None && c.openDir(k, d, name) == None && c.openFile(k, d, name) == None
      && (c.missing(k, d, name) <==> w(d).kind.Dir?)
    case Some(i) =>
      && c.stat(k, d, name) == Some(StatIn(w, i))
      && c.openDir(k, d, name) == (if w(i).kind.Dir? then Some(i) else None)
      && c.openFile(k, d, name) == (if w(i).kind.File? then Some(i) else None)
  }

  // A directory is enumerated completely, in any order.
  ghost predicate Scanned(c: Calls, w: World, k: nat, d: nat) {
    w(d).kind.Dir? ==>
      && c.scan(k, d).Some? && Distinct(c.scan(k, d).value)
      && Elements(c.scan(k, d).value) == Elements(NamesOf(w(d).kind.items))
  }

  // A read returns some of what is there, and nothing only at the end.
  ghost predicate Filled(c: Calls, w: World, k: nat, i: nat, pos: nat, size: nat) {
    w(i).kind.File? && size > 0 && pos <= |w(i).kind.content| ==>
      var content, chunk := w(i).kind.content, c.read(k, i, pos, size);
      && |chunk| <= size && pos + |chunk| <= |content| && chunk == content[pos..pos + |chunk|]
      && (chunk == [] ==> pos == |content|)
  }

  /** Nothing fails, nothing changes, and no deadline passes. */
  ghost predicate Answers(c: Calls, w: World, root: nat) {
    && (forall i: nat :: WellFormed(w(i)))
    && (forall k: nat :: c.openRoot(k) == Some(root) && c.lstatRoot(k) == Some(StatIn(w, root)) && !c.expired(k))
    && (forall k: nat, i: nat :: c.fstat(k, i) == StatIn(w, i))
    && (forall k: nat, d: nat, name: string :: Named(c, w, k, d, name))
    && (forall k: nat, d: nat :: Scanned(c, w, k, d))
    && (forall k: nat, i: nat, pos: nat, size: nat :: Filled(c, w, k, i, pos, size))
  }

  // --- enumerating one directory -----------------------------------------------------------

  lemma {:induction false} CountOk(c: Calls, w: World, root: nat, names: nat, i: nat, tick: nat, count: nat)
    requires Answers(c, w, root) && i <= names
    ensures CountNames(c, names, i, tick, count) ==
              if i < names && count + names > MAX_ENTRIES then Err(EntryLimit) else Ok(tick + (names - i))
    decreases names - i
  {
    if i < names { CountOk(c, w, root, names, i + 1, tick + 1, count); }
  }

  lemma {:induction false} NamesOk(c: Calls, w: World, root: nat, d: nat, tick: nat, count: nat)
    requires Answers(c, w, root) && w(d).kind.Dir?
    ensures
      var n := |NamesOf(w(d).kind.items)|;
      var r := NamesIn(c, d, tick, count);
      if n > 0 && count + n > MAX_ENTRIES then r == Err(EntryLimit)
      else r.Ok? && r.value.names == SortedNames(w(d))
  {
    assert Scanned(c, w, tick, d) && WellFormed(w(d));
    var names, there := c.scan(tick, d).value, NamesOf(w(d).kind.items);
    SortCanonical(names, there);
    SortSorted(names);
    SortSorted(there);
    CountOk(c, w, root, |names|, 0, tick + 1, count);
  }

  // --- below a directory ------------------------------------------------------------------------

  // The frame of a directory in the world, as the walk holds it.
  ghost predicate Framed(w: World, f: Frame) {
    && w(f.ino).kind.Dir? && f.names == SortedNames(w(f.ino)) && f.stamp == w(f.ino).stamp
    && (f.place.Some? ==> Child(w, f.place.value.parent, f.place.value.name) == Some(f.ino))
  }

  lemma {:induction false} LeaveOk(c: Calls, w: World, root: nat, f: Frame, tick: nat)
    requires Answers(c, w, root) && Framed(w, f)
    ensures Leave(c, f, tick).Ok?
  {
    assert c.fstat(tick, f.ino) == StatIn(w, f.ino);
    if f.place.Some? { assert Named(c, w, tick + 1, f.place.value.parent, f.place.value.name); }
  }

  // How many entries a directory has at least.
  lemma {:induction false} ListLong(w: World, skip: set<string>, d: nat, prefix: seq<string>, names: seq<string>,
                                    i: nat)
    requires prefix != [] && i <= |names| && ListFrom(w, skip, d, prefix, names, i).Some?
    ensures |ListFrom(w, skip, d, prefix, names, i).value| >= |names| - i
    decreases |names| - i
  {
    if i < |names| { ListLong(w, skip, d, prefix, names, i + 1); }
  }

  lemma {:induction false} SortLong(w: World, d: nat)
    requires w(d).kind.Dir? && WellFormed(w(d))
    ensures |SortedNames(w(d))| == |NamesOf(w(d).kind.items)|
  {
    SortSorted(NamesOf(w(d).kind.items));
  }

  // All of these names are in the directory.
  lemma {:induction false} NameThere(w: World, d: nat, i: nat)
    requires w(d).kind.Dir? && WellFormed(w(d)) && i < |SortedNames(w(d))|
    ensures Child(w, d, SortedNames(w(d))[i]).Some?
  {
    var names := NamesOf(w(d).kind.items);
    SortSorted(names);
    assert SortedNames(w(d))[i] in Elements(names);
    var k :| 0 <= k < |names| && names[k] == SortedNames(w(d))[i];
    NamedItem(w(d).kind.items, k);
  }

  lemma {:induction false} NamedItem(items: seq<Item>, k: nat)
    requires k < |items|
    ensures LookupItem(items, items[k].name).Some?
  {
    if items[0].name != items[k].name { NamedItem(items[1..], k - 1); }
  }

  /** Within the limit on entries, counting those before. */
  ghost predicate Fits(list: Option<seq<Entry>>, count: nat) { list.Some? && count + |list.value| <= MAX_ENTRIES }

  ghost predicate Finds(r: Result<Walked, WalkError>, list: Option<seq<Entry>>, count: nat) {
    && (r.Ok? <==> Fits(list, count)) && (r.Ok? ==> EntriesOf(r.value.seen) == list.value)
    && (r.Err? ==> r.error == EntryLimit || (r.error == DepthLimit && list.None?))
  }

  // Entering a name: the entry, and for a directory its frame.
  lemma {:induction false} EnterOk(c: Calls, w: World, root: nat, f: Frame, i: nat, tick: nat, count: nat)
    requires Answers(c, w, root) && Framed(w, f) && i < |f.names|
    ensures
      var child := Child(w, f.ino, f.names[i]);
      && child.Some?
      && var path, d := f.prefix + [f.names[i]], child.value;
      && var n := if w(d).kind.Dir? then |SortedNames(w(d))| else 0;
      && var r := Enter(c, f, f.names[i], tick, count);
      && (r.Ok? <==> count < MAX_ENTRIES && |path| <= MAX_DEPTH && (n > 0 ==> count + 1 + n <= MAX_ENTRIES))
      && (r.Err? ==> r.error == if count < MAX_ENTRIES && |path| > MAX_DEPTH then DepthLimit else EntryLimit)
      && (r.Ok? ==>
            && r.value.sighting.entry == Entry(path, d, w(d).stamp)
            && r.value.child == (if w(d).kind.Dir? then
                                   Some(Frame(d, w(d).stamp, path, SortedNames(w(d)), Some(Place(f.ino, f.names[i]))))
                                 else None))
  {
    NameThere(w, f.ino, i);
    var d := Child(w, f.ino, f.names[i]).value;
    assert Named(c, w, tick, f.ino, f.names[i]) && Named(c, w, tick + 1, f.ino, f.names[i]);
    assert c.fstat(tick + 2, d) == StatIn(w, d);
    if w(d).kind.Dir? {
      NamesOk(c, w, root, d, tick + 3, count + 1);
      SortLong(w, d);
    }
  }

  // A name that cannot be entered makes the whole listing too long or too deep.
  lemma {:induction false} TooMuch(w: World, skip: set<string>, f: Frame, i: nat, count: nat)
    requires Framed(w, f) && (forall d: nat :: WellFormed(w(d))) && i < |f.names|
    requires !(f.prefix == [] && f.names[i] in skip)
    requires
      var child := Child(w, f.ino, f.names[i]);
      && child.Some?
      && var n := if w(child.value).kind.Dir? then |SortedNames(w(child.value))| else 0;
      !(count < MAX_ENTRIES && |f.prefix| + 1 <= MAX_DEPTH && (n > 0 ==> count + 1 + n <= MAX_ENTRIES))
    ensures !Fits(ListFrom(w, skip, f.ino, f.prefix, f.names, i), count)
  {
    var list := ListFrom(w, skip, f.ino, f.prefix, f.names, i);
    var d := Child(w, f.ino, f.names[i]).value;
    if list.Some? && w(d).kind.Dir? {
      ListLong(w, skip, d, f.prefix + [f.names[i]], SortedNames(w(d)), 0);
    }
  }

  lemma {:induction false} FoundLeaf(s: Sighting, rest: Result<Walked, WalkError>, list: Option<seq<Entry>>, count: nat)
    requires Finds(rest, list, count + 1)
    ensures Finds(Before([s], rest), Joined(Some([s.entry]), Joined(Some([]), list)), count)
  {
    if rest.Ok? { EntriesJoin([s], rest.value.seen); }
    if list.Some? { assert [s.entry] + ([] + list.value) == [s.entry] + list.value; }
    assert EntriesOf([s]) == [s.entry];
  }

  lemma {:induction false} FoundDir(s: Sighting, below: seq<Sighting>, rest: Result<Walked, WalkError>,
                                    list: Option<seq<Entry>>, count: nat)
    requires Finds(rest, list, count + 1 + |below|)
    ensures Finds(Before([s] + below, rest), Joined(Some([s.entry]), Joined(Some(EntriesOf(below)), list)), count)
  {
    EntriesJoin([s], below);
    if rest.Ok? { EntriesJoin([s] + below, rest.value.seen); }
    assert EntriesOf([s]) == [s.entry];
    if list.Some? { assert [s.entry] + (EntriesOf(below) + list.value) == [s.entry] + EntriesOf(below) + list.value; }
  }

  // A name that is neither skipped nor refused.
  ghost predicate Enters(c: Calls, w: World, skip: set<string>, f: Frame, i: nat, tick: nat, count: nat) {
    && i < |f.names| && !(f.prefix == [] && f.names[i] in skip) && !c.expired(tick)
    && Enter(c, f, f.names[i], tick + 1, count).Ok? && |f.prefix| + 1 <= MAX_DEPTH
    && Child(w, f.ino, f.names[i]).Some?
    && var d, r := Child(w, f.ino, f.names[i]).value, Enter(c, f, f.names[i], tick + 1, count).value;
    && r.sighting.entry == Entry(f.prefix + [f.names[i]], d, w(d).stamp)
    && (r.child.Some? <==> w(d).kind.Dir?)
    && (r.child.Some? ==>
          var g := r.child.value;
          g.ino == d && g.prefix == f.prefix + [f.names[i]] && g.names == SortedNames(w(d)))
  }

  // The listing from that name on.
  lemma {:induction false} ListNext(w: World, skip: set<string>, f: Frame, i: nat)
    requires i < |f.names| && !(f.prefix == [] && f.names[i] in skip) && |f.prefix| + 1 <= MAX_DEPTH
    requires w(f.ino).kind.Dir? && Child(w, f.ino, f.names[i]).Some?
    ensures
      var d, path := Child(w, f.ino, f.names[i]).value, f.prefix + [f.names[i]];
      ListFrom(w, skip, f.ino, f.prefix, f.names, i) ==
        Joined(Some([Entry(path, d, w(d).stamp)]),
               Joined(if w(d).kind.Dir? then ListFrom(w, skip, d, path, SortedNames(w(d)), 0) else Some([]),
                      ListFrom(w, skip, f.ino, f.prefix, f.names, i + 1)))
  {
  }

  // The walk below a directory, and behind it.
  ghost function WalkBoth(c: Calls, skip: set<string>, f: Frame, i: nat, count: nat, e: Entered)
    : Result<Walked, WalkError>
    requires e.child.Some?
  {
    var below := WalkFrom(c, skip, e.child.value, 0, e.tick, count + 1);
    if below.Err? then below
    else Before([e.sighting] + below.value.seen,
                WalkFrom(c, skip, f, i + 1, below.value.tick, count + 1 + |below.value.seen|))
  }

  // The listing of both.
  ghost function ListBoth(w: World, skip: set<string>, f: Frame, i: nat, e: Entered): Option<seq<Entry>>
    requires e.child.Some?
  {
    var g := e.child.value;
    Joined(Some([e.sighting.entry]),
           Joined(ListFrom(w, skip, g.ino, g.prefix, g.names, 0),
                  ListFrom(w, skip, f.ino, f.prefix, f.names, i + 1)))
  }

  // The walk from that name on.
  lemma {:induction false} WalkNext(c: Calls, skip: set<string>, f: Frame, i: nat, tick: nat, count: nat, e: Entered)
    requires i < |f.names| && !(f.prefix == [] && f.names[i] in skip) && !c.expired(tick)
    requires Enter(c, f, f.names[i], tick + 1, count) == Ok(e)
    ensures e.child.None? ==>
              WalkFrom(c, skip, f, i, tick, count) ==
                Before([e.sighting], WalkFrom(c, skip, f, i + 1, e.tick, count + 1))
    ensures e.child.Some? ==> WalkFrom(c, skip, f, i, tick, count) == WalkBoth(c, skip, f, i, count, e)
  {
  }

  // The walk from a name on finds exactly the listing from it on.
  ghost predicate WalkFinds(c: Calls, w: World, skip: set<string>, f: Frame, i: nat, tick: nat, count: nat) {
    Finds(WalkFrom(c, skip, f, i, tick, count), ListFrom(w, skip, f.ino, f.prefix, f.names, i), count)
  }

  // The walk behind the directory `g` finds the listing behind its name.
  ghost predicate FindsBehind(c: Calls, w: World, skip: set<string>, f: Frame, i: nat, count: nat, g: Frame, tick: nat)
  {
    var below := WalkFrom(c, skip, g, 0, tick, count + 1);
    below.Ok? ==> WalkFinds(c, w, skip, f, i + 1, below.value.tick, count + 1 + |below.value.seen|)
  }

  lemma {:induction false} LeafFound(c: Calls, w: World, skip: set<string>, f: Frame, i: nat, tick: nat, count: nat,
                                     e: Entered)
    requires Enters(c, w, skip, f, i, tick, count) && w(f.ino).kind.Dir?
    requires Enter(c, f, f.names[i], tick + 1, count) == Ok(e) && e.child.None?
    requires WalkFinds(c, w, skip, f, i + 1, e.tick, count + 1)
    ensures WalkFinds(c, w, skip, f, i, tick, count)
  {
    WalkNext(c, skip, f, i, tick, count, e);
    ListNext(w, skip, f, i);
    FoundLeaf(e.sighting, WalkFrom(c, skip, f, i + 1, e.tick, count + 1),
              ListFrom(w, skip, f.ino, f.prefix, f.names, i + 1), count);
  }

  // From the walk below a directory and the walk behind it.
  lemma {:induction false} FoundBoth(s: Sighting, below: Result<Walked, WalkError>, rest: Result<Walked, WalkError>,
                                     lower: Option<seq<Entry>>, list: Option<seq<Entry>>, count: nat)
    requires Finds(below, lower, count + 1)
    requires below.Ok? ==> Finds(rest, list, count + 1 + |below.value.seen|)
    ensures Finds(if below.Err? then below else Before([s] + below.value.seen, rest),
                  Joined(Some([s.entry]), Joined(lower, list)), count)
  {
    if below.Ok? { FoundDir(s, below.value.seen, rest, list, count); }
  }

  lemma {:induction false} BothFound(c: Calls, w: World, skip: set<string>, f: Frame, i: nat, count: nat, e: Entered)
    requires e.child.Some? && WalkFinds(c, w, skip, e.child.value, 0, e.tick, count + 1)
    requires FindsBehind(c, w, skip, f, i, count, e.child.value, e.tick)
    ensures Finds(WalkBoth(c, skip, f, i, count, e), ListBoth(w, skip, f, i, e), count)
  {
    var g := e.child.value;
    var below := WalkFrom(c, skip, g, 0, e.tick, count + 1);
    var rest := if below.Err? then below
                else WalkFrom(c, skip, f, i + 1, below.value.tick, count + 1 + |below.value.seen|);
    FoundBoth(e.sighting, below, rest, ListFrom(w, skip, g.ino, g.prefix, g.names, 0),
              ListFrom(w, skip, f.ino, f.prefix, f.names, i + 1), count);
  }

  lemma {:induction false} DirFound(c: Calls, w: World, skip: set<string>, f: Frame, i: nat, tick: nat, count: nat,
                                    e: Entered)
    requires Enters(c, w, skip, f, i, tick, count) && w(f.ino).kind.Dir?
    requires Enter(c, f, f.names[i], tick + 1, count) == Ok(e) && e.child.Some?
    requires Finds(WalkBoth(c, skip, f, i, count, e), ListBoth(w, skip, f, i, e), count)
    ensures WalkFinds(c, w, skip, f, i, tick, count)
  {
    WalkNext(c, skip, f, i, tick, count, e);
    ListNext(w, skip, f, i);
  }

  // The walk from one name on finds exactly the listing from that name on.
  lemma {:induction false} WalkFound(c: Calls, w: World, root: nat, skip: set<string>, f: Frame, i: nat, tick: nat,
                                     count: nat)
    requires Answers(c, w, root) && Framed(w, f) && i <= |f.names| && count <= MAX_ENTRIES
    ensures WalkFinds(c, w, skip, f, i, tick, count)
    decreases Room(f), |f.names| - i
  {
    if i == |f.names| {
      LeaveOk(c, w, root, f, tick + 1);
    } else if f.prefix == [] && f.names[i] in skip {
      WalkFound(c, w, root, skip, f, i + 1, tick + 1, count);
    } else {
      EnterOk(c, w, root, f, i, tick + 1, count);
      var r := Enter(c, f, f.names[i], tick + 1, count);
      if r.Err? {
        TooMuch(w, skip, f, i, count);
        WalkRefused(c, skip, f, i, tick, count);
        TooDeep(w, skip, f, i);
      } else if r.value.child.None? {
        WalkFound(c, w, root, skip, f, i + 1, r.value.tick, count + 1);
        LeafFound(c, w, skip, f, i, tick, count, r.value);
      } else {
        DirWalked(c, w, root, skip, f, i, tick, count);
      }
    }
  }

  lemma {:induction false} WalkRefused(c: Calls, skip: set<string>, f: Frame, i: nat, tick: nat, count: nat)
    requires i < |f.names| && !(f.prefix == [] && f.names[i] in skip)
    requires Enter(c, f, f.names[i], tick + 1, count).Err?
    ensures WalkFrom(c, skip, f, i, tick, count) ==
              if c.expired(tick) then Err(TimedOut) else Err(Enter(c, f, f.names[i], tick + 1, count).error)
  {
  }

  lemma {:induction false} TooDeep(w: World, skip: set<string>, f: Frame, i: nat)
    requires i < |f.names| && !(f.prefix == [] && f.names[i] in skip)
    ensures |f.prefix| + 1 > MAX_DEPTH ==> ListFrom(w, skip, f.ino, f.prefix, f.names, i).None?
  {
  }

  lemma {:induction false} FoundFits(c: Calls, w: World, skip: set<string>, f: Frame, tick: nat, count: nat,
                                     below: Walked)
    requires WalkFinds(c, w, skip, f, 0, tick, count) && WalkFrom(c, skip, f, 0, tick, count) == Ok(below)
    ensures count + |below.seen| <= MAX_ENTRIES
  {
  }

  lemma {:induction false} DirWalked(c: Calls, w: World, root: nat, skip: set<string>, f: Frame, i: nat, tick: nat,
                                     count: nat)
    requires Answers(c, w, root) && Framed(w, f) && i < |f.names| && count < MAX_ENTRIES
    requires Enters(c, w, skip, f, i, tick, count)
    requires var r := Enter(c, f, f.names[i], tick + 1, count).value;
             r.child.Some? && Framed(w, r.child.value)
    ensures WalkFinds(c, w, skip, f, i, tick, count)
    decreases Room(f), |f.names| - i, 1
  {
    var e := Enter(c, f, f.names[i], tick + 1, count).value;
    WalkFound(c, w, root, skip, e.child.value, 0, e.tick, count + 1);
    BehindWalked(c, w, root, skip, f, i, count, e.child.value, e.tick);
    BothFound(c, w, skip, f, i, count, e);
    DirFound(c, w, skip, f, i, tick, count, e);
  }

  // The names behind a directory, once it has been walked.
  lemma {:induction false} BehindWalked(c: Calls, w: World, root: nat, skip: set<string>, f: Frame, i: nat, count: nat,
                                        g: Frame, tick: nat)
    requires Answers(c, w, root) && Framed(w, f) && i < |f.names|
    requires WalkFinds(c, w, skip, g, 0, tick, count + 1)
    ensures FindsBehind(c, w, skip, f, i, count, g, tick)
    decreases Room(f), |f.names| - i, 0
  {
    var below := WalkFrom(c, skip, g, 0, tick, count + 1);
    if below.Ok? {
      FoundFits(c, w, skip, g, tick, count + 1, below.value);
      WalkFound(c, w, root, skip, f, i + 1, below.value.tick, count + 1 + |below.value.seen|);
    }
  }

  /**
   In a repository that stays as it is the walk succeeds exactly within the limits on
   depth and entries, also those of the skipped names at the top, and finds the listing.
   */
  lemma {:induction false} StillListing(c: Calls, w: World, root: nat, skip: set<string>, tick: nat)
    requires Answers(c, w, root) && w(root).kind.Dir?
    ensures
      var r, list := Walk(c, skip, root, tick), Listing(w, skip, root);
      && (r.Ok? <==> Fits(list, 0) && 1 + |w(root).kind.items| <= MAX_ENTRIES)
      && (r.Ok? ==> EntriesOf(r.value.seen) == list.value)
      && (r.Err? ==> r.error == EntryLimit || (r.error == DepthLimit && list.None?))
  {
    assert c.openRoot(tick) == Some(root) && !c.expired(tick + 1) && c.fstat(tick + 2, root) == StatIn(w, root);
    NamesOk(c, w, root, root, tick + 3, 1);
    var start := OpenRoot(c, root, tick);
    if start.Ok? {
      var f := start.value.child.value;
      assert Framed(w, f) && f.prefix == [];
      WalkFound(c, w, root, skip, f, 0, start.value.tick, 1);
      var below := WalkFrom(c, skip, f, 0, start.value.tick, 1);
      if below.Ok? {
        FinishOk(c, w, root, f, below.value.tick);
        EntriesJoin([start.value.sighting], below.value.seen);
        assert EntriesOf([start.value.sighting]) == [Entry([], root, w(root).stamp)];
      }
    }
  }

  lemma {:induction false} FinishOk(c: Calls, w: World, root: nat, f: Frame, tick: nat)
    requires Answers(c, w, root) && f.ino == root && f.stamp == w(root).stamp
    ensures Finish(c, f, tick) == Ok(tick + 3)
  {
    assert c.fstat(tick + 1, root) == StatIn(w, root);
    assert c.lstatRoot(tick + 2) == Some(StatIn(w, root)) && !c.expired(tick);
  }

  // --- copying one file -----------------------------------------------------------------------------

  /** The directory in which the last name of a path is looked up. */
  function Holder(w: World, d: nat, parts: seq<string>): Option<nat>
    requires parts != []
    decreases |parts|
  {
    if |parts| == 1 then Some(d)
    else
      match Child(w, d, parts[0])
      case None => None
      case Some(child) => if w(child).kind.Dir? then Holder(w, child, parts[1..]) else None
  }

  /** A path leads to what its last name does in that directory. */
  lemma {:induction false} ResolveHolder(w: World, d: nat, parts: seq<string>)
    requires parts != [] && w(d).kind.Dir?
    ensures
      var holder := Holder(w, d, parts);
      && (holder.Some? ==> w(holder.value).kind.Dir?)
      && Resolve(w, d, parts) == if holder.None? then None else Child(w, holder.value, parts[|parts| - 1])
    decreases |parts|
  {
    var child := Child(w, d, parts[0]);
    if |parts| == 1 {
      assert parts == [parts[0]];
      ResolveLast(w, d, parts[0]);
    } else if child.Some? {
      if w(child.value).kind.Dir? { ResolveHolder(w, child.value, parts[1..]); }
    }
  }

  lemma {:induction false} DescendStill(c: Calls, w: World, root: nat, d: nat, parts: seq<string>, tick: nat)
    requires Answers(c, w, root) && parts != []
    ensures
      var holder := Holder(w, d, parts);
      Descend(c, d, parts, tick) == if holder.Some? then Ok(holder.value) else Err(PathUnsafe)
    decreases |parts|
  {
    if |parts| > 1 {
      assert Named(c, w, tick, d, parts[0]);
      var child := Child(w, d, parts[0]);
      if child.Some? && w(child.value).kind.Dir? { DescendStill(c, w, root, child.value, parts[1..], tick + 1); }
    }
  }

  lemma {:induction false} ReadStill(c: Calls, w: World, root: nat, i: nat, maximum: nat, content: seq<byte>,
                                     remaining: nat, tick: nat)
    requires Answers(c, w, root) && w(i).kind.File? && content <= w(i).kind.content && |w(i).kind.content| <= maximum
    requires |w(i).kind.content| - |content| <= remaining
    ensures
      var r := ReadOn(c, i, maximum, content, remaining, tick);
      && r.Ok? && r.value.content == w(i).kind.content
      && r.value.remaining == remaining - (|w(i).kind.content| - |content|)
    decreases |w(i).kind.content| - |content|
  {
    var whole, size := w(i).kind.content, Least(CHUNK, maximum + 1 - |content|);
    var chunk := c.read(tick + 1, i, |content|, size);
    assert Filled(c, w, tick + 1, i, |content|, size) && !c.expired(tick) && !c.expired(tick + 2);
    if chunk != [] {
      assert content + chunk == whole[..|content| + |chunk|];
      ReadStill(c, w, root, i, maximum, content + chunk, remaining - |chunk|, tick + 3);
    } else {
      assert content == whole;
    }
  }

  /** What a copy of this file, or of no file, comes to. */
  function Outcome(w: World, found: Option<nat>, allowMissing: bool, maximum: nat, remaining: nat)
    : Result<Option<Copy>, ReadError>
  {
    if found.None? then if allowMissing then Ok(None) else Err(Unavailable)
    else
      match w(found.value).kind
      case File(content, links, mode) =>
        if links != 1 then Err(HardLinked)
        else if |content| > maximum then Err(Oversize)
        else if |content| > remaining then Err(BudgetSpent)
        else Ok(Some(Copy(content, mode)))
      case Link => Err(PathUnsafe)
      case _ => Err(NotRegular)
  }

  // The copy has this outcome, and takes what it read from the budget.
  ghost predicate Has(r: Result<Captured, ReadError>, outcome: Result<Option<Copy>, ReadError>, remaining: nat) {
    match outcome
    case Err(e) => r == Err(e)
    case Ok(file) =>
      && r.Ok? && r.value.file == file
      && r.value.remaining == if file.None? then remaining else remaining - |file.value.content|
  }

  lemma {:induction false} CopyStill(c: Calls, w: World, root: nat, d: nat, name: string, allowMissing: bool,
                                     maximum: nat, remaining: nat, tick: nat)
    requires Answers(c, w, root) && w(d).kind.Dir?
    ensures Has(CopyNamed(c, d, name, allowMissing, maximum, remaining, tick),
                Outcome(w, Child(w, d, name), allowMissing, maximum, remaining), remaining)
  {
    assert Named(c, w, tick, d, name);
    var child := Child(w, d, name);
    if child.Some? && w(child.value).kind.File? {
      var i := child.value;
      if w(i).kind.links == 1 && |w(i).kind.content| <= maximum && |w(i).kind.content| <= remaining {
        FileStill(c, w, root, d, name, i, maximum, remaining, tick + 1);
      }
    }
  }

  lemma {:induction false} FileStill(c: Calls, w: World, root: nat, d: nat, name: string, i: nat, maximum: nat,
                                     remaining: nat, tick: nat)
    requires Answers(c, w, root) && Child(w, d, name) == Some(i) && w(i).kind.File?
    requires |w(i).kind.content| <= maximum && |w(i).kind.content| <= remaining
    ensures
      var r := CopyOpened(c, d, name, StatIn(w, i), maximum, remaining, tick);
      && r.Ok? && r.value.file == Some(Copy(w(i).kind.content, w(i).kind.mode))
      && r.value.remaining == remaining - |w(i).kind.content|
  {
    assert Named(c, w, tick, d, name);
    assert c.fstat(tick + 1, i) == StatIn(w, i);
    ReadStill(c, w, root, i, maximum, [], remaining, tick + 2);
    var now := ReadOn(c, i, maximum, [], remaining, tick + 2).value.tick;
    assert c.fstat(now, i) == StatIn(w, i) && Named(c, w, now + 1, d, name) && !c.expired(now + 2);
  }

  /**
   In a repository that stays as it is a copy gives the file at its path, with content and
   mode, if it is a regular file without other links and within the limits, and the error
   for what it is otherwise; and it takes from the budget exactly what it gives.
   */
  lemma {:induction false} StillCapture(c: Calls, w: World, root: nat, parts: seq<string>, allowMissing: bool,
                                        maximum: nat, remaining: nat, tick: nat)
    requires Answers(c, w, root) && w(root).kind.Dir? && parts != []
    ensures
      Has(Capture(c, root, parts, allowMissing, maximum, remaining, tick),
          if Holder(w, root, parts).None? then Err(PathUnsafe)
          else Outcome(w, Resolve(w, root, parts), allowMissing, maximum, remaining), remaining)
  {
    assert c.openRoot(tick + 1) == Some(root) && !c.expired(tick) && c.fstat(tick + 2, root) == StatIn(w, root);
    DescendStill(c, w, root, root, parts, tick + 3);
    ResolveHolder(w, root, parts);
    var holder := Holder(w, root, parts);
    if holder.Some? {
      CopyStill(c, w, root, holder.value, parts[|parts| - 1], allowMissing, maximum, remaining, tick + 2 + |parts|);
    }
  }

  // --- such calls exist ---------------------------------------------------------------------------------

  function Piece(content: seq<byte>, pos: nat, size: nat): seq<byte> {
    if pos >= |content| then []
    else if pos + size <= |content| then content[pos..pos + size] else content[pos..]
  }

  /** Calls that answer from this world. */
  function CallsOf(w: World, root: nat): Calls {
    Calls(
      (k: nat) => Some(root),
      (k: nat) => Some(StatIn(w, root)),
      (k: nat, d: nat, name: string) =>
        if Child(w, d, name).Some? && w(Child(w, d, name).value).kind.Dir? then Child(w, d, name) else None,
      (k: nat, d: nat, name: string) =>
        if Child(w, d, name).Some? && w(Child(w, d, name).value).kind.File? then Child(w, d, name) else None,
      (k: nat, d: nat, name: string) =>
        if Child(w, d, name).Some? then Some(StatIn(w, Child(w, d, name).value)) else None,
      (k: nat, d: nat, name: string) => w(d).kind.Dir? && Child(w, d, name).None?,
      (k: nat, i: nat) => StatIn(w, i),
      (k: nat, d: nat) => if w(d).kind.Dir? then Some(NamesOf(w(d).kind.items)) else None,
      (k: nat, i: nat, pos: nat, size: nat) => if w(i).kind.File? then Piece(w(i).kind.content, pos, size) else [],
      (k: nat) => false)
  }

  lemma {:induction false} CallsAnswer(w: World, root: nat)
    requires forall i: nat :: WellFormed(w(i))
    ensures Answers(CallsOf(w, root), w, root)
  {
    var c := CallsOf(w, root);
    forall k: nat, d: nat, name: string ensures Named(c, w, k, d, name) {}
    forall k: nat, d: nat ensures Scanned(c, w, k, d) {
      if w(d).kind.Dir? { assert WellFormed(w(d)); }
    }
    forall k: nat, i: nat, pos: nat, size: nat ensures Filled(c, w, k, i, pos, size) {}
  }
}
