/** What one walk, and two equal ones, say about a repository that others are editing. */
module ReviewSweep {
  import opened Results
  import opened ReviewWorld
  import opened ReviewWalk

  // --- the calls see the history --------------------------------------------------------

  /** When each system call happens; calls are never reordered. */
  type Clock = nat -> nat

  function ShapeOf(kind: Kind): Shape {
    match kind
    case File(content, links, mode) => Regular(|content|, links, mode)
    case Dir(_) => Directory
    case Link => Symlink
    case Special => Odd
  }

  function StatAt(h: History, t: nat, i: nat): Stat { Stat(i, h(t, i).stamp, ShapeOf(h(t, i).kind)) }

  ghost predicate Bound(h: History, t: nat, d: nat, name: string, i: nat) {
    h(t, d).kind.Dir? && LookupItem(h(t, d).kind.items, name) == Some(i)
  }

  ghost predicate StatOk(c: Calls, h: History, at: Clock, k: nat, d: nat, name: string) {
    match c.stat(k, d, name)
    case Some(s) => Bound(h, at(k), d, name, s.ino) && s == StatAt(h, at(k), s.ino)
    case None => c.missing(k, d, name) ==> h(at(k), d).kind.Dir? && LookupItem(h(at(k), d).kind.items, name) == None
  }

  ghost predicate OpenOk(c: Calls, h: History, at: Clock, k: nat, d: nat, name: string) {
    && (match c.openDir(k, d, name)
        case None => true
        case Some(i) => Bound(h, at(k), d, name, i) && h(at(k), i).kind.Dir?)
    && (match c.openFile(k, d, name) case None => true case Some(i) => Bound(h, at(k), d, name, i))
  }

  ghost predicate Constant(h: History, i: nat, low: nat, high: nat) {
    forall t: nat | low <= t <= high :: h(t, i) == h(low, i)
  }

  // A directory is enumerated while others edit it: only an undisturbed one completely.
  ghost predicate ScanOk(c: Calls, h: History, at: Clock, k: nat, d: nat) {
    match c.scan(k, d)
    case None => true
    case Some(names) =>
      h(at(k), d).kind.Dir? && Constant(h, d, at(k), at(k + 1 + |names|)) ==>
        Distinct(names) && Elements(names) == Elements(NamesOf(h(at(k), d).kind.items))
  }

  ghost predicate TickOk(c: Calls, h: History, at: Clock, k: nat) {
    && at(k) <= at(k + 1)
    && (match c.lstatRoot(k) case None => true case Some(s) => s == StatAt(h, at(k), s.ino))
  }

  ghost predicate CallsOk(c: Calls, h: History, at: Clock) {
    && Evolves(h)
    && (forall t: nat, i: nat :: WellFormed(h(t, i)))
    && (forall k: nat :: TickOk(c, h, at, k))
    && (forall k: nat, i: nat :: c.fstat(k, i) == StatAt(h, at(k), i))
    && (forall k: nat, d: nat, name: string :: StatOk(c, h, at, k, d, name))
    && (forall k: nat, d: nat, name: string :: OpenOk(c, h, at, k, d, name))
    && (forall k: nat, d: nat :: ScanOk(c, h, at, k, d))
  }

  lemma {:induction false} ClockGrows(c: Calls, h: History, at: Clock, k: nat, l: nat)
    requires CallsOk(c, h, at) && k <= l
    ensures at(k) <= at(l)
    decreases l - k
  {
    if k < l {
      assert TickOk(c, h, at, l - 1);
      ClockGrows(c, h, at, k, l - 1);
    }
  }

  // --- the listing of a world at one instant ------------------------------------------------

  function EntriesOf(seen: seq<Sighting>): (entries: seq<Entry>)
    ensures |entries| == |seen| && forall i | 0 <= i < |seen| :: entries[i] == seen[i].entry
  {
    seq(|seen|, i requires 0 <= i < |seen| => seen[i].entry)
  }

  function Joined(a: Option<seq<Entry>>, b: Option<seq<Entry>>): Option<seq<Entry>> {
    if a.None? || b.None? then None else Some(a.value + b.value)
  }

  function Deep(prefix: seq<string>): nat { if |prefix| > MAX_DEPTH then 0 else MAX_DEPTH + 1 - |prefix| }

  /** Everything below a directory in sorted preorder; None where it is too deep. */
  ghost function ListFrom(w: World, skip: set<string>, d: nat, prefix: seq<string>, names: seq<string>, i: nat)
    : Option<seq<Entry>>
    decreases Deep(prefix), if i <= |names| then |names| - i else 0
  {
    if i >= |names| then Some([])
    else if prefix == [] && names[i] in skip then ListFrom(w, skip, d, prefix, names, i + 1)
    else if |prefix| + 1 > MAX_DEPTH || !w(d).kind.Dir? then None
    else
      match LookupItem(w(d).kind.items, names[i])
      case None => None
      case Some(child) =>
        var path := prefix + [names[i]];
        var below := if w(child).kind.Dir? then ListFrom(w, skip, child, path, SortedNames(w(child)), 0) else Some([]);
        Joined(Some([Entry(path, child, w(child).stamp)]),
               Joined(below, ListFrom(w, skip, d, prefix, names, i + 1)))
  }

  function SortedNames(node: Node): seq<string> {
    if node.kind.Dir? then Sort(NamesOf(node.kind.items)) else []
  }

  ghost function Listing(w: World, skip: set<string>, root: nat): Option<seq<Entry>> {
    Joined(Some([Entry([], root, w(root).stamp)]), ListFrom(w, skip, root, [], SortedNames(w(root)), 0))
  }

  // --- one walk -----------------------------------------------------------------------------

  lemma {:induction false} NamesTick(c: Calls, names: nat, i: nat, tick: nat, count: nat)
    requires i <= names && CountNames(c, names, i, tick, count).Ok?
    ensures CountNames(c, names, i, tick, count).value == tick + (names - i)
    decreases names - i
  {
    if i < names { NamesTick(c, names, i + 1, tick + 1, count); }
  }

  lemma {:induction false} ScanTick(c: Calls, ino: nat, tick: nat, count: nat)
    requires NamesIn(c, ino, tick, count).Ok?
    ensures
      var names := c.scan(tick, ino);
      names.Some? && NamesIn(c, ino, tick, count).value == Named(Sort(names.value), tick + 1 + |names.value|)
  {
    NamesTick(c, |c.scan(tick, ino).value|, 0, tick + 1, count);
  }

  lemma {:induction false} EnterTick(c: Calls, f: Frame, name: string, tick: nat, count: nat)
    requires Enter(c, f, name, tick, count).Ok?
    ensures Enter(c, f, name, tick, count).value.tick > tick
  {
    var e := Enter(c, f, name, tick, count).value;
    if e.child.Some? { ScanTick(c, e.child.value.ino, tick + 3, count + 1); }
  }

  // --- the walk as a plan: what its steps tell, whatever they call ----------------------------

  datatype Plan = Plan(
    walk: (Frame, nat, nat, nat) -> Result<Walked, WalkError>,
    enter: (Frame, string, nat, nat) -> Result<Entered, WalkError>,
    leave: (Frame, nat) -> Result<nat, WalkError>)

  function PlanOf(c: Calls, skip: set<string>): Plan {
    Plan(
      (f: Frame, i: nat, tick: nat, count: nat) => WalkFrom(c, skip, f, i, tick, count),
      (f: Frame, name: string, tick: nat, count: nat) => Enter(c, f, name, tick, count),
      (f: Frame, tick: nat) => Leave(c, f, tick))
  }

  ghost predicate Skipped(skip: set<string>, f: Frame, i: nat)
    requires i < |f.names|
  {
    f.prefix == [] && f.names[i] in skip
  }

  // A successful walk from here is a departure, a skip, or one name and the rest.
  ghost predicate Unfolds(p: Plan, skip: set<string>, f: Frame, i: nat, tick: nat, count: nat) {
    var r := p.walk(f, i, tick, count);
    r.Ok? ==>
      if i >= |f.names| then p.leave(f, tick + 1).Ok? && r == Ok(Walked([], p.leave(f, tick + 1).value))
      else if Skipped(skip, f, i) then r == p.walk(f, i + 1, tick + 1, count)
      else
        && p.enter(f, f.names[i], tick + 1, count).Ok?
        && var e := p.enter(f, f.names[i], tick + 1, count).value;
        if e.child.None? then
          && p.walk(f, i + 1, e.tick, count + 1).Ok?
          && r == Before([e.sighting], p.walk(f, i + 1, e.tick, count + 1))
        else
          && p.walk(e.child.value, 0, e.tick, count + 1).Ok?
          && var below := p.walk(e.child.value, 0, e.tick, count + 1).value;
          && p.walk(f, i + 1, below.tick, count + 1 + |below.seen|).Ok?
          && r == Before([e.sighting] + below.seen, p.walk(f, i + 1, below.tick, count + 1 + |below.seen|))
  }

  // What entering a name tells about the world at that tick.
  ghost predicate Entering(p: Plan, h: History, at: Clock, f: Frame, name: string, tick: nat, count: nat) {
    var r := p.enter(f, name, tick, count);
    r.Ok? ==>
      var e, entry := r.value, r.value.sighting.entry;
      && e.tick > tick && e.sighting.tick == tick
      && |f.prefix| < MAX_DEPTH && entry.path == f.prefix + [name]
      && Bound(h, at(tick), f.ino, name, entry.ino) && entry.stamp == h(at(tick), entry.ino).stamp
      && (e.child.Some? <==> h(at(tick), entry.ino).kind.Dir?)
      && (e.child.Some? ==>
            var g := e.child.value;
            && g.ino == entry.ino && g.stamp == entry.stamp && g.prefix == entry.path
            && (Constant(h, g.ino, at(tick), at(e.tick)) ==> g.names == SortedNames(h(at(tick), g.ino))))
  }

  ghost predicate Leaving(p: Plan, h: History, at: Clock, f: Frame, tick: nat) {
    p.leave(f, tick).Ok? ==>
      p.leave(f, tick).value > tick && h(at(tick), f.ino).stamp == f.stamp && StillNamed(h, at(tick + 1), f)
  }

  // The directory is found under its parent's name, with its stamp.
  ghost predicate StillNamed(h: History, t: nat, f: Frame) {
    f.place.Some? ==> Bound(h, t, f.place.value.parent, f.place.value.name, f.ino) && h(t, f.ino).stamp == f.stamp
  }

  ghost predicate Ordered(at: Clock, k: nat, l: nat) { k <= l ==> at(k) <= at(l) }

  ghost predicate Sound(p: Plan, skip: set<string>, h: History, at: Clock) {
    && Evolves(h)
    && (forall f: Frame, i: nat, tick: nat, count: nat :: Unfolds(p, skip, f, i, tick, count))
    && (forall f: Frame, name: string, tick: nat, count: nat :: Entering(p, h, at, f, name, tick, count))
    && (forall f: Frame, tick: nat :: Leaving(p, h, at, f, tick))
    && (forall k: nat, l: nat :: Ordered(at, k, l))
  }

  /** A directory that was left had its stamp and its name still, after everything below it was seen. */
  lemma {:induction false} Stays(p: Plan, skip: set<string>, h: History, at: Clock, f: Frame, i: nat, tick: nat,
                                 count: nat)
    returns (last: nat)
    requires Sound(p, skip, h, at) && p.walk(f, i, tick, count).Ok?
    ensures tick < last < p.walk(f, i, tick, count).value.tick
    ensures h(at(last), f.ino).stamp == f.stamp && StillNamed(h, at(last + 1), f)
    decreases Room(f), if i <= |f.names| then |f.names| - i + 1 else 0
  {
    assert Unfolds(p, skip, f, i, tick, count);
    if i >= |f.names| {
      last := tick + 1;
      assert Leaving(p, h, at, f, tick + 1);
    } else if Skipped(skip, f, i) {
      last := Stays(p, skip, h, at, f, i + 1, tick + 1, count);
    } else {
      assert Entering(p, h, at, f, f.names[i], tick + 1, count);
      var e := p.enter(f, f.names[i], tick + 1, count).value;
      if e.child.None? {
        last := Stays(p, skip, h, at, f, i + 1, e.tick, count + 1);
      } else {
        var below := p.walk(e.child.value, 0, e.tick, count + 1).value;
        var inner := Stays(p, skip, h, at, e.child.value, 0, e.tick, count + 1);
        last := Stays(p, skip, h, at, f, i + 1, below.tick, count + 1 + |below.seen|);
      }
    }
  }

  // A sighting tells the stamp that its inode had at its tick.
  ghost predicate True(h: History, at: Clock, s: Sighting, low: nat, high: nat) {
    low <= s.tick < high && s.entry.stamp == h(at(s.tick), s.entry.ino).stamp
  }

  ghost predicate AllTrue(h: History, at: Clock, seen: seq<Sighting>, low: nat, high: nat) {
    forall k: nat | k < |seen| :: True(h, at, seen[k], low, high)
  }

  lemma {:induction false} AllTrueJoin(h: History, at: Clock, a: seq<Sighting>, b: seq<Sighting>, low: nat, mid: nat,
                                       high: nat)
    requires AllTrue(h, at, a, low, mid) && AllTrue(h, at, b, mid, high) && low <= mid <= high
    ensures AllTrue(h, at, a + b, low, high)
  {
    forall k: nat | k < |a + b| ensures True(h, at, (a + b)[k], low, high) {
      if k < |a| { assert True(h, at, a[k], low, mid); } else { assert True(h, at, b[k - |a|], mid, high); }
    }
  }

  lemma {:induction false} SeenTrue(p: Plan, skip: set<string>, h: History, at: Clock, f: Frame, i: nat, tick: nat,
                                    count: nat)
    requires Sound(p, skip, h, at) && p.walk(f, i, tick, count).Ok?
    ensures var r := p.walk(f, i, tick, count).value; tick < r.tick && AllTrue(h, at, r.seen, tick, r.tick)
    decreases Room(f), if i <= |f.names| then |f.names| - i + 1 else 0
  {
    assert Unfolds(p, skip, f, i, tick, count);
    var r := p.walk(f, i, tick, count).value;
    if i >= |f.names| {
      assert Leaving(p, h, at, f, tick + 1);
    } else if Skipped(skip, f, i) {
      SeenTrue(p, skip, h, at, f, i + 1, tick + 1, count);
      AllTrueJoin(h, at, [], r.seen, tick, tick + 1, r.tick);
      assert [] + r.seen == r.seen;
    } else {
      assert Entering(p, h, at, f, f.names[i], tick + 1, count);
      var e := p.enter(f, f.names[i], tick + 1, count).value;
      assert True(h, at, e.sighting, tick, e.tick);
      if e.child.None? {
        SeenTrue(p, skip, h, at, f, i + 1, e.tick, count + 1);
        var rest := p.walk(f, i + 1, e.tick, count + 1).value;
        AllTrueJoin(h, at, [e.sighting], rest.seen, tick, e.tick, rest.tick);
      } else {
        var below := p.walk(e.child.value, 0, e.tick, count + 1).value;
        SeenTrue(p, skip, h, at, e.child.value, 0, e.tick, count + 1);
        SeenTrue(p, skip, h, at, f, i + 1, below.tick, count + 1 + |below.seen|);
        var rest := p.walk(f, i + 1, below.tick, count + 1 + |below.seen|).value;
        AllTrueJoin(h, at, [e.sighting], below.seen, tick, e.tick, below.tick);
        AllTrueJoin(h, at, [e.sighting] + below.seen, rest.seen, tick, below.tick, rest.tick);
      }
    }
  }

  // --- the walk lists any world that agrees with what it saw ----------------------------------

  ghost predicate AgreesAt(w: World, h: History, at: Clock, s: Sighting) {
    w(s.entry.ino) == h(at(s.tick), s.entry.ino)
  }

  ghost predicate Agrees(w: World, h: History, at: Clock, seen: seq<Sighting>) {
    forall k: nat | k < |seen| :: AgreesAt(w, h, at, seen[k])
  }

  lemma {:induction false} AgreesSplit(w: World, h: History, at: Clock, a: seq<Sighting>, b: seq<Sighting>)
    requires Agrees(w, h, at, a + b)
    ensures Agrees(w, h, at, a) && Agrees(w, h, at, b)
  {
    forall k: nat | k < |a| ensures AgreesAt(w, h, at, a[k]) { assert AgreesAt(w, h, at, (a + b)[k]); }
    forall k: nat | k < |b| ensures AgreesAt(w, h, at, b[k]) { assert AgreesAt(w, h, at, (a + b)[|a| + k]); }
  }

  lemma {:induction false} EntriesJoin(a: seq<Sighting>, b: seq<Sighting>)
    ensures EntriesOf(a + b) == EntriesOf(a) + EntriesOf(b)
  {
  }

  lemma {:induction false} Unchanged(h: History, i: nat, low: nat, high: nat, mid: nat)
    requires Evolves(h) && low <= mid <= high && h(low, i).stamp == h(high, i).stamp
    ensures Constant(h, i, low, mid)
  {
    forall t: nat | low <= t <= mid ensures h(t, i) == h(low, i) { StampHolds(h, i, low, high, t); }
  }

  // The directory is, at every tick of its walk, what it is in `w`.
  ghost predicate Fixed(f: Frame, h: History, at: Clock, since: nat, w: World) {
    && w(f.ino) == h(at(since), f.ino) && w(f.ino).stamp == f.stamp
    && w(f.ino).kind.Dir? && f.names == SortedNames(w(f.ino))
  }

  lemma {:induction false} ListName(p: Plan, skip: set<string>, h: History, at: Clock, f: Frame, i: nat, tick: nat,
                                    count: nat,
                                    since: nat, w: World)
    requires Sound(p, skip, h, at) && p.walk(f, i, tick, count).Ok? && since <= tick && Fixed(f, h, at, since, w)
    requires i < |f.names| && !Skipped(skip, f, i) && p.enter(f, f.names[i], tick + 1, count).Ok?
    requires AgreesAt(w, h, at, p.enter(f, f.names[i], tick + 1, count).value.sighting)
    ensures
      var e := p.enter(f, f.names[i], tick + 1, count).value;
      var entry := e.sighting.entry;
      && LookupItem(w(f.ino).kind.items, f.names[i]) == Some(entry.ino)
      && entry == Entry(f.prefix + [f.names[i]], entry.ino, w(entry.ino).stamp) && |f.prefix| < MAX_DEPTH
      && (e.child.Some? <==> w(entry.ino).kind.Dir?)
  {
    assert Unfolds(p, skip, f, i, tick, count);
    assert Entering(p, h, at, f, f.names[i], tick + 1, count);
    var last := Stays(p, skip, h, at, f, i, tick, count);
    assert Ordered(at, since, tick + 1) && Ordered(at, tick + 1, last);
    StampHolds(h, f.ino, at(since), at(last), at(tick + 1));
  }

  lemma {:induction false} ChildFixed(p: Plan, skip: set<string>, h: History, at: Clock, f: Frame, i: nat, tick: nat,
                                      count: nat, w: World)
    requires Sound(p, skip, h, at) && i < |f.names| && p.enter(f, f.names[i], tick + 1, count).Ok?
    requires var e := p.enter(f, f.names[i], tick + 1, count).value;
      e.child.Some? && p.walk(e.child.value, 0, e.tick, count + 1).Ok? && AgreesAt(w, h, at, e.sighting)
    ensures
      var e := p.enter(f, f.names[i], tick + 1, count).value;
      Fixed(e.child.value, h, at, tick + 1, w) && tick + 1 <= e.tick
  {
    assert Entering(p, h, at, f, f.names[i], tick + 1, count);
    var e := p.enter(f, f.names[i], tick + 1, count).value;
    var g := e.child.value;
    var last := Stays(p, skip, h, at, g, 0, e.tick, count + 1);
    assert Ordered(at, tick + 1, e.tick) && Ordered(at, e.tick, last);
    Unchanged(h, g.ino, at(tick + 1), at(last), at(e.tick));
  }

  // The listing of one more name, from what is known about it and about the rest.
  lemma {:induction false} ListOne(w: World, skip: set<string>, f: Frame, i: nat, s: Sighting,
                                   below: seq<Sighting>, rest: seq<Sighting>)
    requires i < |f.names| && !Skipped(skip, f, i) && w(f.ino).kind.Dir? && |f.prefix| < MAX_DEPTH
    requires LookupItem(w(f.ino).kind.items, f.names[i]) == Some(s.entry.ino)
    requires s.entry == Entry(f.prefix + [f.names[i]], s.entry.ino, w(s.entry.ino).stamp)
    requires
      var child := s.entry.ino;
      Some(EntriesOf(below)) ==
        if w(child).kind.Dir? then ListFrom(w, skip, child, s.entry.path, SortedNames(w(child)), 0) else Some([])
    requires ListFrom(w, skip, f.ino, f.prefix, f.names, i + 1) == Some(EntriesOf(rest))
    ensures ListFrom(w, skip, f.ino, f.prefix, f.names, i) == Some(EntriesOf([s] + below + rest))
  {
    EntriesThree(s, below, rest);
  }

  lemma {:induction false} EntriesThree(s: Sighting, below: seq<Sighting>, rest: seq<Sighting>)
    ensures Joined(Some([s.entry]), Joined(Some(EntriesOf(below)), Some(EntriesOf(rest))))
            == Some(EntriesOf([s] + below + rest))
  {
    EntriesJoin([s] + below, rest);
    EntriesJoin([s], below);
    var b, c := EntriesOf(below), EntriesOf(rest);
    assert EntriesOf([s]) == [s.entry];
    assert [s.entry] + (b + c) == [s.entry] + b + c;
  }

  lemma {:induction false} Lists(p: Plan, skip: set<string>, h: History, at: Clock, f: Frame, i: nat, tick: nat,
                                 count: nat,
                                 since: nat, w: World)
    requires Sound(p, skip, h, at) && p.walk(f, i, tick, count).Ok? && since <= tick && Fixed(f, h, at, since, w)
    requires Agrees(w, h, at, p.walk(f, i, tick, count).value.seen)
    ensures ListFrom(w, skip, f.ino, f.prefix, f.names, i) == Some(EntriesOf(p.walk(f, i, tick, count).value.seen))
    decreases Room(f), if i <= |f.names| then |f.names| - i + 1 else 0
  {
    assert Unfolds(p, skip, f, i, tick, count);
    if i >= |f.names| {
    } else if Skipped(skip, f, i) {
      Lists(p, skip, h, at, f, i + 1, tick + 1, count, since, w);
    } else {
      assert Entering(p, h, at, f, f.names[i], tick + 1, count);
      var e := p.enter(f, f.names[i], tick + 1, count).value;
      if e.child.None? {
        var rest := p.walk(f, i + 1, e.tick, count + 1).value;
        AgreesSplit(w, h, at, [e.sighting], rest.seen);
        assert AgreesAt(w, h, at, [e.sighting][0]);
        ListName(p, skip, h, at, f, i, tick, count, since, w);
        Lists(p, skip, h, at, f, i + 1, e.tick, count + 1, since, w);
        assert EntriesOf([]) == [] && [e.sighting] + [] == [e.sighting];
        ListOne(w, skip, f, i, e.sighting, [], rest.seen);
      } else {
        var below := p.walk(e.child.value, 0, e.tick, count + 1).value;
        var rest := p.walk(f, i + 1, below.tick, count + 1 + |below.seen|).value;
        SeenTrue(p, skip, h, at, e.child.value, 0, e.tick, count + 1);
        AgreesSplit(w, h, at, [e.sighting] + below.seen, rest.seen);
        AgreesSplit(w, h, at, [e.sighting], below.seen);
        assert AgreesAt(w, h, at, [e.sighting][0]);
        ListName(p, skip, h, at, f, i, tick, count, since, w);
        ChildFixed(p, skip, h, at, f, i, tick, count, w);
        Lists(p, skip, h, at, e.child.value, 0, e.tick, count + 1, tick + 1, w);
        Lists(p, skip, h, at, f, i + 1, below.tick, count + 1 + |below.seen|, since, w);
        ListOne(w, skip, f, i, e.sighting, below.seen, rest.seen);
      }
    }
  }
}
