/** Manifest, capture, manifest again: why equal manifests give one consistent snapshot. */
module ReviewCollect {
  import opened Results
  import opened ReviewWorld
  import opened ReviewWalk
  import opened ReviewSweep

  // --- the real walk is a sound plan ----------------------------------------------------

  lemma {:induction false} WalkUnfolds(c: Calls, skip: set<string>, f: Frame, i: nat, tick: nat, count: nat)
    ensures Unfolds(PlanOf(c, skip), skip, f, i, tick, count)
  {
  }

  lemma {:induction false} WalkLeaving(c: Calls, h: History, at: Clock, skip: set<string>, f: Frame, tick: nat)
    requires CallsOk(c, h, at)
    ensures Leaving(PlanOf(c, skip), h, at, f, tick)
  {
    assert c.fstat(tick, f.ino) == StatAt(h, at(tick), f.ino);
    if f.place.Some? { assert StatOk(c, h, at, tick + 1, f.place.value.parent, f.place.value.name); }
  }

  lemma {:induction false} ScanNames(c: Calls, h: History, at: Clock, ino: nat, low: nat, tick: nat, count: nat)
    requires CallsOk(c, h, at) && low <= tick && NamesIn(c, ino, tick, count).Ok?
    requires h(at(low), ino).kind.Dir? && Constant(h, ino, at(low), at(NamesIn(c, ino, tick, count).value.tick))
    ensures NamesIn(c, ino, tick, count).value.names == SortedNames(h(at(low), ino))
  {
    ScanTick(c, ino, tick, count);
    var names := c.scan(tick, ino).value;
    var end := tick + 1 + |names|;
    ClockGrows(c, h, at, low, tick);
    ClockGrows(c, h, at, tick, end);
    assert ScanOk(c, h, at, tick, ino);
    assert Constant(h, ino, at(tick), at(end)) by {
      forall t: nat | at(tick) <= t <= at(end) ensures h(t, ino) == h(at(tick), ino) {
        assert h(t, ino) == h(at(low), ino) && h(at(tick), ino) == h(at(low), ino);
      }
    }
    assert WellFormed(h(at(tick), ino));
    SortCanonical(names, NamesOf(h(at(tick), ino).kind.items));
  }

  lemma {:induction false} WalkEntering(c: Calls, h: History, at: Clock, skip: set<string>, f: Frame, name: string,
                                        tick: nat, count: nat)
    requires CallsOk(c, h, at)
    ensures Entering(PlanOf(c, skip), h, at, f, name, tick, count)
  {
    var r := Enter(c, f, name, tick, count);
    if r.Ok? {
      EnterTick(c, f, name, tick, count);
      assert StatOk(c, h, at, tick, f.ino, name);
      var before := c.stat(tick, f.ino, name).value;
      if r.value.child.Some? {
        var g := r.value.child.value;
        assert c.fstat(tick + 2, g.ino) == StatAt(h, at(tick + 2), g.ino);
        if Constant(h, g.ino, at(tick), at(r.value.tick)) {
          ScanNames(c, h, at, g.ino, tick, tick + 3, count + 1);
        }
      }
    }
  }

  lemma {:induction false} WalkSound(c: Calls, h: History, at: Clock, skip: set<string>)
    requires CallsOk(c, h, at)
    ensures Sound(PlanOf(c, skip), skip, h, at)
  {
    var p := PlanOf(c, skip);
    forall f: Frame, i: nat, tick: nat, count: nat ensures Unfolds(p, skip, f, i, tick, count) {
      WalkUnfolds(c, skip, f, i, tick, count);
    }
    forall f: Frame, name: string, tick: nat, count: nat ensures Entering(p, h, at, f, name, tick, count) {
      WalkEntering(c, h, at, skip, f, name, tick, count);
    }
    forall f: Frame, tick: nat ensures Leaving(p, h, at, f, tick) {
      WalkLeaving(c, h, at, skip, f, tick);
    }
    forall k: nat, l: nat ensures Ordered(at, k, l) {
      if k <= l { ClockGrows(c, h, at, k, l); }
    }
  }

  // --- one manifest ------------------------------------------------------------------------

  lemma {:induction false} RootFacts(c: Calls, h: History, at: Clock, expected: nat, tick: nat)
    requires CallsOk(c, h, at) && OpenRoot(c, expected, tick).Ok?
    ensures
      var start := OpenRoot(c, expected, tick).value;
      && start.child.Some? && start.tick > tick + 2
      && start.sighting == Sighting(Entry([], expected, h(at(tick + 2), expected).stamp), tick + 2)
      && var f := start.child.value;
      && f.ino == expected && f.stamp == h(at(tick + 2), expected).stamp && f.prefix == []
      && h(at(tick + 2), expected).kind.Dir?
      && (Constant(h, expected, at(tick + 2), at(start.tick)) ==> f.names == SortedNames(h(at(tick + 2), expected)))
  {
    var root := c.openRoot(tick).value;
    assert c.fstat(tick + 2, root) == StatAt(h, at(tick + 2), root);
    var start := OpenRoot(c, expected, tick).value;
    ScanTick(c, root, tick + 3, 1);
    if Constant(h, expected, at(tick + 2), at(start.tick)) {
      ScanNames(c, h, at, root, tick + 2, tick + 3, 1);
    }
  }

  // The three parts of a successful walk.
  lemma {:induction false} WalkParts(c: Calls, skip: set<string>, expected: nat, tick: nat)
    requires Walk(c, skip, expected, tick).Ok?
    ensures
      && OpenRoot(c, expected, tick).Ok? && OpenRoot(c, expected, tick).value.child.Some?
      && var start := OpenRoot(c, expected, tick).value;
      && var below := PlanOf(c, skip).walk(start.child.value, 0, start.tick, 1);
      && below.Ok? && Walk(c, skip, expected, tick).value.seen == [start.sighting] + below.value.seen
      && Walk(c, skip, expected, tick).value.tick == below.value.tick + 3
  {
  }

  /** After everything was seen the root is looked at again, through its descriptor and under its name. */
  lemma {:induction false} RootStays(c: Calls, h: History, at: Clock, skip: set<string>, expected: nat, tick: nat)
    requires CallsOk(c, h, at) && Walk(c, skip, expected, tick).Ok?
    ensures
      var r := Walk(c, skip, expected, tick).value;
      && r.seen != [] && r.tick > 2 && !c.expired(r.tick - 3)
      && h(at(r.tick - 2), expected).stamp == r.seen[0].entry.stamp
      && c.lstatRoot(r.tick - 1) == Some(StatAt(h, at(r.tick - 1), expected))
      && h(at(r.tick - 1), expected).stamp == r.seen[0].entry.stamp
  {
    RootFacts(c, h, at, expected, tick);
    var start := OpenRoot(c, expected, tick).value;
    var r := Walk(c, skip, expected, tick).value;
    WalkFinished(c, skip, expected, tick);
    assert TickOk(c, h, at, r.tick - 1);
  }

  lemma {:induction false} WalkFinished(c: Calls, skip: set<string>, expected: nat, tick: nat)
    requires Walk(c, skip, expected, tick).Ok?
    ensures
      && OpenRoot(c, expected, tick).Ok? && OpenRoot(c, expected, tick).value.child.Some?
      && var start, r := OpenRoot(c, expected, tick).value, Walk(c, skip, expected, tick).value;
      && r.tick > 2 && r.seen != [] && r.seen[0] == start.sighting
      && Finish(c, start.child.value, r.tick - 3) == Ok(r.tick)
  {
  }

  /** A successful walk lists every world that agrees with what it saw, when it saw it. */
  lemma {:induction false} WalkLists(c: Calls, h: History, at: Clock, skip: set<string>, expected: nat, tick: nat,
                                     w: World)
    requires CallsOk(c, h, at) && Walk(c, skip, expected, tick).Ok?
    requires Agrees(w, h, at, Walk(c, skip, expected, tick).value.seen)
    ensures Listing(w, skip, expected) == Some(EntriesOf(Walk(c, skip, expected, tick).value.seen))
  {
    var p := PlanOf(c, skip);
    WalkSound(c, h, at, skip);
    WalkParts(c, skip, expected, tick);
    RootFacts(c, h, at, expected, tick);
    var start := OpenRoot(c, expected, tick).value;
    var f := start.child.value;
    var below := p.walk(f, 0, start.tick, 1).value;
    AgreesSplit(w, h, at, [start.sighting], below.seen);
    assert AgreesAt(w, h, at, [start.sighting][0]);
    var last := Stays(p, skip, h, at, f, 0, start.tick, 1);
    assert Ordered(at, tick + 2, start.tick) && Ordered(at, start.tick, last);
    Unchanged(h, expected, at(tick + 2), at(last), at(start.tick));
    Lists(p, skip, h, at, f, 0, start.tick, 1, tick + 2, w);
    EntriesJoin([start.sighting], below.seen);
    assert EntriesOf([start.sighting]) == [Entry([], expected, w(expected).stamp)];
  }

  lemma {:induction false} WalkTrue(c: Calls, h: History, at: Clock, skip: set<string>, expected: nat, tick: nat)
    requires CallsOk(c, h, at) && Walk(c, skip, expected, tick).Ok?
    ensures var r := Walk(c, skip, expected, tick).value; AllTrue(h, at, r.seen, tick, r.tick) && tick < r.tick
  {
    var p := PlanOf(c, skip);
    WalkSound(c, h, at, skip);
    WalkParts(c, skip, expected, tick);
    RootFacts(c, h, at, expected, tick);
    var start := OpenRoot(c, expected, tick).value;
    SeenTrue(p, skip, h, at, start.child.value, 0, start.tick, 1);
    var below := p.walk(start.child.value, 0, start.tick, 1).value;
    assert True(h, at, start.sighting, tick, start.tick);
    AllTrueJoin(h, at, [start.sighting], below.seen, tick, start.tick, below.tick);
    assert AllTrue(h, at, [start.sighting] + below.seen, tick, below.tick + 3) by {
      AllTrueJoin(h, at, [start.sighting] + below.seen, [], tick, below.tick, below.tick + 3);
      assert [start.sighting] + below.seen + [] == [start.sighting] + below.seen;
    }
  }

  // --- two equal manifests --------------------------------------------------------------------

  ghost function WorldAt(h: History, t: nat): World { (i: nat) => h(t, i) }

  /** Both manifests were made, the second one after the first, and they are equal. */
  ghost predicate Collected(c: Calls, skip: set<string>, root: nat, first: nat, second: nat) {
    && Walk(c, skip, root, first).Ok? && Walk(c, skip, root, second).Ok?
    && Walk(c, skip, root, first).value.tick <= second
    && EntriesOf(Walk(c, skip, root, first).value.seen) == EntriesOf(Walk(c, skip, root, second).value.seen)
  }

  ghost function Manifest(c: Calls, skip: set<string>, root: nat, first: nat): seq<Entry>
    requires Walk(c, skip, root, first).Ok?
  {
    EntriesOf(Walk(c, skip, root, first).value.seen)
  }

  // An instant between the two manifests.
  ghost predicate Between(c: Calls, at: Clock, skip: set<string>, root: nat, first: nat, second: nat, t: nat)
    requires Walk(c, skip, root, first).Ok?
  {
    at(Walk(c, skip, root, first).value.tick) <= t <= at(second)
  }

  /** A node listed in both is what it was at the first sighting, at every such instant. */
  lemma {:induction false} ListedHolds(c: Calls, h: History, at: Clock, skip: set<string>, root: nat, first: nat,
                                       second: nat,
                                       t: nat, k: nat)
    requires CallsOk(c, h, at) && Collected(c, skip, root, first, second)
    requires Between(c, at, skip, root, first, second, t)
    requires k < |Walk(c, skip, root, first).value.seen|
    ensures AgreesAt(WorldAt(h, t), h, at, Walk(c, skip, root, first).value.seen[k])
  {
    WalkTrue(c, h, at, skip, root, first);
    WalkTrue(c, h, at, skip, root, second);
    var a, b := Walk(c, skip, root, first).value, Walk(c, skip, root, second).value;
    assert EntriesOf(a.seen)[k] == EntriesOf(b.seen)[k];
    var s, z := a.seen[k], b.seen[k];
    assert True(h, at, s, first, a.tick) && True(h, at, z, second, b.tick);
    ClockGrows(c, h, at, s.tick, a.tick);
    ClockGrows(c, h, at, second, z.tick);
    StampHolds(h, s.entry.ino, at(s.tick), at(z.tick), t);
  }

  /**
   Although neither sweep is atomic, equal manifests are the listing of the repository
   at every single instant between them.
   */
  lemma {:induction false} DoubleCollect(c: Calls, h: History, at: Clock, skip: set<string>, root: nat, first: nat,
                                         second: nat, t: nat)
    requires CallsOk(c, h, at) && Collected(c, skip, root, first, second)
    requires Between(c, at, skip, root, first, second, t)
    ensures Listing(WorldAt(h, t), skip, root) == Some(Manifest(c, skip, root, first))
  {
    var seen := Walk(c, skip, root, first).value.seen;
    forall k: nat | k < |seen| ensures AgreesAt(WorldAt(h, t), h, at, seen[k]) {
      ListedHolds(c, h, at, skip, root, first, second, t, k);
    }
    WalkLists(c, h, at, skip, root, first, WorldAt(h, t));
  }

  // --- the assumptions can be met ----------------------------------------------------------------

  function StillNode(): Node { Node(0, Dir([])) }

  function StillCalls(): Calls {
    Calls(
      (k: nat) => Some(0),
      (k: nat) => Some(Stat(0, 0, Directory)),
      (k: nat, d: nat, name: string) => None,
      (k: nat, d: nat, name: string) => None,
      (k: nat, d: nat, name: string) => None,
      (k: nat, d: nat, name: string) => true,
      (k: nat, i: nat) => Stat(i, 0, Directory),
      (k: nat, d: nat) => Some([]),
      (k: nat, i: nat, pos: nat, size: nat) => [],
      (k: nat) => false)
  }

  /** An empty directory that nobody edits is collected twice. */
  lemma {:induction false} StillRepository()
    ensures CallsOk(StillCalls(), (t: nat, i: nat) => StillNode(), (k: nat) => k)
    ensures Collected(StillCalls(), {}, 0, 0, 100)
  {
    var c := StillCalls();
    assert NamesIn(c, 0, 3, 1) == Ok(Named([], 4));
    assert Walk(c, {}, 0, 0).Ok? && Walk(c, {}, 0, 0).value.tick <= 100;
    assert NamesIn(c, 0, 103, 1) == Ok(Named([], 104));
    assert Walk(c, {}, 0, 100).Ok?;
  }
}
