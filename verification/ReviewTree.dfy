/** The walk with an explicit stack of frames and open descriptors, and its bounds. */
module ReviewTree {
  import opened Results
  import opened Strings
  import opened ReviewWorld
  import opened ReviewWalk

  // --- descriptors ------------------------------------------------------------------------

  /** The descriptors a process holds; `closes` counts how often each one was closed. */
  class Handles {
    var held: set<nat>
    var next: nat
    ghost var closes: multiset<nat>
    ghost var peak: nat

    constructor ()
      ensures Valid() && held == {} && peak == 0
    {
      held, next, closes, peak := {}, 0, multiset{}, 0;
    }

    /** Every descriptor ever opened is held, or was closed exactly once. */
    ghost predicate Valid() reads this {
      && (forall fd | fd in held :: fd < next)
      && (forall fd: nat :: closes[fd] == if fd < next && fd !in held then 1 else 0)
    }

    method Open() returns (fd: nat)
      requires Valid()
      modifies this
      ensures Valid() && fd !in old(held) && held == old(held) + {fd} && next == old(next) + 1 && fd == old(next)
      ensures peak == if |held| > old(peak) then |held| else old(peak)
    {
      fd := next;
      next := next + 1;
      held := held + {fd};
      peak := if |held| > peak then |held| else peak;
    }

    method Close(fd: nat)
      requires Valid() && fd in held
      modifies this
      ensures Valid() && held == old(held) - {fd} && next == old(next) && peak == old(peak)
      ensures closes == old(closes)[fd := 1]
    {
      held := held - {fd};
      closes := closes[fd := closes[fd] + 1];
    }
  }

  // Beyond `base`, exactly the descriptors in `open` are held, the last opened one last.
  ghost predicate Stacked(held: set<nat>, base: set<nat>, open: seq<nat>)
    decreases |open|
  {
    if open == [] then held == base
    else
      var fd := open[|open| - 1];
      fd in held && fd !in base && Stacked(held - {fd}, base, open[..|open| - 1])
  }

  lemma {:induction false} StackedSize(held: set<nat>, base: set<nat>, open: seq<nat>)
    requires Stacked(held, base, open)
    ensures base <= held && |held| == |base| + |open|
    decreases |open|
  {
    if open != [] {
      var fd := open[|open| - 1];
      StackedSize(held - {fd}, base, open[..|open| - 1]);
      assert held == (held - {fd}) + {fd};
    }
  }

  lemma {:induction false} StackedPush(held: set<nat>, base: set<nat>, open: seq<nat>, fd: nat)
    requires Stacked(held, base, open) && fd !in held
    ensures Stacked(held + {fd}, base, open + [fd])
  {
    StackedSize(held, base, open);
    assert held + {fd} - {fd} == held && (open + [fd])[..|open|] == open;
  }

  ghost predicate Holding(handles: Handles, base: set<nat>, open: seq<nat>) reads handles {
    handles.Valid() && Stacked(handles.held, base, open)
  }

  ghost function High(base: set<nat>, before: nat): nat {
    if |base| + MAX_DEPTH + 1 > before then |base| + MAX_DEPTH + 1 else before
  }

  method OpenOne(handles: Handles, ghost base: set<nat>, open: seq<nat>) returns (more: seq<nat>)
    requires Holding(handles, base, open)
    modifies handles
    ensures Holding(handles, base, more) && |more| == |open| + 1 && more[..|open|] == open
    ensures handles.peak == if |base| + |more| > old(handles.peak) then |base| + |more| else old(handles.peak)
  {
    var fd := handles.Open();
    more := open + [fd];
    StackedPush(old(handles.held), base, open, fd);
    StackedSize(handles.held, base, more);
  }

  method CloseLast(handles: Handles, ghost base: set<nat>, open: seq<nat>)
    requires Holding(handles, base, open) && open != []
    modifies handles
    ensures Holding(handles, base, open[..|open| - 1]) && handles.peak == old(handles.peak)
  {
    handles.Close(open[|open| - 1]);
  }

  /** The `finally` block: whatever is still open is closed. */
  method CloseAll(handles: Handles, ghost base: set<nat>, open: seq<nat>)
    requires Holding(handles, base, open)
    modifies handles
    ensures handles.Valid() && handles.held == base && handles.peak == old(handles.peak)
  {
    var left := open;
    while left != []
      invariant Holding(handles, base, left) && handles.peak == old(handles.peak)
      decreases |left|
    {
      CloseLast(handles, base, left);
      left := left[..|left| - 1];
    }
  }

  // --- names, one at a time ---------------------------------------------------------------

  method ReadNames(c: Calls, ino: nat, tick: nat, count: nat) returns (r: Result<Named, WalkError>)
    ensures r == NamesIn(c, ino, tick, count)
  {
    var names := c.scan(tick, ino);
    if names.None? {
      return Err(Changed);
    }
    var now, i := tick + 1, 0;
    while i < |names.value|
      invariant 0 <= i <= |names.value| && now >= 0
      invariant CountNames(c, |names.value|, 0, tick + 1, count) == CountNames(c, |names.value|, i, now, count)
    {
      if c.expired(now) {
        return Err(TimedOut);
      }
      if count + i + 1 > MAX_ENTRIES {
        return Err(EntryLimit);
      }
      now, i := now + 1, i + 1;
    }
    return Ok(Named(Sort(names.value), now));
  }

  /** One name; a directory stays open even if entering it fails later on. */
  method EnterName(c: Calls, f: Frame, name: string, tick: nat, count: nat,
                   handles: Handles, ghost base: set<nat>, open: seq<nat>)
    returns (r: Result<Entered, WalkError>, more: seq<nat>)
    requires Holding(handles, base, open) && |open| == |f.prefix| + 1
    modifies handles
    ensures r == Enter(c, f, name, tick, count)
    ensures Holding(handles, base, more) && |more| <= |open| + 1
    ensures r.Ok? ==> |more| == if r.value.child.Some? then |open| + 1 else |open|
    ensures handles.peak <= High(base, old(handles.peak))
  {
    more := open;
    if count >= MAX_ENTRIES {
      return Err(EntryLimit), more;
    }
    if |f.prefix| + 1 > MAX_DEPTH {
      return Err(DepthLimit), more;
    }
    var before := c.stat(tick, f.ino, name);
    if before.None? {
      return Err(Changed), more;
    }
    var path := f.prefix + [name];
    var sighting := Sighting(Entry(path, before.value.ino, before.value.stamp), tick);
    if !before.value.shape.Directory? {
      return Ok(Entered(sighting, None, tick + 1)), more;
    }
    var child := c.openDir(tick + 1, f.ino, name);
    if child.None? {
      return Err(Changed), more;
    }
    more := OpenOne(handles, base, open);
    if !Same(c.fstat(tick + 2, child.value), before.value.ino, before.value.stamp) {
      return Err(Changed), more;
    }
    var named := ReadNames(c, child.value, tick + 3, count + 1);
    if named.Err? {
      return Err(named.error), more;
    }
    var place := Place(f.ino, name);
    var frame := Frame(child.value, before.value.stamp, path, named.value.names, Some(place));
    return Ok(Entered(sighting, Some(frame), named.value.tick)), more;
  }

  // --- the stack of frames ----------------------------------------------------------------

  /** A frame and the index of its next name. */
  datatype Active = Active(frame: Frame, index: nat)

  type Walker = (Active, nat, nat) -> Result<Walked, WalkError>

  function WalkerOf(c: Calls, skip: set<string>): Walker {
    (a: Active, tick: nat, count: nat) => WalkFrom(c, skip, a.frame, a.index, tick, count)
  }

  // What a stack of frames still has to find, from the top down.
  function Resume(walk: Walker, stack: seq<Active>, tick: nat, count: nat): Result<Walked, WalkError>
    decreases |stack|
  {
    if stack == [] then Ok(Walked([], tick))
    else
      match walk(stack[|stack| - 1], tick, count)
      case Err(e) => Err(e)
      case Ok(w) => Before(w.seen, Resume(walk, stack[..|stack| - 1], w.tick, count + |w.seen|))
  }

  lemma {:induction false} BeforeTwice(a: seq<Sighting>, b: seq<Sighting>, r: Result<Walked, WalkError>)
    ensures Before(a, Before(b, r)) == Before(a + b, r)
  {
    if r.Ok? { assert a + (b + r.value.seen) == a + b + r.value.seen; }
  }

  lemma {:induction false} BeforeNothing(r: Result<Walked, WalkError>)
    ensures Before([], r) == r
  {
    if r.Ok? { assert [] + r.value.seen == r.value.seen; }
  }

  lemma {:induction false} ResumeTop(walk: Walker, rest: seq<Active>, top: Active, tick: nat, count: nat)
    ensures Resume(walk, rest + [top], tick, count) ==
      match walk(top, tick, count)
      case Err(e) => Err(e)
      case Ok(w) => Before(w.seen, Resume(walk, rest, w.tick, count + |w.seen|))
  {
    assert (rest + [top])[..|rest|] == rest;
  }

  // The top frame goes on as `next` after some sightings.
  lemma {:induction false} ResumeNext(walk: Walker, rest: seq<Active>, top: Active, next: Active, seen: seq<Sighting>,
                                      tick: nat, after: nat, count: nat)
    requires walk(top, tick, count) == Before(seen, walk(next, after, count + |seen|))
    ensures Resume(walk, rest + [top], tick, count) == Before(seen, Resume(walk, rest + [next], after, count + |seen|))
  {
    ResumeTop(walk, rest, top, tick, count);
    ResumeTop(walk, rest, next, after, count + |seen|);
    var w := walk(next, after, count + |seen|);
    if w.Ok? {
      BeforeTwice(seen, w.value.seen, Resume(walk, rest, w.value.tick, count + |seen| + |w.value.seen|));
    }
  }

  // The top frame waits for a child, and goes on as `next` after it.
  lemma {:induction false} ResumeChild(walk: Walker, rest: seq<Active>, top: Active, next: Active, child: Active,
                                       seen: seq<Sighting>, tick: nat, after: nat, count: nat)
    requires walk(top, tick, count) ==
      match walk(child, after, count + |seen|)
      case Err(e) => Err(e)
      case Ok(below) => Before(seen + below.seen, walk(next, below.tick, count + |seen| + |below.seen|))
    ensures Resume(walk, rest + [top], tick, count) ==
              Before(seen, Resume(walk, rest + [next] + [child], after, count + |seen|))
  {
    ResumeTop(walk, rest, top, tick, count);
    ResumeTop(walk, rest + [next], child, after, count + |seen|);
    var below := walk(child, after, count + |seen|);
    if below.Ok? {
      var n := count + |seen| + |below.value.seen|;
      ResumeTop(walk, rest, next, below.value.tick, n);
      BeforeTwice(seen, below.value.seen, Resume(walk, rest + [next], below.value.tick, n));
      var w := walk(next, below.value.tick, n);
      if w.Ok? {
        BeforeTwice(seen + below.value.seen, w.value.seen, Resume(walk, rest, w.value.tick, n + |w.value.seen|));
      }
    }
  }

  // --- one step of the loop -----------------------------------------------------------------

  // The stack's prefixes grow by one, and each frame has read at most all its names.
  ghost predicate Nested(stack: seq<Active>) {
    && |stack| <= MAX_DEPTH + 1
    && forall i | 0 <= i < |stack| :: |stack[i].frame.prefix| == i && stack[i].index <= |stack[i].frame.names|
  }

  // Names and departures still to come, with room for every entry still allowed.
  ghost function Ahead(stack: seq<Active>): nat
    decreases |stack|
  {
    if stack == [] then 0
    else
      var top := stack[|stack| - 1];
      Ahead(stack[..|stack| - 1]) + (if top.index <= |top.frame.names| then |top.frame.names| - top.index + 1 else 1)
  }

  lemma {:induction false} AheadPush(rest: seq<Active>, top: Active)
    requires top.index <= |top.frame.names|
    ensures Ahead(rest + [top]) == Ahead(rest) + |top.frame.names| - top.index + 1
  {
    assert (rest + [top])[..|rest|] == rest;
  }

  lemma {:induction false} CountNamesBound(c: Calls, names: nat, i: nat, tick: nat, count: nat)
    requires CountNames(c, names, i, tick, count).Ok? && count + i <= MAX_ENTRIES
    ensures i <= names ==> count + names <= MAX_ENTRIES
    decreases names - i
  {
    if i < names { CountNamesBound(c, names, i + 1, tick + 1, count); }
  }

  lemma {:induction false} SortLength(names: seq<string>)
    ensures |Sort(names)| == |names|
  {
    if names != [] {
      SortLength(names[1..]);
      InsertLength(names[0], Sort(names[1..]));
    }
  }

  lemma {:induction false} InsertLength(name: string, sorted: seq<string>)
    ensures |Insert(name, sorted)| == |sorted| + 1
  {
    if sorted != [] && Less(sorted[0], name) { InsertLength(name, sorted[1..]); }
  }

  lemma {:induction false} EnterBounds(c: Calls, f: Frame, name: string, tick: nat, count: nat)
    requires Enter(c, f, name, tick, count).Ok?
    ensures
      var child := Enter(c, f, name, tick, count).value.child;
      && count < MAX_ENTRIES && |f.prefix| < MAX_DEPTH
      && (child.Some? ==> |child.value.names| <= MAX_ENTRIES && |child.value.prefix| == |f.prefix| + 1)
  {
    var e := Enter(c, f, name, tick, count).value;
    if e.child.Some? { NamesBound(c, e.child.value.ino, tick + 3, count + 1); }
  }

  lemma {:induction false} NamesBound(c: Calls, ino: nat, tick: nat, count: nat)
    requires NamesIn(c, ino, tick, count).Ok? && count <= MAX_ENTRIES
    ensures count + |NamesIn(c, ino, tick, count).value.names| <= MAX_ENTRIES
  {
    var names := c.scan(tick, ino).value;
    CountNamesBound(c, |names|, 0, tick + 1, count);
    SortLength(names);
  }

  datatype Machine = Machine(stack: seq<Active>, seen: seq<Sighting>, tick: nat)

  // What the machine stands for, and that its numbers are within bounds.
  ghost predicate Running(walk: Walker, m: Machine, whole: Result<Walked, WalkError>) {
    && whole == Before(m.seen, Resume(walk, m.stack, m.tick, |m.seen|))
    && |m.seen| <= MAX_ENTRIES && Nested(m.stack)
  }

  ghost function Measure(m: Machine): int {
    (MAX_ENTRIES - |m.seen|) * (MAX_ENTRIES + 3) + Ahead(m.stack)
  }

  lemma {:induction false} MeasureDrops(count: nat, names: nat)
    requires count < MAX_ENTRIES && names <= MAX_ENTRIES
    ensures (MAX_ENTRIES - (count + 1)) * (MAX_ENTRIES + 3) + names + 1 < (MAX_ENTRIES - count) * (MAX_ENTRIES + 3)
  {
  }

  lemma {:induction false} NestedTop(rest: seq<Active>, top: Active)
    requires Nested(rest + [top])
    ensures Nested(rest) && |top.frame.prefix| == |rest| && top.index <= |top.frame.names| && |rest| <= MAX_DEPTH
  {
    var stack := rest + [top];
    assert stack[|rest|] == top;
    forall i | 0 <= i < |rest| ensures |rest[i].frame.prefix| == i && rest[i].index <= |rest[i].frame.names| {
      assert stack[i] == rest[i];
    }
  }

  lemma {:induction false} NestedPush(rest: seq<Active>, top: Active)
    requires Nested(rest) && |top.frame.prefix| == |rest| <= MAX_DEPTH && top.index <= |top.frame.names|
    ensures Nested(rest + [top])
  {
  }

  // The top frame goes on after at most one sighting.
  lemma {:induction false} GoNext(walk: Walker, m: Machine, rest: seq<Active>, top: Active, after: Active,
                                  seen: seq<Sighting>, tick: nat, whole: Result<Walked, WalkError>)
    requires m.stack == rest + [top] && Running(walk, m, whole)
    requires after == Active(top.frame, top.index + 1) && after.index <= |top.frame.names|
    requires |seen| <= 1 && |m.seen| + |seen| <= MAX_ENTRIES
    requires walk(top, m.tick, |m.seen|) == Before(seen, walk(after, tick, |m.seen| + |seen|))
    ensures
      var next := Machine(rest + [after], m.seen + seen, tick);
      Running(walk, next, whole) && 0 <= Measure(next) < Measure(m)
  {
    NestedTop(rest, top);
    NestedPush(rest, after);
    AheadPush(rest, top);
    AheadPush(rest, after);
    if seen != [] { MeasureDrops(|m.seen|, 0); }
    ResumeNext(walk, rest, top, after, seen, m.tick, tick, |m.seen|);
    BeforeTwice(m.seen, seen, Resume(walk, rest + [after], tick, |m.seen| + |seen|));
  }

  // The top frame waits for a child.
  lemma {:induction false} GoChild(walk: Walker, m: Machine, rest: seq<Active>, top: Active, after: Active,
                                   child: Active,
                                   first: Sighting, tick: nat, whole: Result<Walked, WalkError>)
    requires m.stack == rest + [top] && Running(walk, m, whole)
    requires after == Active(top.frame, top.index + 1) && after.index <= |top.frame.names|
    requires child.index == 0 && |child.frame.prefix| == |top.frame.prefix| + 1 <= MAX_DEPTH
    requires |child.frame.names| <= MAX_ENTRIES && |m.seen| < MAX_ENTRIES
    requires walk(top, m.tick, |m.seen|) ==
      match walk(child, tick, |m.seen| + 1)
      case Err(e) => Err(e)
      case Ok(below) => Before([first] + below.seen, walk(after, below.tick, |m.seen| + 1 + |below.seen|))
    ensures
      var next := Machine(rest + [after] + [child], m.seen + [first], tick);
      Running(walk, next, whole) && 0 <= Measure(next) < Measure(m)
  {
    NestedTop(rest, top);
    NestedPush(rest, after);
    NestedPush(rest + [after], child);
    AheadPush(rest, top);
    AheadPush(rest, after);
    AheadPush(rest + [after], child);
    MeasureDrops(|m.seen|, |child.frame.names|);
    ResumeChild(walk, rest, top, after, child, [first], m.tick, tick, |m.seen|);
    BeforeTwice(m.seen, [first], Resume(walk, rest + [after] + [child], tick, |m.seen| + 1));
  }

  lemma {:induction false} GoUp(walk: Walker, m: Machine, rest: seq<Active>, top: Active, tick: nat,
                                whole: Result<Walked, WalkError>)
    requires m.stack == rest + [top] && Running(walk, m, whole)
    requires walk(top, m.tick, |m.seen|) == Ok(Walked([], tick))
    ensures
      var next := Machine(rest, m.seen, tick);
      Running(walk, next, whole) && 0 <= Measure(next) < Measure(m)
  {
    NestedTop(rest, top);
    AheadPush(rest, top);
    ResumeTop(walk, rest, top, m.tick, |m.seen|);
    BeforeNothing(Resume(walk, rest, tick, |m.seen|));
  }

  lemma {:induction false} GoWrong(walk: Walker, m: Machine, rest: seq<Active>, top: Active,
                                   whole: Result<Walked, WalkError>, e: WalkError)
    requires m.stack == rest + [top] && Running(walk, m, whole) && walk(top, m.tick, |m.seen|) == Err(e)
    ensures whole == Err(e)
  {
    ResumeTop(walk, rest, top, m.tick, |m.seen|);
  }

  // --- the five ways to go on, as equations of the recursion -------------------------------------

  ghost predicate Skipped(skip: set<string>, top: Active)
    requires top.index < |top.frame.names|
  {
    top.frame.prefix == [] && top.frame.names[top.index] in skip
  }

  lemma {:induction false} WalkUp(c: Calls, skip: set<string>, top: Active, tick: nat, count: nat)
    requires !c.expired(tick) && top.index >= |top.frame.names|
    ensures WalkerOf(c, skip)(top, tick, count) ==
      match Leave(c, top.frame, tick + 1)
      case Err(e) => Err(e)
      case Ok(after) => Ok(Walked([], after))
  {
  }

  lemma {:induction false} WalkSkip(c: Calls, skip: set<string>, top: Active, tick: nat, count: nat)
    requires !c.expired(tick) && top.index < |top.frame.names| && Skipped(skip, top)
    ensures WalkerOf(c, skip)(top, tick, count) ==
              Before([], WalkerOf(c, skip)(Active(top.frame, top.index + 1), tick + 1, count))
  {
    BeforeNothing(WalkFrom(c, skip, top.frame, top.index + 1, tick + 1, count));
  }

  lemma {:induction false} WalkEnter(c: Calls, skip: set<string>, top: Active, tick: nat, count: nat)
    requires !c.expired(tick) && top.index < |top.frame.names| && !Skipped(skip, top)
    ensures
      var walk, after := WalkerOf(c, skip), Active(top.frame, top.index + 1);
      walk(top, tick, count) ==
        match Enter(c, top.frame, top.frame.names[top.index], tick + 1, count)
        case Err(e) => Err(e)
        case Ok(entered) =>
          if entered.child.None? then Before([entered.sighting], walk(after, entered.tick, count + 1))
          else
            match walk(Active(entered.child.value, 0), entered.tick, count + 1)
            case Err(e) => Err(e)
            case Ok(below) =>
              Before([entered.sighting] + below.seen, walk(after, below.tick, count + 1 + |below.seen|))
  {
  }

  // --- the loop --------------------------------------------------------------------------------

  // Each frame has its descriptor open; the root's stays open after the last frame.
  ghost predicate Open(m: Machine, open: seq<nat>) { |open| == if m.stack == [] then 1 else |m.stack| }

  method StepUp(c: Calls, ghost skip: set<string>, m: Machine, rest: seq<Active>, top: Active,
                handles: Handles, ghost base: set<nat>, open: seq<nat>, ghost whole: Result<Walked, WalkError>)
    returns (r: Result<Machine, WalkError>, left: seq<nat>)
    requires m.stack == rest + [top] && Running(WalkerOf(c, skip), m, whole)
    requires !c.expired(m.tick) && top.index >= |top.frame.names|
    requires Holding(handles, base, open) && Open(m, open)
    modifies handles
    ensures Holding(handles, base, left) && handles.peak == old(handles.peak)
    ensures r.Err? ==> whole == Err(r.error)
    ensures r.Ok? ==>
      Running(WalkerOf(c, skip), r.value, whole) && 0 <= Measure(r.value) < Measure(m) && Open(r.value, left)
  {
    left := open;
    WalkUp(c, skip, top, m.tick, |m.seen|);
    var after := Leave(c, top.frame, m.tick + 1);
    if after.Err? {
      GoWrong(WalkerOf(c, skip), m, rest, top, whole, after.error);
      return Err(after.error), left;
    }
    GoUp(WalkerOf(c, skip), m, rest, top, after.value, whole);
    if rest != [] {
      CloseLast(handles, base, left);
      left := left[..|left| - 1];
    }
    return Ok(Machine(rest, m.seen, after.value)), left;
  }

  method StepSkip(c: Calls, ghost skip: set<string>, m: Machine, rest: seq<Active>, top: Active,
                  ghost whole: Result<Walked, WalkError>)
    returns (r: Machine)
    requires m.stack == rest + [top] && Running(WalkerOf(c, skip), m, whole)
    requires !c.expired(m.tick) && top.index < |top.frame.names| && Skipped(skip, top)
    ensures |r.stack| == |m.stack| && Running(WalkerOf(c, skip), r, whole) && 0 <= Measure(r) < Measure(m)
  {
    WalkSkip(c, skip, top, m.tick, |m.seen|);
    r := Machine(rest + [Active(top.frame, top.index + 1)], m.seen, m.tick + 1);
    GoNext(WalkerOf(c, skip), m, rest, top, Active(top.frame, top.index + 1), [], m.tick + 1, whole);
    assert m.seen + [] == m.seen;
  }

  method StepEnter(c: Calls, ghost skip: set<string>, m: Machine, rest: seq<Active>, top: Active,
                   handles: Handles, ghost base: set<nat>, open: seq<nat>, ghost whole: Result<Walked, WalkError>)
    returns (r: Result<Machine, WalkError>, left: seq<nat>)
    requires m.stack == rest + [top] && Running(WalkerOf(c, skip), m, whole)
    requires !c.expired(m.tick) && top.index < |top.frame.names| && !Skipped(skip, top)
    requires Holding(handles, base, open) && Open(m, open)
    modifies handles
    ensures Holding(handles, base, left) && handles.peak <= High(base, old(handles.peak))
    ensures r.Err? ==> whole == Err(r.error)
    ensures r.Ok? ==>
      Running(WalkerOf(c, skip), r.value, whole) && 0 <= Measure(r.value) < Measure(m) && Open(r.value, left)
  {
    NestedTop(rest, top);
    EnterSteps(c, skip, m, rest, top, whole);
    var e;
    e, left := EnterName(c, top.frame, top.frame.names[top.index], m.tick + 1, |m.seen|, handles, base, open);
    return if e.Err? then Err(e.error) else Ok(After(m, rest, top, e.value)), left;
  }

  function After(m: Machine, rest: seq<Active>, top: Active, e: Entered): Machine {
    var on := rest + [Active(top.frame, top.index + 1)];
    Machine(if e.child.None? then on else on + [Active(e.child.value, 0)], m.seen + [e.sighting], e.tick)
  }

  lemma {:induction false} EnterSteps(c: Calls, skip: set<string>, m: Machine, rest: seq<Active>, top: Active,
                                      whole: Result<Walked, WalkError>)
    requires m.stack == rest + [top] && Running(WalkerOf(c, skip), m, whole)
    requires !c.expired(m.tick) && top.index < |top.frame.names| && !Skipped(skip, top)
    ensures
      match Enter(c, top.frame, top.frame.names[top.index], m.tick + 1, |m.seen|)
      case Err(e) => whole == Err(e)
      case Ok(e) =>
        var next := After(m, rest, top, e);
        Running(WalkerOf(c, skip), next, whole) && 0 <= Measure(next) < Measure(m)
  {
    var walk := WalkerOf(c, skip);
    WalkEnter(c, skip, top, m.tick, |m.seen|);
    var r := Enter(c, top.frame, top.frame.names[top.index], m.tick + 1, |m.seen|);
    if r.Err? {
      GoWrong(walk, m, rest, top, whole, r.error);
    } else {
      EnterBounds(c, top.frame, top.frame.names[top.index], m.tick + 1, |m.seen|);
      EnterGoes(walk, m, rest, top, r.value, whole);
    }
  }

  lemma {:induction false} EnterGoes(walk: Walker, m: Machine, rest: seq<Active>, top: Active, e: Entered,
                                     whole: Result<Walked, WalkError>)
    requires m.stack == rest + [top] && Running(walk, m, whole) && top.index < |top.frame.names|
    requires |m.seen| < MAX_ENTRIES && |top.frame.prefix| < MAX_DEPTH
    requires e.child.Some? ==> |e.child.value.names| <= MAX_ENTRIES && |e.child.value.prefix| == |top.frame.prefix| + 1
    requires
      var after := Active(top.frame, top.index + 1);
      walk(top, m.tick, |m.seen|) ==
        if e.child.None? then Before([e.sighting], walk(after, e.tick, |m.seen| + 1))
        else
          match walk(Active(e.child.value, 0), e.tick, |m.seen| + 1)
          case Err(e) => Err(e)
          case Ok(below) => Before([e.sighting] + below.seen, walk(after, below.tick, |m.seen| + 1 + |below.seen|))
    ensures var next := After(m, rest, top, e); Running(walk, next, whole) && 0 <= Measure(next) < Measure(m)
  {
    var after := Active(top.frame, top.index + 1);
    if e.child.None? {
      GoNext(walk, m, rest, top, after, [e.sighting], e.tick, whole);
    } else {
      GoChild(walk, m, rest, top, after, Active(e.child.value, 0), e.sighting, e.tick, whole);
    }
  }

  /** The loop finds what the recursion finds; the root stays open until the end. */
  method WalkStack(c: Calls, skip: set<string>, root: Frame, first: Sighting, tick: nat,
                   handles: Handles, ghost base: set<nat>, open: seq<nat>)
    returns (r: Result<Walked, WalkError>, left: seq<nat>)
    requires Holding(handles, base, open) && |open| == 1 && root.prefix == []
    modifies handles
    ensures r == Before([first], WalkerOf(c, skip)(Active(root, 0), tick, 1))
    ensures r.Ok? ==> |r.value.seen| <= MAX_ENTRIES
    ensures Holding(handles, base, left) && handles.peak <= High(base, old(handles.peak))
  {
    ghost var walk := WalkerOf(c, skip);
    ghost var whole := Before([first], walk(Active(root, 0), tick, 1));
    var m := Machine([Active(root, 0)], [first], tick);
    left := open;
    RunningStart(walk, root, first, tick);
    while m.stack != []
      invariant Running(walk, m, whole) && Measure(m) >= 0
      invariant Holding(handles, base, left) && Open(m, left)
      invariant handles.peak <= High(base, old(handles.peak))
      decreases Measure(m)
    {
      var n := |m.stack| - 1;
      var top, rest := m.stack[n], m.stack[..n];
      assert m.stack == rest + [top];
      if c.expired(m.tick) {
        GoWrong(walk, m, rest, top, whole, TimedOut);
        return Err(TimedOut), left;
      }
      var next: Result<Machine, WalkError>;
      if top.index >= |top.frame.names| {
        next, left := StepUp(c, skip, m, rest, top, handles, base, left, whole);
      } else if top.frame.prefix == [] && top.frame.names[top.index] in skip {
        var skipped := StepSkip(c, skip, m, rest, top, whole);
        next := Ok(skipped);
      } else {
        next, left := StepEnter(c, skip, m, rest, top, handles, base, left, whole);
      }
      if next.Err? {
        return Err(next.error), left;
      }
      m := next.value;
    }
    assert m.seen + [] == m.seen;
    return Ok(Walked(m.seen, m.tick)), left;
  }

  lemma {:induction false} ResumeOne(walk: Walker, top: Active, tick: nat, count: nat)
    ensures Resume(walk, [top], tick, count) == walk(top, tick, count)
  {
    assert [] + [top] == [top];
    ResumeTop(walk, [], top, tick, count);
    var w := walk(top, tick, count);
    if w.Ok? { assert w.value.seen + [] == w.value.seen; }
  }

  lemma {:induction false} MeasureStart(root: Frame, first: Sighting, tick: nat)
    ensures Measure(Machine([Active(root, 0)], [first], tick)) >= 0
  {
  }

  lemma {:induction false} RunningStart(walk: Walker, root: Frame, first: Sighting, tick: nat)
    requires root.prefix == []
    ensures
      var m := Machine([Active(root, 0)], [first], tick);
      Running(walk, m, Before([first], walk(Active(root, 0), tick, 1))) && Measure(m) >= 0
  {
    ResumeOne(walk, Active(root, 0), tick, 1);
    MeasureStart(root, first, tick);
  }

  // The body of the `try` block, with the root descriptor open.
  method WalkOpened(c: Calls, skip: set<string>, expected: nat, root: nat, tick: nat,
                    handles: Handles, ghost base: set<nat>, open: seq<nat>)
    returns (r: Result<Walked, WalkError>, left: seq<nat>)
    requires c.openRoot(tick) == Some(root) && Holding(handles, base, open) && |open| == 1
    modifies handles
    ensures r == Walk(c, skip, expected, tick)
    ensures r.Ok? ==> |r.value.seen| <= MAX_ENTRIES
    ensures Holding(handles, base, left) && handles.peak <= High(base, old(handles.peak))
  {
    if c.expired(tick + 1) {
      return Err(TimedOut), open;
    }
    var found := c.fstat(tick + 2, root);
    if !found.shape.Directory? || found.ino != expected {
      return Err(Changed), open;
    }
    var named := ReadNames(c, root, tick + 3, 1);
    if named.Err? {
      return Err(named.error), open;
    }
    var first := Sighting(Entry([], found.ino, found.stamp), tick + 2);
    var frame := Frame(root, found.stamp, [], named.value.names, None);
    var walked;
    walked, left := WalkStack(c, skip, frame, first, named.value.tick, handles, base, open);
    if walked.Err? {
      return Err(walked.error), left;
    }
    var after := Finish(c, frame, walked.value.tick);
    if after.Err? {
      return Err(after.error), left;
    }
    return Ok(Walked(walked.value.seen, after.value)), left;
  }

  /**
   The manifest is what the recursive walk lists; it has at most MAX_ENTRIES lines. At
   most 65 more descriptors than before are ever held, and on every exit all of them
   have been closed, each exactly once.
   */
  method TreeManifest(c: Calls, skip: set<string>, expected: nat, tick: nat, handles: Handles)
    returns (r: Result<Walked, WalkError>)
    requires handles.Valid()
    modifies handles
    ensures r == Walk(c, skip, expected, tick)
    ensures r.Ok? ==> |r.value.seen| <= MAX_ENTRIES
    ensures handles.Valid() && handles.held == old(handles.held)
    ensures handles.peak <= High(old(handles.held), old(handles.peak))
  {
    var root := c.openRoot(tick);
    if root.None? {
      return Err(Changed);
    }
    ghost var base := handles.held;
    var open := OpenOne(handles, base, []);
    var left;
    r, left := WalkOpened(c, skip, expected, root.value, tick, handles, base, open);
    CloseAll(handles, base, left);
  }
}
