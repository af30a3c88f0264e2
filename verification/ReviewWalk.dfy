/** The bounded, descriptor-holding directory walk of `_tree_manifest`. */
module ReviewWalk {
  import opened Results
  import opened Utf8
  import opened ReviewWorld

  const MAX_ENTRIES: nat := 250_000
  const MAX_DEPTH: nat := 64

  // --- system calls ---------------------------------------------------------------------

  datatype Shape = Regular(size: nat, links: nat, mode: nat) | Directory | Symlink | Odd

  datatype Stat = Stat(ino: nat, stamp: nat, shape: Shape)

  /**
   What the n-th system call of a run answers, for every n: no two calls happen at the
   same tick. A directory is named by the inode that its open descriptor refers to.
   */
  datatype Calls = Calls(
    openRoot: nat -> Option<nat>,
    lstatRoot: nat -> Option<Stat>,
    openDir: (nat, nat, string) -> Option<nat>,
    openFile: (nat, nat, string) -> Option<nat>,
    stat: (nat, nat, string) -> Option<Stat>,
    missing: (nat, nat, string) -> bool,        // why that one failed
    fstat: (nat, nat) -> Stat,
    scan: (nat, nat) -> Option<seq<string>>,
    read: (nat, nat, nat, nat) -> seq<byte>,    // tick, inode, position, size
    expired: nat -> bool)                       // the deadline has passed

  // --- the walk as a recursive function ---------------------------------------------------

  datatype WalkError = TimedOut | Changed | EntryLimit | DepthLimit

  /** One line of the manifest; the root has the empty path. */
  datatype Entry = Entry(path: seq<string>, ino: nat, stamp: nat)

  /** A line together with the tick at which its metadata was read. */
  datatype Sighting = Sighting(entry: Entry, tick: nat)

  datatype Place = Place(parent: nat, name: string)

  /** One directory being walked, with its sorted names. */
  datatype Frame = Frame(ino: nat, stamp: nat, prefix: seq<string>, names: seq<string>, place: Option<Place>)

  datatype Walked = Walked(seen: seq<Sighting>, tick: nat)

  predicate Same(s: Stat, ino: nat, stamp: nat) { s.ino == ino && s.stamp == stamp }

  // The names scanned so far are counted against the entries already listed.
  function CountNames(c: Calls, names: nat, i: nat, tick: nat, count: nat): Result<nat, WalkError>
    decreases names - i
  {
    if i >= names then Ok(tick)
    else if c.expired(tick) then Err(TimedOut)
    else if count + i + 1 > MAX_ENTRIES then Err(EntryLimit)
    else CountNames(c, names, i + 1, tick + 1, count)
  }

  datatype Named = Named(names: seq<string>, tick: nat)

  function NamesIn(c: Calls, ino: nat, tick: nat, count: nat): Result<Named, WalkError> {
    match c.scan(tick, ino)
    case None => Err(Changed)
    case Some(names) =>
      var counted := CountNames(c, |names|, 0, tick + 1, count);
      if counted.Err? then Err(counted.error) else Ok(Named(Sort(names), counted.value))
  }

  datatype Entered = Entered(sighting: Sighting, child: Option<Frame>, tick: nat)

  /** One name of a directory: its metadata, and if it is a directory its own frame. */
  function Enter(c: Calls, f: Frame, name: string, tick: nat, count: nat): Result<Entered, WalkError> {
    if count >= MAX_ENTRIES then Err(EntryLimit)
    else if |f.prefix| + 1 > MAX_DEPTH then Err(DepthLimit)
    else
      match c.stat(tick, f.ino, name)
      case None => Err(Changed)
      case Some(before) =>
        var path := f.prefix + [name];
        var sighting := Sighting(Entry(path, before.ino, before.stamp), tick);
        if !before.shape.Directory? then Ok(Entered(sighting, None, tick + 1))
        else
          match c.openDir(tick + 1, f.ino, name)
          case None => Err(Changed)
          case Some(child) =>
            if !Same(c.fstat(tick + 2, child), before.ino, before.stamp) then Err(Changed)
            else
              var named := NamesIn(c, child, tick + 3, count + 1);
              if named.Err? then Err(named.error)
              else
                var g := Frame(child, before.stamp, path, named.value.names, Some(Place(f.ino, name)));
                Ok(Entered(sighting, Some(g), named.value.tick))
  }

  /** A directory is left only if it is still what it was, also under its name. */
  function Leave(c: Calls, f: Frame, tick: nat): Result<nat, WalkError> {
    if !Same(c.fstat(tick, f.ino), f.ino, f.stamp) then Err(Changed)
    else
      match f.place
      case None => Ok(tick + 1)
      case Some(place) =>
        var named := c.stat(tick + 1, place.parent, place.name);
        if named.None? || !Same(named.value, f.ino, f.stamp) then Err(Changed) else Ok(tick + 2)
  }

  function Before(seen: seq<Sighting>, r: Result<Walked, WalkError>): Result<Walked, WalkError> {
    if r.Err? then r else Ok(Walked(seen + r.value.seen, r.value.tick))
  }

  function Room(f: Frame): nat { if |f.prefix| > MAX_DEPTH then 0 else MAX_DEPTH + 1 - |f.prefix| }

  /** Everything below the names from `i` on, in preorder, and the departure. */
  function WalkFrom(c: Calls, skip: set<string>, f: Frame, i: nat, tick: nat, count: nat): Result<Walked, WalkError>
    decreases Room(f), if i <= |f.names| then |f.names| - i + 1 else 0
  {
    if c.expired(tick) then Err(TimedOut)
    else if i >= |f.names| then
      var left := Leave(c, f, tick + 1);
      if left.Err? then Err(left.error) else Ok(Walked([], left.value))
    else if f.prefix == [] && f.names[i] in skip then WalkFrom(c, skip, f, i + 1, tick + 1, count)
    else
      match Enter(c, f, f.names[i], tick + 1, count)
      case Err(e) => Err(e)
      case Ok(entered) =>
        if entered.child.None? then
          Before([entered.sighting], WalkFrom(c, skip, f, i + 1, entered.tick, count + 1))
        else
          match WalkFrom(c, skip, entered.child.value, 0, entered.tick, count + 1)
          case Err(e) => Err(e)
          case Ok(below) =>
            Before([entered.sighting] + below.seen, WalkFrom(c, skip, f, i + 1, below.tick, count + 1 + |below.seen|))
  }

  /** The root is opened, walked and looked at again. */
  function OpenRoot(c: Calls, expected: nat, tick: nat): Result<Entered, WalkError> {
    match c.openRoot(tick)
    case None => Err(Changed)
    case Some(root) =>
      if c.expired(tick + 1) then Err(TimedOut)
      else
        var found := c.fstat(tick + 2, root);
        if !found.shape.Directory? || found.ino != expected then Err(Changed)
        else
          var named := NamesIn(c, root, tick + 3, 1);
          if named.Err? then Err(named.error)
          else
            var sighting := Sighting(Entry([], found.ino, found.stamp), tick + 2);
            Ok(Entered(sighting, Some(Frame(root, found.stamp, [], named.value.names, None)), named.value.tick))
  }

  function Finish(c: Calls, root: Frame, tick: nat): Result<nat, WalkError> {
    if c.expired(tick) then Err(TimedOut)
    else if !Same(c.fstat(tick + 1, root.ino), root.ino, root.stamp) then Err(Changed)
    else
      var named := c.lstatRoot(tick + 2);
      if named.None? || !Same(named.value, root.ino, root.stamp) then Err(Changed) else Ok(tick + 3)
  }

  function Walk(c: Calls, skip: set<string>, expected: nat, tick: nat): Result<Walked, WalkError> {
    match OpenRoot(c, expected, tick)
    case Err(e) => Err(e)
    case Ok(start) =>
      match WalkFrom(c, skip, start.child.value, 0, start.tick, 1)
      case Err(e) => Err(e)
      case Ok(below) =>
        match Finish(c, start.child.value, below.tick)
        case Err(e) => Err(e)
        case Ok(after) => Ok(Walked([start.sighting] + below.seen, after))
  }
}
