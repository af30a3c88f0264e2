/** Copying a selected file between two manifests: `_read_contained_regular_file`. */
module ReviewCapture {
  import opened Results
  import opened Utf8
  import opened ReviewWalk

  // --- what the copy does ------------------------------------------------------------------

  datatype ReadError =
    | Late | RootChanged | PathUnsafe | Unavailable | NotRegular | HardLinked | Oversize | BudgetSpent | FileChanged

  const CHUNK: nat := 65_536

  datatype Bytes = Bytes(content: seq<byte>, remaining: nat, tick: nat)

  function Least(a: nat, b: nat): (m: nat)
    ensures m <= a && m <= b && (m == a || m == b)
  {
    if a < b then a else b
  }

  // Chunk by chunk, with the deadline and the byte budget looked at around every read.
  function ReadOn(c: Calls, ino: nat, maximum: nat, content: seq<byte>, remaining: nat, tick: nat)
    : Result<Bytes, ReadError>
    decreases if |content| > maximum then 0 else maximum + 1 - |content|
  {
    if |content| > maximum then Ok(Bytes(content, remaining, tick))
    else if c.expired(tick) then Err(Late)
    else
      var chunk := c.read(tick + 1, ino, |content|, Least(CHUNK, maximum + 1 - |content|));
      if chunk == [] then Ok(Bytes(content, remaining, tick + 2))
      else if c.expired(tick + 2) then Err(Late)
      else if |chunk| > remaining then Err(BudgetSpent)
      else ReadOn(c, ino, maximum, content + chunk, remaining - |chunk|, tick + 3)
  }

  // Opens the directories of the path below `d`, one after the other.
  function Descend(c: Calls, d: nat, parts: seq<string>, tick: nat): Result<nat, ReadError>
    requires parts != []
    decreases |parts|
  {
    if |parts| == 1 then Ok(d)
    else
      match c.openDir(tick, d, parts[0])
      case None => Err(PathUnsafe)
      case Some(child) => Descend(c, child, parts[1..], tick + 1)
  }

  datatype Copy = Copy(content: seq<byte>, mode: nat)

  datatype Captured = Captured(file: Option<Copy>, remaining: nat, tick: nat)

  function CopyOpened(c: Calls, d: nat, name: string, before: Stat, maximum: nat, remaining: nat, tick: nat)
    : Result<Captured, ReadError>
  {
    match c.openFile(tick, d, name)
    case None => Err(PathUnsafe)
    case Some(file) =>
      if !Same(c.fstat(tick + 1, file), before.ino, before.stamp) then Err(FileChanged)
      else
        match ReadOn(c, file, maximum, [], remaining, tick + 2)
        case Err(e) => Err(e)
        case Ok(bytes) =>
          var after := c.fstat(bytes.tick, file);
          var named := c.stat(bytes.tick + 1, d, name);
          if named.None? || |bytes.content| > maximum || !Same(after, before.ino, before.stamp)
             || !Same(named.value, before.ino, before.stamp) then Err(FileChanged)
          else if c.expired(bytes.tick + 2) then Err(Late)
          else if !before.shape.Regular? then Err(NotRegular)
          else Ok(Captured(Some(Copy(bytes.content, before.shape.mode)), bytes.remaining, bytes.tick + 3))
  }

  function CopyNamed(c: Calls, d: nat, name: string, allowMissing: bool, maximum: nat, remaining: nat, tick: nat)
    : Result<Captured, ReadError>
  {
    match c.stat(tick, d, name)
    case None =>
      if c.missing(tick, d, name) && allowMissing then Ok(Captured(None, remaining, tick + 1)) else Err(Unavailable)
    case Some(before) =>
      if before.shape.Symlink? then Err(PathUnsafe)
      else if !before.shape.Regular? then Err(NotRegular)
      else if before.shape.links != 1 then Err(HardLinked)
      else if before.shape.size > maximum then Err(Oversize)
      else if before.shape.size > remaining then Err(BudgetSpent)
      else CopyOpened(c, d, name, before, maximum, remaining, tick + 1)
  }

  function Capture(c: Calls, expected: nat, parts: seq<string>, allowMissing: bool, maximum: nat, remaining: nat,
                   tick: nat)
    : Result<Captured, ReadError>
    requires parts != []
  {
    if c.expired(tick) then Err(Late)
    else
      match c.openRoot(tick + 1)
      case None => Err(RootChanged)
      case Some(root) =>
        var found := c.fstat(tick + 2, root);
        if !found.shape.Directory? || found.ino != expected then Err(RootChanged)
        else
          match Descend(c, root, parts, tick + 3)
          case Err(e) => Err(e)
          case Ok(d) => CopyNamed(c, d, parts[|parts| - 1], allowMissing, maximum, remaining, tick + 2 + |parts|)
  }

  // --- the same, with a budget that is used up ---------------------------------------------------

  /** The cumulative byte budget of one review. */
  class OperationBudget {
    var remainingBytes: nat

    constructor (maximumBytes: nat)
      requires maximumBytes >= 1
      ensures remainingBytes == maximumBytes
    {
      remainingBytes := maximumBytes;
    }

    /** Takes `size` octets if the deadline has not passed and so many are left, else nothing. */
    method Consume(late: bool, size: nat) returns (r: Result<nat, ReadError>)
      modifies this
      ensures r == if late then Err(Late)
                   else if size > old(remainingBytes) then Err(BudgetSpent) else Ok(remainingBytes)
      ensures remainingBytes == if r.Ok? then old(remainingBytes) - size else old(remainingBytes)
    {
      if late {
        return Err(Late);
      }
      if size > remainingBytes {
        return Err(BudgetSpent);
      }
      remainingBytes := remainingBytes - size;
      return Ok(remainingBytes);
    }
  }

  method ReadContent(c: Calls, ino: nat, maximum: nat, tick: nat, budget: OperationBudget)
    returns (r: Result<(seq<byte>, nat), ReadError>)
    modifies budget
    ensures
      match ReadOn(c, ino, maximum, [], old(budget.remainingBytes), tick)
      case Err(e) => r == Err(e)
      case Ok(bytes) => r == Ok((bytes.content, bytes.tick)) && budget.remainingBytes == bytes.remaining
    ensures budget.remainingBytes <= old(budget.remainingBytes)
  {
    var content: seq<byte> := [];
    var now := tick;
    while |content| <= maximum
      invariant now >= 0 && budget.remainingBytes <= old(budget.remainingBytes)
      invariant ReadOn(c, ino, maximum, [], old(budget.remainingBytes), tick)
                == ReadOn(c, ino, maximum, content, budget.remainingBytes, now)
      decreases maximum + 1 - |content|
    {
      if c.expired(now) {
        return Err(Late);
      }
      var chunk := c.read(now + 1, ino, |content|, Least(CHUNK, maximum + 1 - |content|));
      if chunk == [] {
        return Ok((content, now + 2));
      }
      var consumed := budget.Consume(c.expired(now + 2), |chunk|);
      if consumed.Err? {
        return Err(consumed.error);
      }
      content := content + chunk;
      now := now + 3;
    }
    return Ok((content, now));
  }

  method DescendTo(c: Calls, root: nat, parts: seq<string>, tick: nat) returns (r: Result<nat, ReadError>)
    requires parts != []
    ensures r == Descend(c, root, parts, tick)
  {
    var d := root;
    for i := 0 to |parts| - 1
      invariant Descend(c, root, parts, tick) == Descend(c, d, parts[i..], tick + i)
    {
      var next := c.openDir(tick + i, d, parts[i]);
      assert parts[i..][0] == parts[i] && parts[i..][1..] == parts[i + 1..];
      if next.None? {
        return Err(PathUnsafe);
      }
      d := next.value;
    }
    return Ok(d);
  }

  method ReadContainedRegularFile(c: Calls, expected: nat, parts: seq<string>, allowMissing: bool, maximum: nat,
                                  tick: nat,
                                  budget: OperationBudget)
    returns (r: Result<(Option<Copy>, nat), ReadError>)
    requires parts != []
    modifies budget
    ensures
      match Capture(c, expected, parts, allowMissing, maximum, old(budget.remainingBytes), tick)
      case Err(e) => r == Err(e)
      case Ok(captured) => r == Ok((captured.file, captured.tick)) && budget.remainingBytes == captured.remaining
    ensures budget.remainingBytes <= old(budget.remainingBytes)
  {
    if c.expired(tick) {
      return Err(Late);
    }
    var root := c.openRoot(tick + 1);
    if root.None? {
      return Err(RootChanged);
    }
    var found := c.fstat(tick + 2, root.value);
    if !found.shape.Directory? || found.ino != expected {
      return Err(RootChanged);
    }
    var d := DescendTo(c, root.value, parts, tick + 3);
    if d.Err? {
      return Err(d.error);
    }
    r := ReadNamed(c, d.value, parts[|parts| - 1], allowMissing, maximum, tick + 2 + |parts|, budget);
  }

  method ReadNamed(c: Calls, d: nat, name: string, allowMissing: bool, maximum: nat, tick: nat, budget: OperationBudget)
    returns (r: Result<(Option<Copy>, nat), ReadError>)
    modifies budget
    ensures
      match CopyNamed(c, d, name, allowMissing, maximum, old(budget.remainingBytes), tick)
      case Err(e) => r == Err(e)
      case Ok(captured) => r == Ok((captured.file, captured.tick)) && budget.remainingBytes == captured.remaining
    ensures budget.remainingBytes <= old(budget.remainingBytes)
  {
    var looked := c.stat(tick, d, name);
    if looked.None? {
      return if c.missing(tick, d, name) && allowMissing then Ok((None, tick + 1)) else Err(Unavailable);
    }
    var before := looked.value;
    if before.shape.Symlink? {
      return Err(PathUnsafe);
    }
    if !before.shape.Regular? {
      return Err(NotRegular);
    }
    if before.shape.links != 1 {
      return Err(HardLinked);
    }
    if before.shape.size > maximum {
      return Err(Oversize);
    }
    if before.shape.size > budget.remainingBytes {
      return Err(BudgetSpent);
    }
    var file := c.openFile(tick + 1, d, name);
    if file.None? {
      return Err(PathUnsafe);
    }
    if !Same(c.fstat(tick + 2, file.value), before.ino, before.stamp) {
      return Err(FileChanged);
    }
    var bytes := ReadContent(c, file.value, maximum, tick + 3, budget);
    if bytes.Err? {
      return Err(bytes.error);
    }
    var (content, now) := bytes.value;
    var after := c.fstat(now, file.value);
    var named := c.stat(now + 1, d, name);
    if named.None? || |content| > maximum || !Same(after, before.ino, before.stamp)
       || !Same(named.value, before.ino, before.stamp) {
      return Err(FileChanged);
    }
    if c.expired(now + 2) {
      return Err(Late);
    }
    return Ok((Some(Copy(content, before.shape.mode)), now + 3));
  }
}
