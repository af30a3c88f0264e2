/**
 Reading back a directory of parts and a framed snapshot, for any layout of names,
 headers and framing: the loops of `verify_export`.
 */
module ExportFraming {
  import opened Results
  import opened Utf8
  import opened ExportFormat

  // How one export names its parts and frames its files.
  datatype Layout = Layout(
    name: (nat, nat) -> string,               // part index and part count
    header: (nat, nat, nat) -> seq<byte>,     // the same, and the payload offset
    prelude: seq<byte>,
    opening: Entry -> seq<byte>,
    closing: seq<byte>,
    ending: seq<byte>,
    decodes: seq<byte> -> bool)               // strict UTF-8 decoding succeeds

  ghost predicate LayoutOk(l: Layout) {
    && l.closing != []
    && (forall i: nat, c: nat | i <= MAX_PARTS && c <= MAX_PARTS :: SafePath(l.name(i, c)) && '/' !in l.name(i, c))
    && (forall i: nat, j: nat, c: nat | i <= MAX_PARTS && j <= MAX_PARTS :: l.name(i, c) == l.name(j, c) ==> i == j)
  }

  // --- framed snapshots -------------------------------------------------------

  function Frame(l: Layout, e: Entry, payload: seq<byte>): seq<byte> {
    l.opening(e) + payload + l.closing
  }

  function FrameSize(l: Layout, e: Entry, payload: seq<byte>): nat {
    |l.opening(e)| + |payload| + |l.closing|
  }

  /** The frames of the first `n` files. */
  function Frames(l: Layout, files: seq<Entry>, payloads: seq<seq<byte>>, n: nat): seq<byte>
    requires n <= |files| && n <= |payloads|
  {
    if n == 0 then [] else Frames(l, files, payloads, n - 1) + Frame(l, files[n - 1], payloads[n - 1])
  }

  function Framed(l: Layout, files: seq<Entry>, payloads: seq<seq<byte>>): seq<byte>
    requires |files| == |payloads|
  {
    l.prelude + Frames(l, files, payloads, |files|) + l.ending
  }

  /** The joined first `n` chunks, and their length. */
  function Flat(chunks: seq<seq<byte>>, n: nat): seq<byte>
    requires n <= |chunks|
  {
    if n == 0 then [] else Flat(chunks, n - 1) + chunks[n - 1]
  }

  function Total(chunks: seq<seq<byte>>, n: nat): nat
    requires n <= |chunks|
  {
    if n == 0 then 0 else Total(chunks, n - 1) + |chunks[n - 1]|
  }

  lemma {:induction false} TotalGrows(chunks: seq<seq<byte>>, n: nat, k: nat)
    requires n <= k <= |chunks|
    ensures Total(chunks, n) <= Total(chunks, k)
  {
    if n < k { TotalGrows(chunks, n, k - 1); }
  }

  predicate Agree(a: seq<seq<byte>>, b: seq<seq<byte>>, n: nat) {
    n <= |a| && n <= |b| && forall j | 0 <= j < n :: a[j] == b[j]
  }

  lemma {:induction false} SameTotal(a: seq<seq<byte>>, b: seq<seq<byte>>, n: nat)
    requires Agree(a, b, n)
    ensures Total(a, n) == Total(b, n)
  {
    if n > 0 { SameTotal(a, b, n - 1); }
  }

  // --- reading the parts --------------------------------------------------------

  // Part k of the directory holds its header and this chunk.
  predicate PartOk(t: Tools, dir: map<string, seq<byte>>, m: Manifest, l: Layout,
                   k: nat, offset: nat, chunk: seq<byte>)
  {
    && k < |m.parts|
    && var part := m.parts[k];
    && var header := l.header(k + 1, |m.parts|, offset);
    && part.name == l.name(k + 1, |m.parts|)
    && part.name in dir
    && dir[part.name] == header + chunk && chunk != []
    && |dir[part.name]| <= m.maxPartBytes && l.decodes(dir[part.name])
    && |dir[part.name]| == part.bytes && t.digest(dir[part.name]) == part.sha256
    && part.headerBytes == |header| && part.payloadOffset == offset
  }

  // Each of the first `n` chunks is accepted at the offset where the previous ones end.
  ghost predicate Chained(ok: (nat, nat, seq<byte>) -> bool, chunks: seq<seq<byte>>, n: nat)
    requires n <= |chunks|
  {
    n == 0 || (Chained(ok, chunks, n - 1) && ok(n - 1, Total(chunks, n - 1), chunks[n - 1]))
  }

  ghost predicate Functional(ok: (nat, nat, seq<byte>) -> bool) {
    forall k: nat, o: nat, a: seq<byte>, b: seq<byte> :: ok(k, o, a) && ok(k, o, b) ==> a == b
  }

  lemma {:induction false} SameChained(ok: (nat, nat, seq<byte>) -> bool,
                                       a: seq<seq<byte>>, b: seq<seq<byte>>, n: nat)
    requires Agree(a, b, n) && Chained(ok, a, n)
    ensures Chained(ok, b, n)
  {
    if n > 0 {
      SameChained(ok, a, b, n - 1);
      SameTotal(a, b, n - 1);
    }
  }

  lemma {:induction false} ChainedNext(ok: (nat, nat, seq<byte>) -> bool, chunks: seq<seq<byte>>, chunk: seq<byte>)
    requires Chained(ok, chunks, |chunks|) && ok(|chunks|, Total(chunks, |chunks|), chunk)
    ensures Chained(ok, chunks + [chunk], |chunks| + 1)
    ensures Total(chunks + [chunk], |chunks| + 1) == Total(chunks, |chunks|) + |chunk|
  {
    SameChained(ok, chunks, chunks + [chunk], |chunks|);
    SameTotal(chunks, chunks + [chunk], |chunks|);
  }

  lemma {:induction false} ChainedUnique(ok: (nat, nat, seq<byte>) -> bool,
                                         chunks: seq<seq<byte>>, other: seq<seq<byte>>, k: nat)
    requires k <= |chunks| && k <= |other|
    requires Functional(ok) && Chained(ok, chunks, k) && Chained(ok, other, k)
    ensures Agree(other, chunks, k)
  {
    if k > 0 {
      ChainedUnique(ok, chunks, other, k - 1);
      SameTotal(other, chunks, k - 1);
    }
  }

  lemma {:induction false} ChainedPrefix(ok: (nat, nat, seq<byte>) -> bool, chunks: seq<seq<byte>>, k: nat, n: nat)
    requires k <= n <= |chunks| && Chained(ok, chunks, n)
    ensures Chained(ok, chunks, k)
    ensures k < n ==> ok(k, Total(chunks, k), chunks[k])
  {
    if k < n { ChainedPrefix(ok, chunks, k, n - 1); }
  }

  ghost function Accepts(t: Tools, dir: map<string, seq<byte>>, m: Manifest, l: Layout): (nat, nat, seq<byte>) -> bool {
    (k: nat, offset: nat, chunk: seq<byte>) => PartOk(t, dir, m, l, k, offset, chunk)
  }

  ghost predicate PartsHold(t: Tools, dir: map<string, seq<byte>>, m: Manifest, l: Layout, chunks: seq<seq<byte>>) {
    && |chunks| <= |m.parts|
    && Total(chunks, |chunks|) <= MAX_SNAPSHOT_BYTES
    && Chained(Accepts(t, dir, m, l), chunks, |chunks|)
  }

  method ReadPart(t: Tools, dir: map<string, seq<byte>>, m: Manifest, l: Layout, k: nat, offset: nat)
    returns (r: Option<seq<byte>>)
    requires LayoutOk(l) && k < |m.parts| <= MAX_PARTS
    ensures r.Some? ==> PartOk(t, dir, m, l, k, offset, r.value)
    ensures r.None? ==> forall chunk :: !PartOk(t, dir, m, l, k, offset, chunk)
  {
    var part := m.parts[k];
    if !SafePath(part.name) || '/' in part.name || part.name != l.name(k + 1, |m.parts|) {
      return None;
    }
    if part.name !in dir || |dir[part.name]| > m.maxPartBytes {
      return None;
    }
    var raw := dir[part.name];
    if !l.decodes(raw) || raw == [] || |raw| != part.bytes || t.digest(raw) != part.sha256 {
      return None;
    }
    var header := l.header(k + 1, |m.parts|, offset);
    if part.headerBytes != |header| || part.payloadOffset != offset || !(header <= raw) {
      return None;
    }
    var payload := raw[|header|..];
    assert raw == header + payload;
    if payload == [] {
      forall chunk | raw == header + chunk ensures chunk == [] {
        assert chunk == raw[|header|..];
      }
      return None;
    }
    return Some(payload);
  }

  // The file system gives each name one content, so there is one way to read on.
  lemma {:induction false} PartUnique(t: Tools, dir: map<string, seq<byte>>, m: Manifest, l: Layout, k: nat,
                                      offset: nat,
                   a: seq<byte>, b: seq<byte>)
    requires PartOk(t, dir, m, l, k, offset, a) && PartOk(t, dir, m, l, k, offset, b)
    ensures a == b
  {
    var header := l.header(k + 1, |m.parts|, offset);
    assert a == (header + a)[|header|..];
    assert b == (header + b)[|header|..];
  }

  lemma {:induction false} AcceptsFunctional(t: Tools, dir: map<string, seq<byte>>, m: Manifest, l: Layout)
    ensures Functional(Accepts(t, dir, m, l))
  {
    forall k: nat, o: nat, a: seq<byte>, b: seq<byte> |
      PartOk(t, dir, m, l, k, o, a) && PartOk(t, dir, m, l, k, o, b)
      ensures a == b
    {
      PartUnique(t, dir, m, l, k, o, a, b);
    }
  }

  // Every complete reading continues the chunks read so far.
  lemma {:induction false} PartsContinue(t: Tools, dir: map<string, seq<byte>>, m: Manifest, l: Layout,
                      chunks: seq<seq<byte>>, other: seq<seq<byte>>)
    requires PartsHold(t, dir, m, l, chunks) && PartsHold(t, dir, m, l, other)
    requires |chunks| < |other|
    ensures Accepts(t, dir, m, l)(|chunks|, Total(chunks, |chunks|), other[|chunks|])
    ensures Total(chunks, |chunks|) + |other[|chunks|]| <= MAX_SNAPSHOT_BYTES
  {
    var k := |chunks|;
    AcceptsFunctional(t, dir, m, l);
    ChainedPrefix(Accepts(t, dir, m, l), other, k, |other|);
    ChainedUnique(Accepts(t, dir, m, l), chunks, other, k);
    SameTotal(other, chunks, k);
    TotalGrows(other, k + 1, |other|);
  }

  // Every name seen so far is that of one of the first `n` parts.
  ghost predicate NamesSeen(l: Layout, count: nat, seen: set<string>, n: nat) {
    forall name | name in seen :: NamesPart(l, count, name, n)
  }

  ghost predicate NamesPart(l: Layout, count: nat, name: string, n: nat) {
    exists j: nat :: 0 < j <= n && name == l.name(j, count)
  }

  lemma {:induction false} NameUnseen(l: Layout, count: nat, seen: set<string>, k: nat)
    requires LayoutOk(l) && k < count <= MAX_PARTS && NamesSeen(l, count, seen, k)
    ensures l.name(k + 1, count) !in seen
    ensures NamesSeen(l, count, seen + {l.name(k + 1, count)}, k + 1)
  {
    var own := l.name(k + 1, count);
    assert !NamesPart(l, count, own, k);
    forall name | name in seen + {own} ensures NamesPart(l, count, name, k + 1) {
      if name in seen { assert NamesPart(l, count, name, k); }
    }
  }

  /** The parts are read exactly when one sequence of chunks explains all of them. */
  method ReadParts(t: Tools, dir: map<string, seq<byte>>, m: Manifest, l: Layout)
    returns (r: Option<seq<seq<byte>>>)
    requires LayoutOk(l) && |m.parts| <= MAX_PARTS
    ensures r.Some? ==> |r.value| == |m.parts| && PartsHold(t, dir, m, l, r.value)
    ensures r.None? ==> forall chunks | PartsHold(t, dir, m, l, chunks) :: |chunks| < |m.parts|
  {
    var seen: set<string> := {};
    var chunks: seq<seq<byte>> := [];
    var offset := 0;
    while |chunks| < |m.parts|
      invariant |chunks| <= |m.parts| && offset == Total(chunks, |chunks|)
      invariant PartsHold(t, dir, m, l, chunks)
      invariant NamesSeen(l, |m.parts|, seen, |chunks|)
    {
      var k := |chunks|;
      forall other | PartsHold(t, dir, m, l, other) && |other| == |m.parts|
        ensures PartOk(t, dir, m, l, k, offset, other[k]) && offset + |other[k]| <= MAX_SNAPSHOT_BYTES
      {
        PartsContinue(t, dir, m, l, chunks, other);
      }
      NameUnseen(l, |m.parts|, seen, k);
      if m.parts[k].name in seen {
        return None;
      }
      var chunk := ReadPart(t, dir, m, l, k, offset);
      if chunk.None? {
        return None;
      }
      forall other | PartsHold(t, dir, m, l, other) && |other| == |m.parts| ensures other[k] == chunk.value {
        PartUnique(t, dir, m, l, k, offset, other[k], chunk.value);
      }
      if offset + |chunk.value| > MAX_SNAPSHOT_BYTES {
        return None;
      }
      ChainedNext(Accepts(t, dir, m, l), chunks, chunk.value);
      assert m.parts[k].name == l.name(k + 1, |m.parts|);
      seen := seen + {m.parts[k].name};
      chunks := chunks + [chunk.value];
      offset := offset + |chunk.value|;
    }
    return Some(chunks);
  }

  // --- parsing the frames ---------------------------------------------------------

  predicate PayloadOk(t: Tools, l: Layout, e: Entry, payload: seq<byte>) {
    && l.decodes(payload)
    && |payload| == e.bytes && t.digest(payload) == e.sha256
    && 0 !in payload && !t.secret(payload)
  }

  ghost predicate Parsed(t: Tools, l: Layout, files: seq<Entry>, snapshot: seq<byte>, payloads: seq<seq<byte>>) {
    && |payloads| == |files|
    && snapshot == Framed(l, files, payloads)
    && (forall i | 0 <= i < |payloads| :: PayloadOk(t, l, files[i], payloads[i]))
  }

  // Python's slice: clamped at the end.
  function Slice(s: seq<byte>, low: nat, size: nat): (r: seq<byte>)
    ensures |r| <= size && (r != [] ==> low + |r| <= |s| && r == s[low..low + |r|])
  {
    if low >= |s| then [] else if low + size <= |s| then s[low..low + size] else s[low..]
  }

  /** `x` stands in `s` at `low`. */
  predicate At(s: seq<byte>, low: nat, x: seq<byte>) {
    low + |x| <= |s| && s[low..low + |x|] == x
  }

  lemma {:induction false} AtConcat(s: seq<byte>, low: nat, x: seq<byte>, y: seq<byte>)
    ensures At(s, low, x + y) <==> At(s, low, x) && At(s, low + |x|, y)
  {
    if low + |x| + |y| <= |s| {
      assert s[low..low + |x + y|] == s[low..low + |x|] + s[low + |x|..low + |x| + |y|];
      if At(s, low, x + y) {
        assert x == (x + y)[..|x|] && y == (x + y)[|x|..];
        assert s[low..low + |x|] == s[low..low + |x + y|][..|x|];
        assert s[low + |x|..low + |x| + |y|] == s[low..low + |x + y|][|x|..];
      }
    }
  }

  lemma {:induction false} AtThree(s: seq<byte>, low: nat, x: seq<byte>, y: seq<byte>, z: seq<byte>)
    ensures At(s, low, x + y + z) <==> At(s, low, x) && At(s, low + |x|, y) && At(s, low + |x| + |y|, z)
  {
    AtConcat(s, low, x + y, z);
    AtConcat(s, low, x, y);
  }

  // The payload at `start`, if it is acceptable and framed as it should be.
  function FrameIn(ok: seq<byte> -> bool, header: seq<byte>, closing: seq<byte>, size: nat, s: seq<byte>, start: nat)
    : Option<seq<byte>>
  {
    if Slice(s, start, |header|) != header then None
    else
      var payload := Slice(s, start + |header|, size);
      if !ok(payload) then None
      else if Slice(s, start + |header| + |payload|, |closing|) != closing then None
      else Some(payload)
  }

  lemma {:induction false} SliceAt(s: seq<byte>, low: nat, x: seq<byte>)
    requires low + |x| <= |s| || x != []
    ensures Slice(s, low, |x|) == x <==> At(s, low, x)
  {
  }

  lemma {:induction false} ThreeSlices(s: seq<byte>, low: nat, x: seq<byte>, y: seq<byte>, z: seq<byte>)
    requires z != []
    ensures Slice(s, low, |x|) == x && Slice(s, low + |x|, |y|) == y && Slice(s, low + |x| + |y|, |z|) == z <==>
              At(s, low, x) && At(s, low + |x|, y) && At(s, low + |x| + |y|, z)
  {
    SliceAt(s, low + |x| + |y|, z);
    if At(s, low + |x| + |y|, z) {
      SliceAt(s, low, x);
      SliceAt(s, low + |x|, y);
    }
  }

  lemma {:induction false} FrameInIff(ok: seq<byte> -> bool, header: seq<byte>, closing: seq<byte>, size: nat,
                                      s: seq<byte>, start: nat, payload: seq<byte>)
    requires closing != [] && (ok(payload) ==> |payload| == size)
    ensures FrameIn(ok, header, closing, size, s, start) == Some(payload) <==>
              ok(payload) && At(s, start, header + payload + closing)
  {
    AtThree(s, start, header, payload, closing);
    ThreeSlices(s, start, header, payload, closing);
    if ok(payload) {
      assert |payload| == size;
    }
  }

  function Checks(t: Tools, l: Layout, e: Entry): seq<byte> -> bool {
    (payload: seq<byte>) => PayloadOk(t, l, e, payload)
  }

  // A negative size would slice nothing and never match.
  function FrameAt(t: Tools, l: Layout, e: Entry, s: seq<byte>, start: nat): Option<seq<byte>> {
    if e.bytes < 0 then None else FrameIn(Checks(t, l, e), l.opening(e), l.closing, e.bytes, s, start)
  }

  lemma {:induction false} FrameAtIff(t: Tools, l: Layout, e: Entry, s: seq<byte>, start: nat, payload: seq<byte>)
    requires l.closing != []
    ensures FrameAt(t, l, e, s, start) == Some(payload) <==>
              PayloadOk(t, l, e, payload) && At(s, start, Frame(l, e, payload))
  {
    if e.bytes >= 0 {
      FrameInIff(Checks(t, l, e), l.opening(e), l.closing, e.bytes, s, start, payload);
    }
  }

  // --- a scan, for any reader of one frame ------------------------------------------

  datatype Reader = Reader(
    read: (nat, nat) -> Option<seq<byte>>,   // the frame with this number, at this cursor
    size: (nat, seq<byte>) -> nat,           // and how far it reaches
    finish: nat -> bool)

  // What the loop still finds from `cursor` on, after the payloads in `done`.
  function Scan(r: Reader, count: nat, cursor: nat, done: seq<seq<byte>>): Option<seq<seq<byte>>>
    decreases count - |done|
  {
    if |done| >= count then (if r.finish(cursor) then Some(done) else None)
    else
      match r.read(|done|, cursor)
      case None => None
      case Some(payload) => Scan(r, count, cursor + r.size(|done|, payload), done + [payload])
  }

  // Exactly the payloads that `ok` accepts are read.
  ghost predicate ReadsBy(r: Reader, ok: (nat, nat, seq<byte>) -> bool) {
    forall i: nat, cursor: nat, payload: seq<byte> :: r.read(i, cursor) == Some(payload) <==> ok(i, cursor, payload)
  }

  function Cursor(size: (nat, seq<byte>) -> nat, start: nat, payloads: seq<seq<byte>>, n: nat): nat
    requires n <= |payloads|
  {
    if n == 0 then start else Cursor(size, start, payloads, n - 1) + size(n - 1, payloads[n - 1])
  }

  // The first `n` payloads are accepted one after the other.
  ghost predicate Follow(ok: (nat, nat, seq<byte>) -> bool, size: (nat, seq<byte>) -> nat, start: nat,
                         payloads: seq<seq<byte>>, n: nat)
    requires n <= |payloads|
  {
    n == 0 || (&& Follow(ok, size, start, payloads, n - 1)
               && ok(n - 1, Cursor(size, start, payloads, n - 1), payloads[n - 1]))
  }

  lemma {:induction false} SameFollow(ok: (nat, nat, seq<byte>) -> bool, size: (nat, seq<byte>) -> nat, start: nat,
                                      a: seq<seq<byte>>, b: seq<seq<byte>>, n: nat)
    requires Agree(a, b, n)
    ensures Cursor(size, start, a, n) == Cursor(size, start, b, n)
    ensures Follow(ok, size, start, a, n) == Follow(ok, size, start, b, n)
  {
    if n > 0 { SameFollow(ok, size, start, a, b, n - 1); }
  }

  lemma {:induction false} FollowPrefix(ok: (nat, nat, seq<byte>) -> bool, size: (nat, seq<byte>) -> nat, start: nat,
                                        payloads: seq<seq<byte>>, k: nat, n: nat)
    requires k < n <= |payloads| && Follow(ok, size, start, payloads, n)
    ensures ok(k, Cursor(size, start, payloads, k), payloads[k])
  {
    if k < n - 1 { FollowPrefix(ok, size, start, payloads, k, n - 1); }
  }

  lemma {:induction false} FollowNext(ok: (nat, nat, seq<byte>) -> bool, size: (nat, seq<byte>) -> nat, start: nat,
                                      done: seq<seq<byte>>, payload: seq<byte>)
    requires Follow(ok, size, start, done, |done|) && ok(|done|, Cursor(size, start, done, |done|), payload)
    ensures
      var longer := done + [payload];
      && Follow(ok, size, start, longer, |done| + 1)
      && Cursor(size, start, longer, |done| + 1) == Cursor(size, start, done, |done|) + size(|done|, payload)
  {
    SameFollow(ok, size, start, done, done + [payload], |done|);
  }

  lemma {:induction false} ScanSound(r: Reader, ok: (nat, nat, seq<byte>) -> bool, count: nat, start: nat,
                                     cursor: nat, done: seq<seq<byte>>, result: seq<seq<byte>>)
    requires ReadsBy(r, ok) && Scan(r, count, cursor, done) == Some(result)
    requires |done| <= count && Follow(ok, r.size, start, done, |done|) && cursor == Cursor(r.size, start, done, |done|)
    ensures |result| == count && Follow(ok, r.size, start, result, count)
    ensures r.finish(Cursor(r.size, start, result, count))
    decreases count - |done|
  {
    if |done| < count {
      var payload := r.read(|done|, cursor).value;
      assert ok(|done|, cursor, payload);
      FollowNext(ok, r.size, start, done, payload);
      ScanSound(r, ok, count, start, cursor + r.size(|done|, payload), done + [payload], result);
    }
  }

  lemma {:induction false} ScanComplete(r: Reader, ok: (nat, nat, seq<byte>) -> bool, count: nat, start: nat,
                                        cursor: nat, done: seq<seq<byte>>, result: seq<seq<byte>>)
    requires ReadsBy(r, ok) && |done| <= count == |result|
    requires Agree(done, result, |done|) && cursor == Cursor(r.size, start, result, |done|)
    requires Follow(ok, r.size, start, result, count) && r.finish(Cursor(r.size, start, result, count))
    ensures Scan(r, count, cursor, done) == Some(result)
    decreases count - |done|
  {
    if |done| < count {
      var payload := result[|done|];
      FollowPrefix(ok, r.size, start, result, |done|, count);
      ScanComplete(r, ok, count, start, cursor + r.size(|done|, payload), done + [payload], result);
    } else {
      assert done == result;
    }
  }

  /** A scan from the start finds exactly what is accepted through to the end. */
  lemma {:induction false} ScanExact(r: Reader, ok: (nat, nat, seq<byte>) -> bool, count: nat, start: nat,
                                     result: seq<seq<byte>>)
    requires ReadsBy(r, ok)
    ensures Scan(r, count, start, []) == Some(result) <==>
              && |result| == count && Follow(ok, r.size, start, result, count)
              && r.finish(Cursor(r.size, start, result, count))
  {
    if Scan(r, count, start, []) == Some(result) {
      ScanSound(r, ok, count, start, start, [], result);
    }
    if |result| == count && Follow(ok, r.size, start, result, count) && r.finish(Cursor(r.size, start, result, count)) {
      ScanComplete(r, ok, count, start, start, [], result);
    }
  }

  ghost predicate Payloads(t: Tools, l: Layout, files: seq<Entry>, payloads: seq<seq<byte>>, n: nat) {
    && n <= |files| && n <= |payloads|
    && forall i | 0 <= i < n :: PayloadOk(t, l, files[i], payloads[i])
  }

  // The same, piece by piece.
  ghost predicate Placed(t: Tools, l: Layout, files: seq<Entry>, s: seq<byte>, payloads: seq<seq<byte>>) {
    && |payloads| == |files|
    && At(s, 0, l.prelude)
    && At(s, |l.prelude|, Frames(l, files, payloads, |files|))
    && At(s, |l.prelude| + |Frames(l, files, payloads, |files|)|, l.ending)
    && |s| == |l.prelude| + |Frames(l, files, payloads, |files|)| + |l.ending|
    && Payloads(t, l, files, payloads, |files|)
  }

  lemma {:induction false} ParsedPlaced(t: Tools, l: Layout, files: seq<Entry>, payloads: seq<seq<byte>>, s: seq<byte>)
    ensures Parsed(t, l, files, s, payloads) <==> Placed(t, l, files, s, payloads)
  {
    if |payloads| == |files| {
      var frames := Frames(l, files, payloads, |files|);
      AtConcat(s, 0, l.prelude + frames, l.ending);
      AtConcat(s, 0, l.prelude, frames);
      WholeAt(s, l.prelude + frames + l.ending);
    }
  }

  lemma {:induction false} WholeAt(s: seq<byte>, x: seq<byte>)
    ensures s == x <==> At(s, 0, x) && |s| == |x|
  {
    assert s[0..|s|] == s;
  }

  function FrameReader(t: Tools, l: Layout, files: seq<Entry>, s: seq<byte>): Reader {
    Reader(FrameRead(t, l, files, s), FrameSizes(l, files), EndsAt(s, l.ending))
  }

  function FrameRead(t: Tools, l: Layout, files: seq<Entry>, s: seq<byte>): (nat, nat) -> Option<seq<byte>> {
    (i: nat, cursor: nat) => if i < |files| then FrameAt(t, l, files[i], s, cursor) else None
  }

  function EndsAt(s: seq<byte>, ending: seq<byte>): nat -> bool {
    (cursor: nat) => cursor <= |s| && s[cursor..] == ending
  }

  function FrameSizes(l: Layout, files: seq<Entry>): (nat, seq<byte>) -> nat {
    (i: nat, payload: seq<byte>) => if i < |files| then FrameSize(l, files[i], payload) else 0
  }

  function FrameOk(t: Tools, l: Layout, files: seq<Entry>, s: seq<byte>): (nat, nat, seq<byte>) -> bool {
    (i: nat, cursor: nat, payload: seq<byte>) =>
      i < |files| && PayloadOk(t, l, files[i], payload) && At(s, cursor, Frame(l, files[i], payload))
  }

  lemma {:induction false} FrameReads(t: Tools, l: Layout, files: seq<Entry>, s: seq<byte>)
    requires l.closing != []
    ensures ReadsBy(FrameReader(t, l, files, s), FrameOk(t, l, files, s))
  {
    forall i: nat, cursor: nat, payload: seq<byte>
      ensures FrameReader(t, l, files, s).read(i, cursor) == Some(payload) <==>
                FrameOk(t, l, files, s)(i, cursor, payload)
    {
      if i < |files| { FrameAtIff(t, l, files[i], s, cursor, payload); }
    }
  }

  lemma {:induction false} CursorIs(l: Layout, files: seq<Entry>, payloads: seq<seq<byte>>, n: nat)
    requires n <= |files| && n <= |payloads|
    ensures Cursor(FrameSizes(l, files), |l.prelude|, payloads, n) == |l.prelude| + |Frames(l, files, payloads, n)|
  {
    if n > 0 { CursorIs(l, files, payloads, n - 1); }
  }

  // One more frame is followed, stands and is acceptable, all at the same condition.
  ghost predicate Step(follow: nat -> bool, whole: nat -> bool, all: nat -> bool, piece: nat -> bool, good: nat -> bool,
                       k: nat) {
    && (follow(k + 1) <==> follow(k) && good(k) && piece(k))
    && (whole(k + 1) <==> whole(k) && piece(k))
    && (all(k + 1) <==> all(k) && good(k))
  }

  lemma {:induction false} Telescope(follow: nat -> bool, whole: nat -> bool, all: nat -> bool,
                                     piece: nat -> bool, good: nat -> bool, n: nat)
    requires follow(0) && whole(0) && all(0)
    requires forall k: nat | k < n :: Step(follow, whole, all, piece, good, k)
    ensures follow(n) <==> whole(n) && all(n)
  {
    if n > 0 {
      Telescope(follow, whole, all, piece, good, n - 1);
      assert Step(follow, whole, all, piece, good, n - 1);
    }
  }

  ghost predicate FramesStand(s: seq<byte>, l: Layout, files: seq<Entry>, payloads: seq<seq<byte>>, k: nat) {
    k <= |files| && k <= |payloads| && At(s, |l.prelude|, Frames(l, files, payloads, k))
  }

  ghost predicate FrameStands(s: seq<byte>, l: Layout, files: seq<Entry>, payloads: seq<seq<byte>>, k: nat) {
    && k < |files| && k < |payloads|
    && At(s, |l.prelude| + |Frames(l, files, payloads, k)|, Frame(l, files[k], payloads[k]))
  }

  ghost predicate FrameFine(t: Tools, l: Layout, files: seq<Entry>, payloads: seq<seq<byte>>, k: nat) {
    k < |files| && k < |payloads| && PayloadOk(t, l, files[k], payloads[k])
  }

  ghost predicate FollowTo(t: Tools, l: Layout, files: seq<Entry>, s: seq<byte>, payloads: seq<seq<byte>>, k: nat) {
    k <= |payloads| && Follow(FrameOk(t, l, files, s), FrameSizes(l, files), |l.prelude|, payloads, k)
  }

  lemma {:induction false} StandStep(s: seq<byte>, l: Layout, files: seq<Entry>, payloads: seq<seq<byte>>, k: nat)
    requires k < |files| && k < |payloads|
    ensures FramesStand(s, l, files, payloads, k + 1) <==>
              FramesStand(s, l, files, payloads, k) && FrameStands(s, l, files, payloads, k)
  {
    AtConcat(s, |l.prelude|, Frames(l, files, payloads, k), Frame(l, files[k], payloads[k]));
  }

  lemma {:induction false} FollowStep(t: Tools, l: Layout, files: seq<Entry>, s: seq<byte>, payloads: seq<seq<byte>>,
                                      k: nat)
    requires k < |files| && k < |payloads|
    ensures FollowTo(t, l, files, s, payloads, k + 1) <==>
      && FollowTo(t, l, files, s, payloads, k) && FrameFine(t, l, files, payloads, k)
      && FrameStands(s, l, files, payloads, k)
  {
    CursorIs(l, files, payloads, k);
  }

  lemma {:induction false} FollowFrames(t: Tools, l: Layout, files: seq<Entry>, s: seq<byte>, payloads: seq<seq<byte>>)
    requires |files| == |payloads| && |l.prelude| <= |s|
    ensures FollowTo(t, l, files, s, payloads, |files|) <==>
      FramesStand(s, l, files, payloads, |files|) && Payloads(t, l, files, payloads, |files|)
  {
    var follow := (k: nat) => FollowTo(t, l, files, s, payloads, k);
    var whole := (k: nat) => FramesStand(s, l, files, payloads, k);
    var all := (k: nat) => Payloads(t, l, files, payloads, k);
    var piece := (k: nat) => FrameStands(s, l, files, payloads, k);
    var good := (k: nat) => FrameFine(t, l, files, payloads, k);
    forall k: nat | k < |files| ensures Step(follow, whole, all, piece, good, k) {
      StandStep(s, l, files, payloads, k);
      FollowStep(t, l, files, s, payloads, k);
    }
    Telescope(follow, whole, all, piece, good, |files|);
  }

  lemma {:induction false} EndingAt(s: seq<byte>, low: nat, ending: seq<byte>)
    requires low <= |s|
    ensures s[low..] == ending <==> At(s, low, ending) && |s| == low + |ending|
  {
    if |s| == low + |ending| { assert s[low..low + |ending|] == s[low..]; }
  }

  lemma {:induction false} FollowPlaced(t: Tools, l: Layout, files: seq<Entry>, s: seq<byte>, payloads: seq<seq<byte>>)
    requires l.prelude <= s && |payloads| == |files|
    ensures
      var low := Cursor(FrameSizes(l, files), |l.prelude|, payloads, |files|);
      && Follow(FrameOk(t, l, files, s), FrameSizes(l, files), |l.prelude|, payloads, |files|)
      && EndsAt(s, l.ending)(low)
      <==>
        Placed(t, l, files, s, payloads)
  {
    FollowFrames(t, l, files, s, payloads);
    CursorIs(l, files, payloads, |files|);
    var low := |l.prelude| + |Frames(l, files, payloads, |files|)|;
    if low <= |s| { EndingAt(s, low, l.ending); }
  }

  /** Scanning behind the prelude finds exactly the files of which this is a printing. */
  lemma {:induction false} ParseExact(t: Tools, l: Layout, files: seq<Entry>, s: seq<byte>, payloads: seq<seq<byte>>)
    requires l.prelude <= s && l.closing != []
    ensures Scan(FrameReader(t, l, files, s), |files|, |l.prelude|, []) == Some(payloads) <==>
              Parsed(t, l, files, s, payloads)
  {
    ParsedPlaced(t, l, files, payloads, s);
    FrameReads(t, l, files, s);
    ScanExact(FrameReader(t, l, files, s), FrameOk(t, l, files, s), |files|, |l.prelude|, payloads);
    if |payloads| == |files| {
      FollowPlaced(t, l, files, s, payloads);
    }
  }

  method ScanLoop(r: Reader, count: nat, start: nat) returns (result: Option<seq<seq<byte>>>)
    ensures result == Scan(r, count, start, [])
  {
    var cursor := start;
    var payloads: seq<seq<byte>> := [];
    while |payloads| < count
      invariant |payloads| <= count && cursor >= 0
      invariant Scan(r, count, start, []) == Scan(r, count, cursor, payloads)
    {
      var payload := r.read(|payloads|, cursor);
      if payload.None? {
        return None;
      }
      cursor := cursor + r.size(|payloads|, payload.value);
      payloads := payloads + [payload.value];
    }
    return if r.finish(cursor) then Some(payloads) else None;
  }

  /** The frames are parsed exactly when the snapshot is a printing of these files. */
  method ParseFrames(t: Tools, l: Layout, files: seq<Entry>, snapshot: seq<byte>)
    returns (r: Option<seq<seq<byte>>>)
    requires l.closing != []
    ensures forall payloads :: r == Some(payloads) <==> Parsed(t, l, files, snapshot, payloads)
  {
    if !(l.prelude <= snapshot) {
      forall other ensures !Parsed(t, l, files, snapshot, other) {
        ParsedPlaced(t, l, files, other, snapshot);
      }
      return None;
    }
    forall other
      ensures Scan(FrameReader(t, l, files, snapshot), |files|, |l.prelude|, []) == Some(other) <==>
                Parsed(t, l, files, snapshot, other)
    {
      ParseExact(t, l, files, snapshot, other);
    }
    r := ScanLoop(FrameReader(t, l, files, snapshot), |files|, |l.prelude|);
  }
}
