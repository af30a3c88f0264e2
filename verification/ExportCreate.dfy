/** Collecting an inventory, printing it into parts, and the round trip. */
module ExportCreate {
  import opened Results
  import opened Utf8
  import opened ExportFormat
  import opened ExportSplit
  import opened ExportFraming
  import opened ExportCodec

  // --- the inventory ------------------------------------------------------------

  datatype Source = Regular(raw: seq<byte>, executable: bool) | Absent | Broken

  datatype Candidate = Candidate(path: string, origin: string, source: Source)

  datatype Inventory = Inventory(gitCommit: string, files: seq<Entry>, sourceBytes: nat, inventorySha256: string)

  // The file is exported; otherwise it is listed as excluded, with a reason.
  predicate Kept(t: Tools, c: Candidate) {
    && !t.excluded(c.path) && c.source.Regular?
    && Valid(c.source.raw) && 0 !in c.source.raw && !t.secret(c.source.raw)
  }

  function EntryOf(t: Tools, c: Candidate): Entry
    requires Kept(t, c)
  {
    Entry(c.path, c.origin, |c.source.raw|, t.digest(c.source.raw), if c.source.executable then 0x1ED else 0x1A4)
  }

  function KeptOf(t: Tools, selected: seq<Candidate>, n: nat): (kept: seq<Candidate>)
    requires n <= |selected|
    ensures forall i | 0 <= i < |kept| :: Kept(t, kept[i])
  {
    if n == 0 then []
    else KeptOf(t, selected, n - 1) + if Kept(t, selected[n - 1]) then [selected[n - 1]] else []
  }

  predicate FoldDistinct(t: Tools, files: seq<Entry>) {
    forall i, j | 0 <= i < j < |files| :: Fold(t, files[i].path) != Fold(t, files[j].path)
  }

  predicate Sound(t: Tools, e: Entry, payload: seq<byte>) {
    && Valid(payload) && |payload| == e.bytes && t.digest(payload) == e.sha256
    && 0 !in payload && !t.secret(payload)
  }

  ghost predicate Collected(t: Tools, files: seq<Entry>, payloads: seq<seq<byte>>) {
    && |payloads| == |files|
    && (forall i | 0 <= i < |files| :: EntryOk(t, files[i]))
    && (forall i | 0 <= i < |files| :: Sound(t, files[i], payloads[i]))
    && FoldDistinct(t, files)
  }

  /** What `source_inventory` establishes about an inventory and its payloads. */
  ghost predicate Admissible(t: Tools, inventory: Inventory, payloads: seq<seq<byte>>) {
    && CommitId(inventory.gitCommit)
    && 0 < |inventory.files| <= MAX_FILES
    && Collected(t, inventory.files, payloads)
    && inventory.sourceBytes == Total(payloads, |payloads|) <= MAX_SNAPSHOT_BYTES
    && inventory.inventorySha256 == t.digest(t.canonicalFiles(inventory.files))
  }

  lemma {:induction false} CollectedNext(t: Tools, files: seq<Entry>, payloads: seq<seq<byte>>, c: Candidate)
    requires Collected(t, files, payloads) && Kept(t, c)
    requires SafePath(c.path) && |c.source.raw| <= MAX_FILE_BYTES
    requires forall i | 0 <= i < |files| :: Fold(t, files[i].path) != Fold(t, c.path)
    ensures Collected(t, files + [EntryOf(t, c)], payloads + [c.source.raw])
  {
    assert EntryOk(t, EntryOf(t, c)) && Sound(t, EntryOf(t, c), c.source.raw);
  }

  // What the loop has collected after some candidates; `kept` lists those exported.
  datatype Progress = Progress(kept: seq<Candidate>, files: seq<Entry>, payloads: seq<seq<byte>>, seen: set<string>,
                               total: nat)

  /** The candidate by itself is no reason to refuse the whole inventory. */
  predicate CandidateOk(t: Tools, c: Candidate, explicit: set<string>) {
    && (!t.excluded(c.path) ==> !c.source.Broken? && (c.source.Regular? ==> |c.source.raw| <= MAX_FILE_BYTES))
    && (c.path in explicit ==> Kept(t, c))
  }

  function Advance(t: Tools, c: Candidate, p: Progress): Progress {
    var seen := p.seen + {Fold(t, c.path)};
    if Kept(t, c) then
      Progress(p.kept + [c], p.files + [EntryOf(t, c)], p.payloads + [c.source.raw], seen, p.total + |c.source.raw|)
    else p.(seen := seen)
  }

  predicate MayAdvance(t: Tools, c: Candidate, explicit: set<string>, p: Progress) {
    && Fold(t, c.path) !in p.seen && CandidateOk(t, c, explicit)
    && (Kept(t, c) ==> p.total + |c.source.raw| <= MAX_SNAPSHOT_BYTES)
  }

  method Consider(t: Tools, c: Candidate, explicit: set<string>, p: Progress) returns (r: Option<Progress>)
    ensures r == if MayAdvance(t, c, explicit, p) then Some(Advance(t, c, p)) else None
  {
    if Fold(t, c.path) in p.seen {
      return None;
    }
    var seen := p.seen + {Fold(t, c.path)};
    var exclude := t.excluded(c.path);
    if !exclude {
      if c.source.Broken? || (c.source.Regular? && |c.source.raw| > MAX_FILE_BYTES) {
        return None;
      }
      exclude := c.source.Absent? || !Valid(c.source.raw) || 0 in c.source.raw || t.secret(c.source.raw);
    }
    if exclude {
      return if c.path in explicit then None else Some(p.(seen := seen));
    }
    if p.total + |c.source.raw| > MAX_SNAPSHOT_BYTES {
      return None;
    }
    var raw := c.source.raw;
    var e := Entry(c.path, c.origin, |raw|, t.digest(raw), if c.source.executable then 0x1ED else 0x1A4);
    return Some(Progress(p.kept + [c], p.files + [e], p.payloads + [raw], seen, p.total + |raw|));
  }

  // The progress is about exactly the first `n` candidates.
  ghost predicate Tracks(t: Tools, selected: seq<Candidate>, n: nat, p: Progress) {
    && n <= |selected|
    && Seen(t, selected, n, p.seen)
    && p.kept == KeptOf(t, selected, n) && Listed(t, p) && |p.files| <= n
    && p.total == KeptSize(t, selected, n)
  }

  ghost predicate Seen(t: Tools, selected: seq<Candidate>, n: nat, seen: set<string>)
    requires n <= |selected|
  {
    && (forall name | name in seen :: exists i :: 0 <= i < n && name == Fold(t, selected[i].path))
    && (forall i | 0 <= i < n :: Fold(t, selected[i].path) in seen)
  }

  /** The entry and its payload are those of the candidate. */
  predicate Describes(e: Entry, payload: seq<byte>, c: Candidate) {
    && e.path == c.path && e.origin == c.origin
    && c.source.Regular? && payload == c.source.raw
    && (e.mode == 0x1ED <==> c.source.executable)
  }

  // An entry was made of each of these candidates.
  ghost predicate Entered(t: Tools, kept: seq<Candidate>, files: seq<Entry>) {
    |files| == |kept| && forall i | 0 <= i < |kept| :: Kept(t, kept[i]) && files[i] == EntryOf(t, kept[i])
  }

  // The payloads are those of the candidates.
  ghost predicate Carried(kept: seq<Candidate>, payloads: seq<seq<byte>>) {
    && |payloads| == |kept|
    && forall i | 0 <= i < |kept| :: kept[i].source.Regular? && payloads[i] == kept[i].source.raw
  }

  lemma {:induction false} CarriedNext(kept: seq<Candidate>, payloads: seq<seq<byte>>, c: Candidate)
    requires Carried(kept, payloads) && c.source.Regular?
    ensures Carried(kept + [c], payloads + [c.source.raw])
  {
  }

  lemma {:induction false} DescribedAll(t: Tools, p: Progress)
    requires Entered(t, p.kept, p.files) && Carried(p.kept, p.payloads)
    ensures forall i | 0 <= i < |p.kept| :: Describes(p.files[i], p.payloads[i], p.kept[i])
  {
  }

  ghost predicate Noted(t: Tools, files: seq<Entry>, seen: set<string>) {
    forall i | 0 <= i < |files| :: Fold(t, files[i].path) in seen
  }

  ghost predicate Listed(t: Tools, p: Progress) {
    && Entered(t, p.kept, p.files) && Carried(p.kept, p.payloads)
    && Collected(t, p.files, p.payloads)
    && Noted(t, p.files, p.seen)
    && p.total == Total(p.payloads, |p.payloads|)
  }

  function KeptSize(t: Tools, selected: seq<Candidate>, n: nat): nat
    requires n <= |selected|
  {
    if n == 0 then 0
    else KeptSize(t, selected, n - 1) + if Kept(t, selected[n - 1]) then |selected[n - 1].source.raw| else 0
  }

  lemma {:induction false} KeptSizeGrows(t: Tools, selected: seq<Candidate>, n: nat, k: nat)
    requires n <= k <= |selected|
    ensures KeptSize(t, selected, n) <= KeptSize(t, selected, k)
  {
    if n < k { KeptSizeGrows(t, selected, n, k - 1); }
  }

  lemma {:induction false} SeenNext(t: Tools, selected: seq<Candidate>, n: nat, seen: set<string>)
    requires n < |selected| && Seen(t, selected, n, seen)
    ensures Seen(t, selected, n + 1, seen + {Fold(t, selected[n].path)})
  {
    var next := seen + {Fold(t, selected[n].path)};
    forall name | name in next ensures exists i :: 0 <= i < n + 1 && name == Fold(t, selected[i].path) {
      if name !in seen { assert name == Fold(t, selected[n].path); }
    }
  }

  lemma {:induction false} EnteredNext(t: Tools, kept: seq<Candidate>, files: seq<Entry>, c: Candidate)
    requires Entered(t, kept, files) && Kept(t, c)
    ensures Entered(t, kept + [c], files + [EntryOf(t, c)])
  {
  }

  lemma {:induction false} NotedNext(t: Tools, files: seq<Entry>, seen: set<string>, e: Entry)
    requires Noted(t, files, seen)
    ensures Noted(t, files, seen + {Fold(t, e.path)})
    ensures Noted(t, files + [e], seen + {Fold(t, e.path)})
    ensures Fold(t, e.path) !in seen ==> forall i | 0 <= i < |files| :: Fold(t, files[i].path) != Fold(t, e.path)
  {
  }

  lemma {:induction false} TotalNext(payloads: seq<seq<byte>>, payload: seq<byte>)
    ensures Total(payloads + [payload], |payloads| + 1) == Total(payloads, |payloads|) + |payload|
  {
    SameTotal(payloads, payloads + [payload], |payloads|);
  }

  lemma {:induction false} ListedNext(t: Tools, c: Candidate, explicit: set<string>, p: Progress)
    requires Listed(t, p) && SafePath(c.path) && MayAdvance(t, c, explicit, p)
    ensures Listed(t, Advance(t, c, p))
  {
    if Kept(t, c) {
      var e := EntryOf(t, c);
      EnteredNext(t, p.kept, p.files, c);
      CarriedNext(p.kept, p.payloads, c);
      NotedNext(t, p.files, p.seen, e);
      CollectedNext(t, p.files, p.payloads, c);
      TotalNext(p.payloads, c.source.raw);
    } else {
      NotedNext(t, p.files, p.seen, Entry(c.path, "", 0, "", 0));
    }
  }

  lemma {:induction false} TracksNext(t: Tools, selected: seq<Candidate>, n: nat, explicit: set<string>, p: Progress)
    requires n < |selected| && Tracks(t, selected, n, p) && SafePath(selected[n].path)
    requires MayAdvance(t, selected[n], explicit, p)
    ensures Tracks(t, selected, n + 1, Advance(t, selected[n], p))
  {
    SeenNext(t, selected, n, p.seen);
    ListedNext(t, selected[n], explicit, p);
  }

  // No candidate among the first `n` stops the loop.
  ghost predicate Passed(t: Tools, selected: seq<Candidate>, n: nat, explicit: set<string>)
    requires n <= |selected|
  {
    && (forall i | 0 <= i < n :: CandidateOk(t, selected[i], explicit))
    && (forall i, j | 0 <= i < j < n :: Fold(t, selected[i].path) != Fold(t, selected[j].path))
    && KeptSize(t, selected, n) <= MAX_SNAPSHOT_BYTES
  }

  lemma {:induction false} PassedNext(t: Tools, selected: seq<Candidate>, n: nat, explicit: set<string>, p: Progress)
    requires n < |selected| && Tracks(t, selected, n, p) && Passed(t, selected, n, explicit)
    ensures MayAdvance(t, selected[n], explicit, p) <==> Passed(t, selected, n + 1, explicit)
  {
  }

  lemma {:induction false} PassedPrefix(t: Tools, selected: seq<Candidate>, n: nat, explicit: set<string>)
    requires n <= |selected| && Passed(t, selected, |selected|, explicit)
    ensures Passed(t, selected, n, explicit)
  {
    KeptSizeGrows(t, selected, n, |selected|);
  }

  lemma {:induction false} TracksStart(t: Tools, selected: seq<Candidate>, explicit: set<string>, p: Progress)
    requires p == Progress([], [], [], {}, 0)
    ensures Tracks(t, selected, 0, p) && Passed(t, selected, 0, explicit)
  {
  }

  // A candidate that may not be passed stops the whole.
  lemma {:induction false} Stopped(t: Tools, selected: seq<Candidate>, n: nat, explicit: set<string>)
    requires n < |selected| && !Passed(t, selected, n + 1, explicit)
    ensures !Passed(t, selected, |selected|, explicit)
  {
    if Passed(t, selected, |selected|, explicit) { PassedPrefix(t, selected, n + 1, explicit); }
  }

  method CollectLoop(t: Tools, selected: seq<Candidate>, explicit: set<string>) returns (r: Option<Progress>)
    requires forall i | 0 <= i < |selected| :: SafePath(selected[i].path)
    ensures r.Some? <==> Passed(t, selected, |selected|, explicit)
    ensures r.Some? ==> Tracks(t, selected, |selected|, r.value)
  {
    var p := Progress([], [], [], {}, 0);
    TracksStart(t, selected, explicit, p);
    for i := 0 to |selected|
      invariant Tracks(t, selected, i, p) && Passed(t, selected, i, explicit)
    {
      PassedNext(t, selected, i, explicit, p);
      var q := Consider(t, selected[i], explicit, p);
      if q.None? {
        Stopped(t, selected, i, explicit);
        return None;
      }
      TracksNext(t, selected, i, explicit, p);
      p := q.value;
    }
    return Some(p);
  }

  /** When an inventory is made, as a statement about the candidates alone. */
  ghost predicate Selectable(t: Tools, selected: seq<Candidate>, explicit: set<string>) {
    && |selected| <= MAX_FILES
    && Passed(t, selected, |selected|, explicit)
    && KeptOf(t, selected, |selected|) != []
  }

  /**
   `source_inventory` over the sorted candidates, whose paths `safe_path` accepted:
   an inventory comes out exactly of a selectable list, and holds its kept files.
   */
  method CollectInventory(t: Tools, commit: string, selected: seq<Candidate>, explicit: set<string>)
    returns (r: Option<(Inventory, seq<seq<byte>>)>)
    requires CommitId(commit) && forall i | 0 <= i < |selected| :: SafePath(selected[i].path)
    ensures r.Some? <==> Selectable(t, selected, explicit)
    ensures r.Some? ==> Admissible(t, r.value.0, r.value.1) && r.value.0.gitCommit == commit
    ensures r.Some? ==>
              var kept := KeptOf(t, selected, |selected|);
              |kept| == |r.value.0.files| == |r.value.1| &&
              forall i | 0 <= i < |kept| :: Describes(r.value.0.files[i], r.value.1[i], kept[i])
  {
    if |selected| > MAX_FILES {
      return None;
    }
    var p := CollectLoop(t, selected, explicit);
    if p.None? || p.value.files == [] {
      return None;
    }
    var files := p.value.files;
    DescribedAll(t, p.value);
    return Some((Inventory(commit, files, p.value.total, t.digest(t.canonicalFiles(files))), p.value.payloads));
  }

  // --- create_export ------------------------------------------------------------

  datatype CreateError =
    | BadVersion | BadLimit | SnapshotTooLarge | Unsplittable(why: SplitError)
    | PartTooLarge | ManifestTooLarge | VerificationFailed

  datatype Export = Export(manifest: Manifest, dir: map<string, seq<byte>>, verified: Verified)

  lemma {:induction false} InventoryIdentifies(t: Tools, version: string, inventory: Inventory,
                                               payloads: seq<seq<byte>>)
    requires ToolsOk(t) && Admissible(t, inventory, payloads) && SafeVersion(version)
    ensures Identified(t, version, inventory.gitCommit, inventory.inventorySha256)
  {
    LabelAscii(t, version, inventory.inventorySha256);
  }

  function LayoutFor(t: Tools, version: string, inventory: Inventory): Layout
    requires Identified(t, version, inventory.gitCommit, inventory.inventorySha256)
  {
    LayoutOf(t, version, inventory.gitCommit, inventory.inventorySha256)
  }

  function Draft(version: string, inventory: Inventory, maximum: nat, snapshot: seq<byte>, sha256: string,
                 parts: seq<Part>): Manifest {
    Manifest(FORMAT, version, inventory.gitCommit, inventory.files, inventory.sourceBytes,
             inventory.inventorySha256, maximum, |snapshot|, sha256, parts)
  }

  function PartOf(t: Tools, l: Layout, pieces: seq<Piece>, k: nat): Part
    requires k < |pieces|
  {
    var header := l.header(k + 1, |pieces|, pieces[k].offset);
    var raw := header + pieces[k].data;
    Part(l.name(k + 1, |pieces|), |raw|, t.digest(raw), |header|, pieces[k].offset)
  }

  ghost predicate Written(t: Tools, l: Layout, pieces: seq<Piece>, dir: map<string, seq<byte>>, parts: seq<Part>)
    requires |parts| <= |pieces|
  {
    forall k: nat | k < |parts| ::
      && parts[k] == PartOf(t, l, pieces, k)
      && parts[k].name in dir
      && dir[parts[k].name] == l.header(k + 1, |pieces|, pieces[k].offset) + pieces[k].data
  }

  ghost predicate WritablePart(l: Layout, pieces: seq<Piece>, maximum: nat, k: nat) {
    && k < |pieces| && pieces[k].data != []
    && var raw := l.header(k + 1, |pieces|, pieces[k].offset) + pieces[k].data;
    |raw| <= maximum && l.decodes(raw)
  }

  ghost predicate Writable(l: Layout, pieces: seq<Piece>, maximum: nat) {
    forall k: nat | k < |pieces| :: WritablePart(l, pieces, maximum, k)
  }

  ghost predicate Headed(l: Layout, id: Label)
    requires LabelOk(id)
  {
    && (forall i: nat, c: nat, o: nat :: l.header(i, c, o) == Header(id, i, c, o))
    && (forall s: seq<byte> :: l.decodes(s) == Valid(s))
  }

  lemma {:induction false} LayoutHeaded(t: Tools, version: string, commit: string, inventory: string)
    requires Identified(t, version, commit, inventory)
    ensures Headed(LayoutOf(t, version, commit, inventory), LabelOf(t, version, inventory))
  {
  }

  method PrintPart(t: Tools, l: Layout, id: Label, pieces: seq<Piece>, k: nat) returns (raw: seq<byte>, part: Part)
    requires k < |pieces| && LabelOk(id) && Headed(l, id)
    ensures part == PartOf(t, l, pieces, k)
    ensures raw == l.header(k + 1, |pieces|, pieces[k].offset) + pieces[k].data
  {
    var header := PartHeader(id, k + 1, |pieces|, pieces[k].offset);
    raw := header + pieces[k].data;
    part := Part(l.name(k + 1, |pieces|), |raw|, t.digest(raw), |header|, pieces[k].offset);
  }

  // The directory holds nothing but the first `n` parts.
  ghost predicate OnlyParts(l: Layout, pieces: seq<Piece>, dir: map<string, seq<byte>>, n: nat) {
    forall name :: name in dir ==> exists k: nat :: 0 < k <= n && name == l.name(k, |pieces|)
  }

  lemma {:induction false} NewName(l: Layout, pieces: seq<Piece>, dir: map<string, seq<byte>>, n: nat)
    requires LayoutOk(l) && n < |pieces| <= MAX_PARTS && OnlyParts(l, pieces, dir, n)
    ensures l.name(n + 1, |pieces|) !in dir
  {
  }

  lemma {:induction false} WrittenNext(t: Tools, l: Layout, pieces: seq<Piece>, dir: map<string, seq<byte>>,
                                       parts: seq<Part>, raw: seq<byte>, part: Part)
    requires |parts| < |pieces| && Written(t, l, pieces, dir, parts) && OnlyParts(l, pieces, dir, |parts|)
    requires part == PartOf(t, l, pieces, |parts|) && part.name !in dir
    requires raw == l.header(|parts| + 1, |pieces|, pieces[|parts|].offset) + pieces[|parts|].data
    ensures Written(t, l, pieces, dir[part.name := raw], parts + [part])
    ensures OnlyParts(l, pieces, dir[part.name := raw], |parts| + 1)
  {
  }

  // The output directory is new, and every name in it is written once.
  method WriteParts(t: Tools, l: Layout, id: Label, pieces: seq<Piece>, maximum: nat)
    returns (r: Option<(seq<Part>, map<string, seq<byte>>)>)
    requires LayoutOk(l) && |pieces| <= MAX_PARTS && Writable(l, pieces, maximum)
    requires LabelOk(id) && Headed(l, id)
    ensures r.Some? && |r.value.0| == |pieces| && Written(t, l, pieces, r.value.1, r.value.0)
  {
    var parts: seq<Part> := [];
    var dir: map<string, seq<byte>> := map[];
    while |parts| < |pieces|
      invariant |parts| <= |pieces|
      invariant Written(t, l, pieces, dir, parts) && OnlyParts(l, pieces, dir, |parts|)
    {
      assert WritablePart(l, pieces, maximum, |parts|);
      NewName(l, pieces, dir, |parts|);
      var raw, part := PrintPart(t, l, id, pieces, |parts|);
      if !(0 < |raw| <= maximum) || !l.decodes(raw) || part.name in dir {
        return None;
      }
      WrittenNext(t, l, pieces, dir, parts, raw, part);
      dir := dir[part.name := raw];
      parts := parts + [part];
    }
    return Some((parts, dir));
  }

  // --- the parts of a valid snapshot hold it ------------------------------------------

  function Chunks(pieces: seq<Piece>): (chunks: seq<seq<byte>>)
    ensures |chunks| == |pieces| && forall i | 0 <= i < |pieces| :: chunks[i] == pieces[i].data
  {
    seq(|pieces|, i requires 0 <= i < |pieces| => pieces[i].data)
  }

  lemma {:induction false} JoinedFlat(pieces: seq<Piece>, chunks: seq<seq<byte>>, n: nat)
    requires n <= |pieces| <= |chunks| && forall i | 0 <= i < |pieces| :: chunks[i] == pieces[i].data
    ensures Joined(pieces[..n]) == Flat(chunks, n) && |Joined(pieces[..n])| == Total(chunks, n)
  {
    if n > 0 {
      JoinedFlat(pieces, chunks, n - 1);
      assert pieces[..n][..n - 1] == pieces[..n - 1];
    }
  }

  ghost predicate OffsetsOk(pieces: seq<Piece>) {
    forall k: nat | k < |pieces| :: pieces[k].offset == |Joined(pieces[..k])|
  }

  lemma {:induction false} WrittenPart(t: Tools, l: Layout, pieces: seq<Piece>, dir: map<string, seq<byte>>,
                                       m: Manifest, k: nat)
    requires |m.parts| == |pieces| && Written(t, l, pieces, dir, m.parts) && k < |pieces|
    requires 0 <= m.maxPartBytes && OffsetsOk(pieces) && Writable(l, pieces, m.maxPartBytes)
    ensures Accepts(t, dir, m, l)(k, Total(Chunks(pieces), k), Chunks(pieces)[k])
  {
    JoinedFlat(pieces, Chunks(pieces), k);
    assert WritablePart(l, pieces, m.maxPartBytes, k);
    assert m.parts[k] == PartOf(t, l, pieces, k);
  }

  ghost predicate Step(ok: (nat, nat, seq<byte>) -> bool, chunks: seq<seq<byte>>, k: nat) {
    k < |chunks| && ok(k, Total(chunks, k), chunks[k])
  }

  lemma {:induction false} ChainedSteps(ok: (nat, nat, seq<byte>) -> bool, chunks: seq<seq<byte>>, n: nat)
    requires n <= |chunks| && forall k: nat | k < n :: Step(ok, chunks, k)
    ensures Chained(ok, chunks, n)
  {
    if n > 0 {
      ChainedSteps(ok, chunks, n - 1);
      assert Step(ok, chunks, n - 1);
    }
  }

  lemma {:induction false} WrittenHolds(t: Tools, l: Layout, pieces: seq<Piece>, dir: map<string, seq<byte>>,
                                        m: Manifest)
    requires |m.parts| == |pieces| && Written(t, l, pieces, dir, m.parts)
    requires 0 <= m.maxPartBytes && OffsetsOk(pieces) && Writable(l, pieces, m.maxPartBytes)
    requires |Joined(pieces)| <= MAX_SNAPSHOT_BYTES
    ensures PartsHold(t, dir, m, l, Chunks(pieces))
    ensures Flat(Chunks(pieces), |pieces|) == Joined(pieces)
  {
    forall k: nat | k < |pieces| ensures Step(Accepts(t, dir, m, l), Chunks(pieces), k) {
      WrittenPart(t, l, pieces, dir, m, k);
    }
    ChainedSteps(Accepts(t, dir, m, l), Chunks(pieces), |pieces|);
    JoinedFlat(pieces, Chunks(pieces), |pieces|);
    assert pieces[..|pieces|] == pieces;
  }

  // --- valid framing --------------------------------------------------------------------

  ghost predicate ValidLayout(l: Layout) {
    Valid(l.prelude) && Valid(l.closing) && Valid(l.ending) && forall e: Entry :: Valid(l.opening(e))
  }

  lemma {:induction false} LineValid(head: string, line: seq<byte>)
    requires Ascii(head) && Valid(line)
    ensures Valid(Encode(head) + line + [NEWLINE])
  {
    AsciiValid([NEWLINE]);
    EncodeValid(head);
    ValidConcat(Encode(head), line);
    ValidConcat(Encode(head) + line, [NEWLINE]);
  }

  lemma {:induction false} OpeningValid(t: Tools, l: Layout, e: Entry)
    requires ToolsOk(t) && l.opening(e) == Opening(t, e)
    ensures Valid(l.opening(e))
  {
    LineValid(FILE, t.canonicalEntry(e));
  }

  lemma {:induction false} PreludeValid(t: Tools, version: string, commit: string, inventory: string)
    requires ToolsOk(t)
    ensures Valid(Prelude(t, version, commit, inventory))
  {
    LineValid(BANNER, t.canonicalMetadata(FORMAT, version, commit, inventory));
  }

  lemma {:induction false} LayoutValid(t: Tools, version: string, commit: string, inventory: string)
    requires ToolsOk(t) && Identified(t, version, commit, inventory)
    ensures ValidLayout(LayoutOf(t, version, commit, inventory))
  {
    var l := LayoutOf(t, version, commit, inventory);
    forall e: Entry ensures Valid(l.opening(e)) {
      OpeningValid(t, l, e);
    }
    PreludeValid(t, version, commit, inventory);
    EncodeValid(END_FILE);
    EncodeValid(END_SNAPSHOT);
  }

  lemma {:induction false} FramesValid(l: Layout, files: seq<Entry>, payloads: seq<seq<byte>>, n: nat)
    requires n <= |files| && n <= |payloads| && ValidLayout(l)
    requires forall i | 0 <= i < |payloads| :: Valid(payloads[i])
    ensures Valid(Frames(l, files, payloads, n))
  {
    if n > 0 {
      FramesValid(l, files, payloads, n - 1);
      var e, payload := files[n - 1], payloads[n - 1];
      ValidConcat(l.opening(e), payload);
      ValidConcat(l.opening(e) + payload, l.closing);
      ValidConcat(Frames(l, files, payloads, n - 1), Frame(l, e, payload));
    }
  }

  lemma {:induction false} FramedValid(l: Layout, files: seq<Entry>, payloads: seq<seq<byte>>)
    requires |files| == |payloads| && ValidLayout(l)
    requires forall i | 0 <= i < |payloads| :: Valid(payloads[i])
    ensures Valid(Framed(l, files, payloads))
  {
    FramesValid(l, files, payloads, |files|);
    ValidConcat(l.prelude, Frames(l, files, payloads, |files|));
    ValidConcat(l.prelude + Frames(l, files, payloads, |files|), l.ending);
  }
}
