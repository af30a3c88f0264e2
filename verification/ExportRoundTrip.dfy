/** `create_export`: when it succeeds, and that reading the result back gives the input. */
module ExportRoundTrip {
  import opened Results
  import opened Utf8
  import opened ExportFormat
  import opened ExportPaths
  import opened ExportSplit
  import opened ExportFraming
  import opened ExportCodec
  import opened ExportCreate

  /** No exported path is, case-folded, a directory of another one. */
  predicate Unshadowed(t: Tools, files: seq<Entry>) {
    forall i, j | 0 <= i < |files| && 0 <= j < |files| && i != j ::
      !(Fold(t, files[i].path) + "/" <= Fold(t, files[j].path))
  }

  lemma {:induction false} AdmissibleFiles(t: Tools, inventory: Inventory, payloads: seq<seq<byte>>)
    requires Admissible(t, inventory, payloads)
    ensures FilesOk(t, inventory.files) <==> Unshadowed(t, inventory.files)
  {
    var files := inventory.files;
    if FilesOk(t, files) {
      forall i, j | 0 <= i < |files| && 0 <= j < |files| && i != j
        ensures !(Fold(t, files[i].path) + "/" <= Fold(t, files[j].path))
      {
        if i < j {
          assert !Clash(Fold(t, files[i].path), Fold(t, files[j].path));
        } else {
          assert !Clash(Fold(t, files[j].path), Fold(t, files[i].path));
        }
      }
    }
  }

  // --- the manifest as a function of the input ------------------------------------

  function PartsOf(t: Tools, l: Layout, pieces: seq<Piece>): (parts: seq<Part>)
    ensures |parts| == |pieces| && forall k | 0 <= k < |pieces| :: parts[k] == PartOf(t, l, pieces, k)
  {
    seq(|pieces|, k requires 0 <= k < |pieces| => PartOf(t, l, pieces, k))
  }

  function ManifestOf(t: Tools, l: Layout, version: string, inventory: Inventory, maximum: nat,
                      snapshot: seq<byte>, pieces: seq<Piece>): Manifest
  {
    Draft(version, inventory, maximum, snapshot, t.digest(snapshot), PartsOf(t, l, pieces))
  }

  /** The framed snapshot, split under these limits, makes a manifest that may be stored. */
  predicate Storable(t: Tools, l: Layout, version: string, inventory: Inventory, maximum: nat, snapshot: seq<byte>)
    requires LabelOk(LabelOf(t, version, inventory.inventorySha256))
  {
    && |snapshot| <= MAX_SNAPSHOT_BYTES
    && var pieces := Pieces(snapshot, LabelOf(t, version, inventory.inventorySha256), maximum);
    && pieces.Ok?
    && t.manifestSize(ManifestOf(t, l, version, inventory, maximum, snapshot, pieces.value)) <= MAX_PART_BYTES
  }

  /** Version, limit and sizes let the parts and the manifest be written. */
  ghost predicate Printable(t: Tools, version: string, inventory: Inventory, payloads: seq<seq<byte>>, maximum: nat)
    requires |payloads| == |inventory.files|
  {
    && SafeVersion(version) && 1024 <= maximum <= MAX_PART_BYTES
    && Identified(t, version, inventory.gitCommit, inventory.inventorySha256)
    && var l := LayoutFor(t, version, inventory);
    && Storable(t, l, version, inventory, maximum, Framed(l, inventory.files, payloads))
  }

  /** When an admissible inventory becomes an export. */
  ghost predicate Creatable(t: Tools, version: string, inventory: Inventory, payloads: seq<seq<byte>>, maximum: nat)
    requires |payloads| == |inventory.files|
  {
    Printable(t, version, inventory, payloads, maximum) && Unshadowed(t, inventory.files)
  }

  // --- the split parts are written and accepted --------------------------------------

  lemma {:induction false} GoodWritable(l: Layout, id: Label, data: seq<byte>, maximum: nat, pieces: seq<Piece>)
    requires LabelOk(id) && Headed(l, id) && GoodSplit(data, id, maximum, pieces)
    ensures Writable(l, pieces, maximum) && OffsetsOk(pieces)
  {
    forall k: nat | k < |pieces|
      ensures WritablePart(l, pieces, maximum, k) && pieces[k].offset == |Joined(pieces[..k])|
    {
      assert PieceGood(data, id, maximum, pieces, k);
      PartWritable(l, id, data, maximum, pieces, k);
    }
  }

  lemma {:induction false} PartWritable(l: Layout, id: Label, data: seq<byte>, maximum: nat, pieces: seq<Piece>, k: nat)
    requires LabelOk(id) && Headed(l, id) && PieceGood(data, id, maximum, pieces, k)
    ensures WritablePart(l, pieces, maximum, k)
  {
    ValidConcat(Header(id, k + 1, |pieces|, pieces[k].offset), pieces[k].data);
  }

  /** A limit of at least 1024 octets always leaves room after the header. */
  lemma {:induction false} LimitSuffices(t: Tools, version: string, inventory: string, total: nat)
    requires ToolsOk(t) && SafeVersion(version) && |inventory| == 64
    requires LabelOk(LabelOf(t, version, inventory)) && total <= MAX_SNAPSHOT_BYTES
    ensures Reserve(LabelOf(t, version, inventory), total) + 4 <= 1024
  {
    Pad5Width(MAX_PARTS);
    DecLength(total, 999_999_999);
    assert |Dec(999_999_999)| == 9 by {
      assert |Dec(99)| == 2 && |Dec(9_999)| == 4 && |Dec(999_999)| == 6;
    }
  }

  lemma {:induction false} PayloadsParsed(t: Tools, l: Layout, inventory: Inventory, payloads: seq<seq<byte>>)
    requires Admissible(t, inventory, payloads) && forall s: seq<byte> :: l.decodes(s) == Valid(s)
    ensures Parsed(t, l, inventory.files, Framed(l, inventory.files, payloads), payloads)
  {
    forall i | 0 <= i < |payloads| ensures PayloadOk(t, l, inventory.files[i], payloads[i]) {
      assert Sound(t, inventory.files[i], payloads[i]);
    }
  }

  lemma {:induction false} ExportHolds(t: Tools, l: Layout, version: string, inventory: Inventory,
                                       payloads: seq<seq<byte>>,
                    maximum: nat, snapshot: seq<byte>, pieces: seq<Piece>,
                                          dir: map<string, seq<byte>>)
    requires Admissible(t, inventory, payloads)
    requires Parsed(t, l, inventory.files, snapshot, payloads) && |snapshot| <= MAX_SNAPSHOT_BYTES
    requires Joined(pieces) == snapshot && OffsetsOk(pieces) && Writable(l, pieces, maximum)
    requires Written(t, l, pieces, dir, PartsOf(t, l, pieces))
    ensures Holds(t, dir, ManifestOf(t, l, version, inventory, maximum, snapshot, pieces), l, Chunks(pieces), payloads)
    ensures Flat(Chunks(pieces), |pieces|) == snapshot
  {
    WrittenHolds(t, l, pieces, dir, ManifestOf(t, l, version, inventory, maximum, snapshot, pieces));
  }


  lemma {:induction false} FieldsHold(t: Tools, l: Layout, version: string, inventory: Inventory,
                                      payloads: seq<seq<byte>>,
                   maximum: nat, snapshot: seq<byte>, pieces: seq<Piece>)
    requires Admissible(t, inventory, payloads) && SafeVersion(version) && 1024 <= maximum <= MAX_PART_BYTES
    requires 0 < |snapshot| <= MAX_SNAPSHOT_BYTES && Joined(pieces) == snapshot && |pieces| <= MAX_PARTS
    ensures FieldsOk(t, ManifestOf(t, l, version, inventory, maximum, snapshot, pieces))
  {
  }

  // What create_export has established when it writes its parts.
  ghost predicate Prepared(t: Tools, version: string, inventory: Inventory, payloads: seq<seq<byte>>,
                           maximum: nat, snapshot: seq<byte>, pieces: seq<Piece>)
  {
    && ToolsOk(t) && Admissible(t, inventory, payloads) && SafeVersion(version) && 1024 <= maximum <= MAX_PART_BYTES
    && Identified(t, version, inventory.gitCommit, inventory.inventorySha256)
    && LabelOk(LabelOf(t, version, inventory.inventorySha256))
    && snapshot == Framed(LayoutFor(t, version, inventory), inventory.files, payloads)
    && |snapshot| <= MAX_SNAPSHOT_BYTES
    && GoodSplit(snapshot, LabelOf(t, version, inventory.inventorySha256), maximum, pieces)
  }

  lemma {:induction false} PreparedWritable(t: Tools, version: string, inventory: Inventory, payloads: seq<seq<byte>>,
                                            maximum: nat, snapshot: seq<byte>, pieces: seq<Piece>)
    requires Prepared(t, version, inventory, payloads, maximum, snapshot, pieces)
    ensures
      var l := LayoutFor(t, version, inventory);
      && LayoutOk(l) && Writable(l, pieces, maximum) && OffsetsOk(pieces)
      && Headed(l, LabelOf(t, version, inventory.inventorySha256))
  {
    var l := LayoutFor(t, version, inventory);
    LayoutOfOk(t, version, inventory.gitCommit, inventory.inventorySha256);
    LayoutHeaded(t, version, inventory.gitCommit, inventory.inventorySha256);
    GoodWritable(l, LabelOf(t, version, inventory.inventorySha256), snapshot, maximum, pieces);
  }

  // The written directory is an export of the payloads unless a file shadows another.
  lemma {:induction false} WrittenExports(t: Tools, version: string, inventory: Inventory, payloads: seq<seq<byte>>,
                                          maximum: nat, snapshot: seq<byte>, pieces: seq<Piece>,
                                          dir: map<string, seq<byte>>)
    requires Prepared(t, version, inventory, payloads, maximum, snapshot, pieces)
    requires var l := LayoutFor(t, version, inventory); Written(t, l, pieces, dir, PartsOf(t, l, pieces))
    ensures
      var m := ManifestOf(t, LayoutFor(t, version, inventory), version, inventory, maximum, snapshot, pieces);
      FilesOk(t, m.files) ==> Exports(t, dir, m, Chunks(pieces), payloads) && Flat(Chunks(pieces), |pieces|) == snapshot
  {
    var l := LayoutFor(t, version, inventory);
    PreparedWritable(t, version, inventory, payloads, maximum, snapshot, pieces);
    PayloadsParsed(t, l, inventory, payloads);
    ExportHolds(t, l, version, inventory, payloads, maximum, snapshot, pieces, dir);
    FieldsHold(t, l, version, inventory, payloads, maximum, snapshot, pieces);
  }

  // --- the operation ---------------------------------------------------------------------

  method SnapshotBytes(t: Tools, version: string, inventory: Inventory, payloads: seq<seq<byte>>)
    returns (r: Option<seq<byte>>)
    requires |inventory.files| == |payloads|
    requires Identified(t, version, inventory.gitCommit, inventory.inventorySha256)
    ensures
      var snapshot := Framed(LayoutFor(t, version, inventory), inventory.files, payloads);
      r == if |snapshot| <= MAX_SNAPSHOT_BYTES then Some(snapshot) else None
  {
    ghost var l := LayoutFor(t, version, inventory);
    var prelude := PrintPrelude(t, version, inventory);
    var closing, ending := PrintMarks();
    var frames := PrintFrames(t, l, inventory.files, payloads, closing);
    var result := prelude + frames + ending;
    return if |result| > MAX_SNAPSHOT_BYTES then None else Some(result);
  }

  method PrintFrames(t: Tools, ghost l: Layout, files: seq<Entry>, payloads: seq<seq<byte>>, closing: seq<byte>)
    returns (frames: seq<byte>)
    requires |files| == |payloads| && l.closing == closing
    requires forall e: Entry :: l.opening(e) == Opening(t, e)
    ensures frames == Frames(l, files, payloads, |files|)
  {
    frames := [];
    for i := 0 to |files|
      invariant frames == Frames(l, files, payloads, i)
    {
      var opening := PrintOpening(t, files[i]);
      frames := frames + (opening + payloads[i] + closing);
    }
  }

  method PrintPrelude(t: Tools, version: string, inventory: Inventory) returns (prelude: seq<byte>)
    ensures prelude == Prelude(t, version, inventory.gitCommit, inventory.inventorySha256)
  {
    var metadata := t.canonicalMetadata(FORMAT, version, inventory.gitCommit, inventory.inventorySha256);
    prelude := Encode(BANNER) + metadata + [NEWLINE];
  }

  method PrintMarks() returns (closing: seq<byte>, ending: seq<byte>)
    ensures closing == Encode(END_FILE) && ending == Encode(END_SNAPSHOT)
  {
    closing, ending := Encode(END_FILE), Encode(END_SNAPSHOT);
  }

  method PrintOpening(t: Tools, e: Entry) returns (opening: seq<byte>)
    ensures opening == Opening(t, e)
  {
    opening := Encode(FILE) + t.canonicalEntry(e) + [NEWLINE];
  }

  /** The stored parts hold the snapshot, and verification returned the original payloads. */
  ghost predicate Faithful(t: Tools, e: Export, snapshot: seq<byte>, payloads: seq<seq<byte>>) {
    && e.verified == Verified(snapshot, payloads)
    && exists chunks :: Exports(t, e.dir, e.manifest, chunks, payloads) && Flat(chunks, |chunks|) == snapshot
  }

  method Recheck(t: Tools, dir: map<string, seq<byte>>, m: Manifest, ghost chunks: seq<seq<byte>>,
                 ghost snapshot: seq<byte>, ghost payloads: seq<seq<byte>>)
    returns (r: Result<Export, CreateError>)
    requires ToolsOk(t)
    requires FilesOk(t, m.files) ==> Exports(t, dir, m, chunks, payloads) && Flat(chunks, |chunks|) == snapshot
    ensures r == if FilesOk(t, m.files) then Ok(Export(m, dir, Verified(snapshot, payloads)))
                 else Err(VerificationFailed)
    ensures r.Ok? ==> Faithful(t, r.value, snapshot, payloads)
  {
    var verified := VerifyExport(t, dir, m);
    if verified.None? {
      return Err(VerificationFailed);
    }
    return Ok(Export(m, dir, verified.value));
  }

  // Parts, manifest and the closing verification.
  method WriteExport(t: Tools, version: string, inventory: Inventory, ghost payloads: seq<seq<byte>>, maximum: nat,
                     snapshot: seq<byte>, pieces: seq<Piece>)
    returns (r: Result<Export, CreateError>)
    requires Prepared(t, version, inventory, payloads, maximum, snapshot, pieces)
    ensures
      var m := ManifestOf(t, LayoutFor(t, version, inventory), version, inventory, maximum, snapshot, pieces);
      && (r == Err(ManifestTooLarge) <==> t.manifestSize(m) > MAX_PART_BYTES)
      && (r == Err(VerificationFailed) <==> t.manifestSize(m) <= MAX_PART_BYTES && !FilesOk(t, inventory.files))
      && (r.Ok? <==> t.manifestSize(m) <= MAX_PART_BYTES && FilesOk(t, inventory.files))
      && (r.Ok? ==> r.value.manifest == m && Faithful(t, r.value, snapshot, payloads))
  {
    var l := LayoutFor(t, version, inventory);
    PreparedWritable(t, version, inventory, payloads, maximum, snapshot, pieces);
    var written := WriteParts(t, l, LabelOf(t, version, inventory.inventorySha256), pieces, maximum);
    var (parts, dir) := written.value;
    assert parts == PartsOf(t, l, pieces);
    var m := Draft(version, inventory, maximum, snapshot, t.digest(snapshot), parts);
    if t.manifestSize(m) > MAX_PART_BYTES {
      return Err(ManifestTooLarge);
    }
    WrittenExports(t, version, inventory, payloads, maximum, snapshot, pieces, dir);
    r := Recheck(t, dir, m, Chunks(pieces), snapshot, payloads);
  }

  /**
   For an admissible inventory, creation succeeds exactly when the export is
   creatable, and then reading it back returns the original payloads. It fails in
   the final verification exactly if everything can be written and some file's path is
   a directory of another's.
   */
  method CreateExport(t: Tools, version: string, inventory: Inventory, payloads: seq<seq<byte>>, maximum: nat)
    returns (r: Result<Export, CreateError>)
    requires ToolsOk(t) && Admissible(t, inventory, payloads)
    ensures r.Ok? <==> Creatable(t, version, inventory, payloads, maximum)
    ensures r.Ok? ==>
      && r.value.verified.payloads == payloads
      && r.value.manifest.maxPartBytes == maximum && r.value.manifest.files == inventory.files
      && Faithful(t, r.value, r.value.verified.snapshot, payloads)
    ensures r == Err(VerificationFailed) <==>
              Printable(t, version, inventory, payloads, maximum) && !Unshadowed(t, inventory.files)
    ensures r != Err(PartTooLarge) && r != Err(Unsplittable(NoBoundary)) && r != Err(Unsplittable(LimitTooSmall))
  {
    var known := IsSafeVersion(version);
    if !known {
      return Err(BadVersion);
    }
    if !(1024 <= maximum <= MAX_PART_BYTES) {
      return Err(BadLimit);
    }
    InventoryIdentifies(t, version, inventory, payloads);
    var snapshot := SnapshotBytes(t, version, inventory, payloads);
    if snapshot.None? {
      return Err(SnapshotTooLarge);
    }
    var id := LabelOf(t, version, inventory.inventorySha256);
    SnapshotValid(t, version, inventory, payloads);
    SplitCorrect(snapshot.value, id, maximum);
    LimitSuffices(t, version, inventory.inventorySha256, |snapshot.value|);
    var pieces := SplitSnapshot(snapshot.value, id, maximum);
    if pieces.Err? {
      return Err(Unsplittable(pieces.error));
    }
    AdmissibleFiles(t, inventory, payloads);
    r := WriteExport(t, version, inventory, payloads, maximum, snapshot.value, pieces.value);
  }

  lemma {:induction false} SnapshotValid(t: Tools, version: string, inventory: Inventory, payloads: seq<seq<byte>>)
    requires ToolsOk(t) && Admissible(t, inventory, payloads)
    requires Identified(t, version, inventory.gitCommit, inventory.inventorySha256)
    ensures Valid(Framed(LayoutFor(t, version, inventory), inventory.files, payloads))
  {
    var l := LayoutFor(t, version, inventory);
    LayoutValid(t, version, inventory.gitCommit, inventory.inventorySha256);
    forall i | 0 <= i < |payloads| ensures Valid(payloads[i]) {
      assert Sound(t, inventory.files[i], payloads[i]);
    }
    FramedValid(l, inventory.files, payloads);
  }

  lemma {:induction false} FoldConcat(t: Tools, a: string, b: string)
    ensures Fold(t, a + b) == Fold(t, a) + Fold(t, b)
  {
    if a == "" {
      assert a + b == b;
    } else {
      assert (a + b)[1..] == a[1..] + b;
      FoldConcat(t, a[1..], b);
    }
  }

  // --- an inventory that is collected and written, and then refused -------------------

  /** Two empty files of a repository on a case-sensitive file system. */
  const SHADOW: seq<Candidate> := [
    Candidate("A.py", "tracked", Regular([], false)),
    Candidate("a.py/a.py", "tracked", Regular([], false))
  ]

  // Case folding joins the letters, and the screens let both files through.
  ghost predicate Shadowing(t: Tools) {
    t.fold('A') == t.fold('a') && Kept(t, SHADOW[0]) && Kept(t, SHADOW[1])
  }

  function ShadowInventory(t: Tools, commit: string): Inventory
    requires Kept(t, SHADOW[0]) && Kept(t, SHADOW[1])
  {
    var files := [EntryOf(t, SHADOW[0]), EntryOf(t, SHADOW[1])];
    Inventory(commit, files, 0, t.digest(t.canonicalFiles(files)))
  }

  lemma {:induction false} FirstSlashAt(front: string, rest: string)
    requires '/' !in front
    ensures FirstSlash(front + "/" + rest) == |front|
    decreases |front|
  {
    if front == "" {
      assert front + "/" + rest == "/" + rest;
    } else {
      assert (front + "/" + rest)[1..] == front[1..] + "/" + rest;
      FirstSlashAt(front[1..], rest);
    }
  }

  lemma {:induction false} SplitSlash(front: string, rest: string)
    requires '/' !in front
    ensures Split(front + "/" + rest) == [front] + Split(rest)
  {
    var path := front + "/" + rest;
    FirstSlashAt(front, rest);
    assert path[|front|] == '/';
    assert path[..|front|] == front && path[|front| + 1..] == rest;
  }

  lemma {:induction false} NestedSafe(front: string, rest: string)
    requires SafePath(front) && SafePath(rest) && '/' !in front && |front| + |rest| < 1024
    ensures SafePath(front + "/" + rest)
  {
    SplitSlash(front, rest);
    assert Split(front) == [front];
    assert front in Split(front);
  }

  lemma {:induction false} ShadowSafe()
    ensures SafePath("A.py") && SafePath("a.py/a.py")
  {
    LabelPath("A.py");
    LabelPath("a.py");
    NestedSafe("a.py", "a.py");
    assert "a.py" + "/" + "a.py" == "a.py/a.py";
  }

  lemma {:induction false} ShadowFolds(t: Tools, rest: string)
    requires t.fold('A') == t.fold('a') && t.fold('/') == "/"
    ensures
      var upper, lower := "A" + rest, "a" + rest;
      Fold(t, upper) + "/" <= Fold(t, lower + "/" + lower) && Fold(t, upper) != Fold(t, lower + "/" + lower)
  {
    var upper, lower := "A" + rest, "a" + rest;
    assert upper[1..] == rest && lower[1..] == rest;
    FoldConcat(t, lower + "/", lower);
    FoldConcat(t, lower, "/");
    assert "/"[1..] == "" && Fold(t, "/") == "/";
  }

  lemma {:induction false} ShadowPaths(t: Tools)
    requires t.fold('A') == t.fold('a') && t.fold('/') == "/"
    ensures Fold(t, "A.py") + "/" <= Fold(t, "a.py/a.py")
    ensures Fold(t, "A.py") != Fold(t, "a.py/a.py")
  {
    ShadowFolds(t, ".py");
    assert "A" + ".py" == "A.py" && "a" + ".py" + "/" + ("a" + ".py") == "a.py/a.py";
  }

  lemma {:induction false} ShadowSelected(t: Tools)
    requires ToolsOk(t) && Shadowing(t)
    ensures Selectable(t, SHADOW, {})
  {
    ShadowSafe();
    ShadowPaths(t);
    assert KeptOf(t, SHADOW, 2) == KeptOf(t, SHADOW, 1) + [SHADOW[1]];
    assert KeptSize(t, SHADOW, 2) == KeptSize(t, SHADOW, 1) == KeptSize(t, SHADOW, 0) == 0;
  }

  lemma {:induction false} ShadowAdmissible(t: Tools, commit: string)
    requires ToolsOk(t) && Shadowing(t) && CommitId(commit)
    ensures Admissible(t, ShadowInventory(t, commit), [[], []])
    ensures !Unshadowed(t, ShadowInventory(t, commit).files)
  {
    ShadowSafe();
    ShadowPaths(t);
    var inventory := ShadowInventory(t, commit);
    assert EntryOk(t, inventory.files[0]) && EntryOk(t, inventory.files[1]);
    assert Sound(t, inventory.files[0], []) && Sound(t, inventory.files[1], []);
    assert Total([[], []], 2) == Total([[], []], 1) == 0;
  }

  // A snapshot of at most ten thousand octets splits under every limit.
  lemma {:induction false} SmallSplits(data: seq<byte>, id: Label, maximum: nat)
    requires Valid(data) && LabelOk(id) && |data| <= 10_000 && Reserve(id, |data|) + 4 <= maximum
    ensures Pieces(data, id, maximum).Ok?
  {
    SplitCorrect(data, id, maximum);
    EnoughParts(maximum - Reserve(id, |data|));
    NoErrorLeft(Pieces(data, id, maximum));
  }

  lemma {:induction false} NoErrorLeft(r: Result<seq<Piece>, SplitError>)
    requires r != Err(LimitTooSmall) && r != Err(TooManyParts) && r != Err(NoBoundary)
    ensures r.Ok?
  {
    match r {
      case Ok(_) =>
      case Err(e) =>
        match e { case LimitTooSmall => case NoBoundary => case TooManyParts => }
    }
  }

  lemma {:induction false} EnoughParts(budget: nat)
    requires budget >= 4
    ensures MAX_PARTS * Least(budget) >= 10_000
  {
  }

  // Metadata, entries and manifest take no more than this.
  ghost predicate SmallTexts(t: Tools, version: string, inventory: Inventory, payloads: seq<seq<byte>>, maximum: nat)
    requires |payloads| == |inventory.files|
  {
    && Identified(t, version, inventory.gitCommit, inventory.inventorySha256)
    && |t.canonicalMetadata(FORMAT, version, inventory.gitCommit, inventory.inventorySha256)| <= 1000
    && (forall e | e in inventory.files :: |t.canonicalEntry(e)| <= 2000)
    && var l := LayoutFor(t, version, inventory);
    var snapshot := Framed(l, inventory.files, payloads);
    forall pieces | Pieces(snapshot, LabelOf(t, version, inventory.inventorySha256), maximum) == Ok(pieces) ::
      t.manifestSize(ManifestOf(t, l, version, inventory, maximum, snapshot, pieces)) <= MAX_PART_BYTES
  }

  lemma {:induction false} SmallPrintable(t: Tools, version: string, inventory: Inventory, payloads: seq<seq<byte>>,
                                          maximum: nat)
    requires ToolsOk(t) && Admissible(t, inventory, payloads)
    requires SafeVersion(version) && 1024 <= maximum <= MAX_PART_BYTES
    requires SmallTexts(t, version, inventory, payloads, maximum)
    requires |Framed(LayoutFor(t, version, inventory), inventory.files, payloads)| <= 10_000
    ensures Printable(t, version, inventory, payloads, maximum)
  {
    var id := LabelOf(t, version, inventory.inventorySha256);
    var snapshot := Framed(LayoutFor(t, version, inventory), inventory.files, payloads);
    SnapshotValid(t, version, inventory, payloads);
    LimitSuffices(t, version, inventory.inventorySha256, |snapshot|);
    SmallSplits(snapshot, id, maximum);
    assert Pieces(snapshot, id, maximum) == Ok(Pieces(snapshot, id, maximum).value);
  }

  /**
   Distinct case-folded paths are not enough: the inventory of these two files is
   collected, and whatever the version and the limit, its export is written in full
   before its verification refuses it.
   */
  lemma {:induction false} ShadowExample(t: Tools, version: string, commit: string, maximum: nat)
    requires ToolsOk(t) && Shadowing(t) && CommitId(commit)
    requires SafeVersion(version) && 1024 <= maximum <= MAX_PART_BYTES
    requires SmallTexts(t, version, ShadowInventory(t, commit), [[], []], maximum)
    ensures
      var inventory := ShadowInventory(t, commit);
      && Selectable(t, SHADOW, {}) && Admissible(t, inventory, [[], []])
      && Printable(t, version, inventory, [[], []], maximum) && !Unshadowed(t, inventory.files)
  {
    ShadowSelected(t);
    ShadowAdmissible(t, commit);
    var inventory := ShadowInventory(t, commit);
    var l := LayoutFor(t, version, inventory);
    assert |Frames(l, inventory.files, [[], []], 2)| <= 4200 by {
      assert inventory.files[0] in inventory.files && inventory.files[1] in inventory.files;
      assert |Frames(l, inventory.files, [[], []], 1)| <= 2100;
    }
    SmallPrintable(t, version, inventory, [[], []], maximum);
  }

  /** The primitives can be as that example wants them. */
  lemma {:induction false} ShadowTools(version: string, commit: string, maximum: nat) returns (t: Tools)
    requires SafeVersion(version) && CommitId(commit)
    ensures ToolsOk(t) && Shadowing(t) && SmallTexts(t, version, ShadowInventory(t, commit), [[], []], maximum)
  {
    t := Tools(s => Zeros(64), files => [], e => [], (a, b, c, d) => [], m => 0, path => false, s => false,
               c => if c == 'A' then "a" else [c], "");
    assert Valid([]);
    LabelAscii(t, version, ShadowInventory(t, commit).inventorySha256);
  }
}
