/**
 Printing a source inventory into parts and reading the parts back:
 `snapshot_bytes`, `verify_export` and `create_export`.
 */
module ExportCodec {
  import opened Results
  import opened Utf8
  import opened ExportFormat
  import opened ExportPaths
  import opened ExportSplit
  import opened ExportFraming

  // --- the layout of one export -------------------------------------------------

  function LabelOf(t: Tools, version: string, inventory: string): Label {
    Label(version, inventory, t.advice)
  }

  lemma {:induction false} LabelAscii(t: Tools, version: string, inventory: string)
    requires Ascii(t.advice) && SafeVersion(version) && Hex(inventory)
    ensures LabelOk(LabelOf(t, version, inventory))
  {
    forall i | 0 <= i < |version| ensures version[i] < 128 as char { assert version[i] in version; }
    forall i | 0 <= i < |inventory| ensures inventory[i] < 128 as char { assert inventory[i] in inventory; }
  }

  predicate Identified(t: Tools, version: string, commit: string, inventory: string) {
    && SafeVersion(version) && CommitId(commit)
    && |inventory| == 64 && Hex(inventory)
    && LabelOk(LabelOf(t, version, inventory))
  }

  function Prelude(t: Tools, version: string, commit: string, inventory: string): seq<byte> {
    Encode(BANNER) + t.canonicalMetadata(FORMAT, version, commit, inventory) + [NEWLINE]
  }

  function Opening(t: Tools, e: Entry): seq<byte> { Encode(FILE) + t.canonicalEntry(e) + [NEWLINE] }

  function LayoutOf(t: Tools, version: string, commit: string, inventory: string): Layout
    requires Identified(t, version, commit, inventory)
  {
    Layout(
      (i: nat, c: nat) => PartName(Prefix(version, commit, inventory), i, c),
      (i: nat, c: nat, o: nat) => Header(LabelOf(t, version, inventory), i, c, o),
      Prelude(t, version, commit, inventory),
      (e: Entry) => Opening(t, e),
      Encode(END_FILE),
      Encode(END_SNAPSHOT),
      (s: seq<byte>) => Valid(s))
  }

  // A name of label characters is one plain path component.
  lemma {:induction false} LabelPath(name: string)
    requires 2 < |name| <= 1024 && forall c | c in name :: LabelChar(c)
    ensures SafePath(name) && '/' !in name
  {
    assert Split(name) == [name];
  }

  lemma {:induction false} PartNameLength(version: string, commit: string, inventory: string, index: nat, count: nat)
    requires SafeVersion(version) && CommitId(commit) && |inventory| == 64
    requires index <= MAX_PARTS && count <= MAX_PARTS
    ensures 2 < |PartName(Prefix(version, commit, inventory), index, count)| <= 1024
  {
    Pad5Width(index);
    Pad5Width(count);
  }

  lemma {:induction false} PartNameSafe(version: string, commit: string, inventory: string, index: nat, count: nat)
    requires SafeVersion(version) && CommitId(commit) && |inventory| == 64 && Hex(inventory)
    requires index <= MAX_PARTS && count <= MAX_PARTS
    ensures var name := PartName(Prefix(version, commit, inventory), index, count);
      SafePath(name) && '/' !in name
  {
    var prefix := Prefix(version, commit, inventory);
    PartNameLength(version, commit, inventory, index, count);
    forall c | c in prefix ensures LabelChar(c) {
      PrefixChars(version, commit, inventory, c);
    }
    forall c | c in PartName(prefix, index, count) ensures LabelChar(c) {
      SuffixChars(prefix, index, count, c);
    }
    LabelPath(PartName(prefix, index, count));
  }

  lemma {:induction false} PrefixChars(version: string, commit: string, inventory: string, c: char)
    requires SafeVersion(version) && CommitId(commit) && |inventory| == 64 && Hex(inventory)
    requires c in Prefix(version, commit, inventory)
    ensures LabelChar(c)
  {
    var head := "swarmer-source-";
    assert c in head || c in version || c in "-" || c in commit[..8] || c in inventory[..12];
    assert forall d | d in commit[..8] :: d in commit;
    assert forall d | d in inventory[..12] :: d in inventory;
  }

  lemma {:induction false} SuffixChars(prefix: string, index: nat, count: nat, c: char)
    requires forall d | d in prefix :: LabelChar(d)
    requires c in PartName(prefix, index, count)
    ensures LabelChar(c)
  {
    assert c in prefix || c in ".part-" || c in Pad5(index) || c in "-of-" || c in Pad5(count) || c in ".txt";
  }

  lemma {:induction false} LayoutOfOk(t: Tools, version: string, commit: string, inventory: string)
    requires Identified(t, version, commit, inventory)
    ensures LayoutOk(LayoutOf(t, version, commit, inventory))
  {
    var prefix := Prefix(version, commit, inventory);
    forall i: nat, c: nat | i <= MAX_PARTS && c <= MAX_PARTS
      ensures SafePath(PartName(prefix, i, c)) && '/' !in PartName(prefix, i, c)
    {
      PartNameSafe(version, commit, inventory, i, c);
    }
    forall i: nat, j: nat, c: nat |
      i <= MAX_PARTS && j <= MAX_PARTS && PartName(prefix, i, c) == PartName(prefix, j, c)
      ensures i == j
    {
      PartNamesDiffer(prefix, i, j, c);
    }
  }

  // --- what verification accepts --------------------------------------------------

  function Fold(t: Tools, path: string): string {
    if path == "" then "" else t.fold(path[0]) + Fold(t, path[1..])
  }

  predicate Clash(a: string, b: string) { a == b || b + "/" <= a || a + "/" <= b }

  predicate EntryOk(t: Tools, e: Entry) {
    && SafePath(e.path) && !t.excluded(e.path)
    && (e.mode == 0x1A4 || e.mode == 0x1ED)      // 0o644, 0o755
    && 0 <= e.bytes <= MAX_FILE_BYTES
  }

  predicate FilesOk(t: Tools, files: seq<Entry>) {
    && (forall i | 0 <= i < |files| :: EntryOk(t, files[i]))
    && (forall i, j | 0 <= i < j < |files| :: !Clash(Fold(t, files[i].path), Fold(t, files[j].path)))
  }

  predicate FieldsOk(t: Tools, m: Manifest) {
    && m.format == FORMAT && SafeVersion(m.version) && CommitId(m.gitCommit)
    && 1024 <= m.maxPartBytes <= MAX_PART_BYTES
    && 0 < |m.files| <= MAX_FILES && 0 < |m.parts| <= MAX_PARTS
    && t.digest(t.canonicalFiles(m.files)) == m.inventorySha256
    && 0 < m.snapshotBytes <= MAX_SNAPSHOT_BYTES
  }

  lemma {:induction false} FieldsIdentify(t: Tools, m: Manifest)
    requires ToolsOk(t) && FieldsOk(t, m)
    ensures Identified(t, m.version, m.gitCommit, m.inventorySha256)
  {
    LabelAscii(t, m.version, m.inventorySha256);
  }

  ghost predicate Holds(t: Tools, dir: map<string, seq<byte>>, m: Manifest, l: Layout,
                        chunks: seq<seq<byte>>, payloads: seq<seq<byte>>) {
    && |chunks| == |m.parts| && PartsHold(t, dir, m, l, chunks)
    && var snapshot := Flat(chunks, |chunks|);
    && |snapshot| == m.snapshotBytes && t.digest(snapshot) == m.snapshotSha256
    && Parsed(t, l, m.files, snapshot, payloads)
    && Total(payloads, |payloads|) == m.sourceBytes
  }

  /** The manifest and the parts beside it are a faithful export of `payloads`. */
  ghost predicate Exports(t: Tools, dir: map<string, seq<byte>>, m: Manifest,
                          chunks: seq<seq<byte>>, payloads: seq<seq<byte>>)
  {
    && FieldsOk(t, m) && FilesOk(t, m.files)
    && Identified(t, m.version, m.gitCommit, m.inventorySha256)
    && Holds(t, dir, m, LayoutOf(t, m.version, m.gitCommit, m.inventorySha256), chunks, payloads)
  }

  // --- verify_export ----------------------------------------------------------------

  predicate Free(seen: set<string>, name: string) {
    name !in seen && forall other | other in seen :: !(other + "/" <= name) && !(name + "/" <= other)
  }

  lemma {:induction false} FilesOkNext(t: Tools, files: seq<Entry>, i: nat, seen: set<string>)
    requires i < |files| && FilesOk(t, files[..i])
    requires seen == set j | 0 <= j < i :: Fold(t, files[j].path)
    ensures FilesOk(t, files) ==> EntryOk(t, files[i]) && Free(seen, Fold(t, files[i].path))
    ensures EntryOk(t, files[i]) && Free(seen, Fold(t, files[i].path)) ==> FilesOk(t, files[..i + 1])
  {
    var name := Fold(t, files[i].path);
    if Free(seen, name) {
      forall j | 0 <= j < i ensures !Clash(Fold(t, files[j].path), name) {
        assert Fold(t, files[j].path) in seen;
      }
    }
    if FilesOk(t, files) {
      forall other | other in seen ensures !Clash(other, name) {
        var j :| 0 <= j < i && other == Fold(t, files[j].path);
      }
    }
  }

  method CheckFiles(t: Tools, files: seq<Entry>) returns (ok: bool)
    ensures ok <==> FilesOk(t, files)
  {
    var seen: set<string> := {};
    var i := 0;
    while i < |files|
      invariant 0 <= i <= |files|
      invariant FilesOk(t, files[..i])
      invariant seen == set j | 0 <= j < i :: Fold(t, files[j].path)
    {
      FilesOkNext(t, files, i, seen);
      var e := files[i];
      var name := Fold(t, e.path);
      var safe := IsSafePath(e.path);
      if !safe || !Free(seen, name) {
        return false;
      }
      if t.excluded(e.path) || !(e.mode == 0x1A4 || e.mode == 0x1ED) {
        return false;
      }
      if !(0 <= e.bytes <= MAX_FILE_BYTES) {
        return false;
      }
      seen := seen + {name};
      i := i + 1;
    }
    assert files[..i] == files;
    return true;
  }

  datatype Verified = Verified(snapshot: seq<byte>, payloads: seq<seq<byte>>)

  method VerifyBody(t: Tools, dir: map<string, seq<byte>>, m: Manifest, l: Layout)
    returns (r: Option<Verified>)
    requires LayoutOk(l) && |m.parts| <= MAX_PARTS
    ensures forall chunks, payloads | Holds(t, dir, m, l, chunks, payloads) ::
              r == Some(Verified(Flat(chunks, |chunks|), payloads))
    ensures r.Some? ==> exists chunks ::
              Holds(t, dir, m, l, chunks, r.value.payloads) && r.value.snapshot == Flat(chunks, |chunks|)
  {
    var chunks := ReadParts(t, dir, m, l);
    if chunks.None? {
      return None;
    }
    forall other, payloads | Holds(t, dir, m, l, other, payloads) ensures other == chunks.value {
      AcceptsFunctional(t, dir, m, l);
      ChainedUnique(Accepts(t, dir, m, l), chunks.value, other, |m.parts|);
    }
    var snapshot := JoinAll(chunks.value);
    if |snapshot| != m.snapshotBytes || t.digest(snapshot) != m.snapshotSha256 {
      return None;
    }
    var payloads := ParseFrames(t, l, m.files, snapshot);
    if payloads.None? || Total(payloads.value, |payloads.value|) != m.sourceBytes {
      return None;
    }
    assert Parsed(t, l, m.files, snapshot, payloads.value);
    assert Holds(t, dir, m, l, chunks.value, payloads.value);
    return Some(Verified(snapshot, payloads.value));
  }

  method JoinAll(chunks: seq<seq<byte>>) returns (joined: seq<byte>)
    ensures joined == Flat(chunks, |chunks|)
  {
    joined := [];
    for i := 0 to |chunks|
      invariant joined == Flat(chunks, i)
    {
      joined := joined + chunks[i];
    }
  }

  /**
   Verification accepts exactly the faithful exports, and returns what was exported:
   no property of the digest is used.
   */
  method VerifyExport(t: Tools, dir: map<string, seq<byte>>, m: Manifest)
    returns (r: Option<Verified>)
    requires ToolsOk(t)
    ensures forall chunks, payloads | Exports(t, dir, m, chunks, payloads) ::
              r == Some(Verified(Flat(chunks, |chunks|), payloads))
    ensures r.Some? ==> exists chunks ::
              Exports(t, dir, m, chunks, r.value.payloads) && r.value.snapshot == Flat(chunks, |chunks|)
  {
    if m.format != FORMAT {
      return None;
    }
    var known := IsSafeVersion(m.version);
    var committed := IsCommit(m.gitCommit);
    if !known || !committed {
      return None;
    }
    if !(1024 <= m.maxPartBytes <= MAX_PART_BYTES) {
      return None;
    }
    if !(0 < |m.files| <= MAX_FILES) || !(0 < |m.parts| <= MAX_PARTS) {
      return None;
    }
    if t.digest(t.canonicalFiles(m.files)) != m.inventorySha256 {
      return None;
    }
    var ok := CheckFiles(t, m.files);
    if !ok {
      return None;
    }
    if !(0 < m.snapshotBytes <= MAX_SNAPSHOT_BYTES) {
      return None;
    }
    FieldsIdentify(t, m);
    LayoutOfOk(t, m.version, m.gitCommit, m.inventorySha256);
    r := VerifyBody(t, dir, m, LayoutOf(t, m.version, m.gitCommit, m.inventorySha256));
  }
}
