/** A framed snapshot tells everything that was printed into it, without any digest. */
module ExportUnique {
  import opened Utf8
  import opened ExportFormat
  import opened ExportSplit
  import opened ExportFraming
  import opened ExportCodec
  import opened ExportCreate

  /** Canonical JSON is one line, and different records are printed differently. */
  ghost predicate PlainLines(t: Tools) {
    && (forall e: Entry :: NEWLINE !in t.canonicalEntry(e))
    && (forall e: Entry, other: Entry :: t.canonicalEntry(e) == t.canonicalEntry(other) ==> e == other)
    && (forall a: string, b: string, c: string, d: string :: NEWLINE !in t.canonicalMetadata(a, b, c, d))
    && (forall a: string, b: string, c: string, d: string, x: string, y: string, z: string, w: string ::
          t.canonicalMetadata(a, b, c, d) == t.canonicalMetadata(x, y, z, w) ==> a == x && b == y && c == z && d == w)
  }

  // --- cutting texts ------------------------------------------------------------------

  lemma {:induction false} SameFront(a: seq<byte>, b: seq<byte>, x: seq<byte>, y: seq<byte>)
    requires a + x == b + y && |a| == |b|
    ensures a == b && x == y
  {
    assert a == (a + x)[..|a|] && b == (b + y)[..|b|];
    assert x == (a + x)[|a|..] && y == (b + y)[|b|..];
  }

  lemma {:induction false} NoEarlierEnd(a: seq<byte>, b: seq<byte>, x: seq<byte>, y: seq<byte>)
    requires NEWLINE !in b && a + [NEWLINE] + x == b + [NEWLINE] + y
    ensures |a| >= |b|
  {
    LineAt(a, x);
    LineAt(b, y);
  }

  // A line and its end.
  lemma {:induction false} LineAt(a: seq<byte>, x: seq<byte>)
    ensures (a + [NEWLINE] + x)[|a|] == NEWLINE
    ensures forall k | 0 <= k < |a| :: (a + [NEWLINE] + x)[k] == a[k]
  {
  }

  /** The first line ends where it ends. */
  lemma {:induction false} SameLine(a: seq<byte>, b: seq<byte>, x: seq<byte>, y: seq<byte>)
    requires NEWLINE !in a && NEWLINE !in b && a + [NEWLINE] + x == b + [NEWLINE] + y
    ensures a == b && x == y
  {
    NoEarlierEnd(a, b, x, y);
    NoEarlierEnd(b, a, y, x);
    SameFront(a + [NEWLINE], b + [NEWLINE], x, y);
    SameFront(a, b, [NEWLINE], [NEWLINE]);
  }

  // --- frames ---------------------------------------------------------------------------

  // The files of one export and what is printed after their frames.
  datatype Printed = Printed(files: seq<Entry>, payloads: seq<seq<byte>>)

  ghost predicate Sized(p: Printed) {
    |p.files| == |p.payloads| && forall i | 0 <= i < |p.files| :: |p.payloads[i]| == p.files[i].bytes
  }

  function Rest(p: Printed): (r: Printed)
    requires p.files != [] && p.payloads != []
  {
    Printed(p.files[1..], p.payloads[1..])
  }

  /** The frames of all files, first to last. */
  function Print(t: Tools, p: Printed): seq<byte>
    requires |p.files| == |p.payloads|
    decreases |p.files|
  {
    if p.files == [] then Encode(END_SNAPSHOT)
    else
      Encode(FILE) + (t.canonicalEntry(p.files[0]) + [NEWLINE] +
                        (p.payloads[0] + (Encode(END_FILE) + Print(t, Rest(p)))))
  }

  lemma {:induction false} FrontDiffers(x: seq<byte>)
    ensures Encode(END_SNAPSHOT) != Encode(FILE) + x
  {
    assert END_SNAPSHOT[2] == 'E' && FILE[2] == 'F';
    assert (Encode(FILE) + x)[2] == Encode(FILE)[2];
  }

  /** What was printed can be told from the print. */
  lemma {:induction false} PrintTells(t: Tools, p: Printed, q: Printed)
    requires PlainLines(t) && Sized(p) && Sized(q) && Print(t, p) == Print(t, q)
    ensures p == q
    decreases |p.files|
  {
    if p.files == [] || q.files == [] {
      PrintFront(t, p);
      PrintFront(t, q);
    } else {
      var x := p.payloads[0] + (Encode(END_FILE) + Print(t, Rest(p)));
      var y := q.payloads[0] + (Encode(END_FILE) + Print(t, Rest(q)));
      var a, b := t.canonicalEntry(p.files[0]), t.canonicalEntry(q.files[0]);
      SameFront(Encode(FILE), Encode(FILE), a + [NEWLINE] + x, b + [NEWLINE] + y);
      SameLine(a, b, x, y);
      SameFront(p.payloads[0], q.payloads[0],
                Encode(END_FILE) + Print(t, Rest(p)), Encode(END_FILE) + Print(t, Rest(q)));
      SameFront(Encode(END_FILE), Encode(END_FILE), Print(t, Rest(p)), Print(t, Rest(q)));
      PrintTells(t, Rest(p), Rest(q));
      assert p.files == [p.files[0]] + Rest(p).files && p.payloads == [p.payloads[0]] + Rest(p).payloads;
      assert q.files == [q.files[0]] + Rest(q).files && q.payloads == [q.payloads[0]] + Rest(q).payloads;
    }
  }

  // Only the print of no files starts with the end.
  lemma {:induction false} PrintFront(t: Tools, p: Printed)
    requires |p.files| == |p.payloads|
    ensures p.files == [] <==> Print(t, p) == Encode(END_SNAPSHOT)
  {
    if p.files != [] {
      FrontDiffers(t.canonicalEntry(p.files[0]) + [NEWLINE] + (p.payloads[0] + (Encode(END_FILE) + Print(t, Rest(p)))));
    }
  }

  // --- whole snapshots --------------------------------------------------------------------

  function Suffix(p: Printed, n: nat): (r: Printed)
    requires n <= |p.files| == |p.payloads|
  {
    Printed(p.files[n..], p.payloads[n..])
  }

  // The layout frames files as they are printed here.
  ghost predicate Lays(t: Tools, l: Layout) {
    && (forall e: Entry :: l.opening(e) == Opening(t, e))
    && l.closing == Encode(END_FILE) && l.ending == Encode(END_SNAPSHOT)
  }

  lemma {:induction false} Regroup(a: seq<byte>, b: seq<byte>, c: seq<byte>, d: seq<byte>, e: seq<byte>)
    ensures a + (b + c + (d + e)) == (a + b + c) + d + e
  {
  }

  lemma {:induction false} PrintNext(t: Tools, l: Layout, p: Printed, n: nat)
    requires Lays(t, l) && n < |p.files| == |p.payloads|
    ensures Print(t, Suffix(p, n)) == Frame(l, p.files[n], p.payloads[n]) + Print(t, Suffix(p, n + 1))
  {
    var rest := Print(t, Suffix(p, n + 1));
    assert Rest(Suffix(p, n)) == Suffix(p, n + 1);
    Regroup(Encode(FILE), t.canonicalEntry(p.files[n]), [NEWLINE], p.payloads[n], Encode(END_FILE) + rest);
    Associate(Opening(t, p.files[n]) + p.payloads[n], Encode(END_FILE), rest);
  }

  lemma {:induction false} Associate(a: seq<byte>, b: seq<byte>, c: seq<byte>)
    ensures a + (b + c) == (a + b) + c
  {
  }

  lemma {:induction false} FramesPrint(t: Tools, l: Layout, p: Printed, n: nat)
    requires Lays(t, l) && n <= |p.files| == |p.payloads|
    ensures Frames(l, p.files, p.payloads, n) + Print(t, Suffix(p, n)) == Print(t, p)
  {
    if n == 0 {
      assert Suffix(p, 0) == p;
      assert Frames(l, p.files, p.payloads, 0) == [];
    } else {
      FramesPrint(t, l, p, n - 1);
      PrintNext(t, l, p, n - 1);
      Associate(Frames(l, p.files, p.payloads, n - 1), Frame(l, p.files[n - 1], p.payloads[n - 1]),
                Print(t, Suffix(p, n)));
    }
  }

  /** The snapshot is its prelude and the print of the files. */
  lemma {:induction false} FramedPrint(t: Tools, l: Layout, p: Printed)
    requires Lays(t, l) && |p.files| == |p.payloads|
    ensures Framed(l, p.files, p.payloads) == l.prelude + Print(t, p)
  {
    var n := |p.files|;
    FramesPrint(t, l, p, n);
    assert Print(t, Suffix(p, n)) == l.ending;
    Associate(l.prelude, Frames(l, p.files, p.payloads, n), l.ending);
  }

  lemma {:induction false} LayoutLays(t: Tools, version: string, inventory: Inventory)
    requires Identified(t, version, inventory.gitCommit, inventory.inventorySha256)
    ensures Lays(t, LayoutFor(t, version, inventory))
    ensures LayoutFor(t, version, inventory).prelude ==
              Prelude(t, version, inventory.gitCommit, inventory.inventorySha256)
  {
  }

  // The second line is the identity.
  lemma {:induction false} PreludeTells(t: Tools, version: string, commit: string, inventory: string,
                                        version': string, commit': string, inventory': string,
                                        x: seq<byte>, y: seq<byte>)
    requires PlainLines(t)
    requires Prelude(t, version, commit, inventory) + x == Prelude(t, version', commit', inventory') + y
    ensures version == version' && commit == commit' && inventory == inventory' && x == y
  {
    var a, b := t.canonicalMetadata(FORMAT, version, commit, inventory),
      t.canonicalMetadata(FORMAT, version', commit', inventory');
    var banner := Encode(BANNER);
    Cut(banner, a, x);
    Cut(banner, b, y);
    SameFront(banner, banner, a + [NEWLINE] + x, b + [NEWLINE] + y);
    SameLine(a, b, x, y);
  }

  lemma {:induction false} Cut(a: seq<byte>, b: seq<byte>, x: seq<byte>)
    ensures (a + b + [NEWLINE]) + x == a + (b + [NEWLINE] + x)
  {
  }

  /** Only one version, inventory and list of payloads prints a given snapshot. */
  lemma {:induction false} SnapshotTells(t: Tools, version: string, inventory: Inventory, payloads: seq<seq<byte>>,
                                         version': string, inventory': Inventory, payloads': seq<seq<byte>>)
    requires PlainLines(t) && Admissible(t, inventory, payloads) && Admissible(t, inventory', payloads')
    requires Identified(t, version, inventory.gitCommit, inventory.inventorySha256)
    requires Identified(t, version', inventory'.gitCommit, inventory'.inventorySha256)
    requires Framed(LayoutFor(t, version, inventory), inventory.files, payloads) ==
               Framed(LayoutFor(t, version', inventory'), inventory'.files, payloads')
    ensures version == version' && inventory == inventory' && payloads == payloads'
  {
    var p, q := Printed(inventory.files, payloads), Printed(inventory'.files, payloads');
    LayoutLays(t, version, inventory);
    LayoutLays(t, version', inventory');
    FramedPrint(t, LayoutFor(t, version, inventory), p);
    FramedPrint(t, LayoutFor(t, version', inventory'), q);
    PreludeTells(t, version, inventory.gitCommit, inventory.inventorySha256,
                 version', inventory'.gitCommit, inventory'.inventorySha256, Print(t, p), Print(t, q));
    AdmissibleSized(t, inventory, payloads);
    AdmissibleSized(t, inventory', payloads');
    PrintTells(t, p, q);
  }

  lemma {:induction false} AdmissibleSized(t: Tools, inventory: Inventory, payloads: seq<seq<byte>>)
    requires Admissible(t, inventory, payloads)
    ensures Sized(Printed(inventory.files, payloads))
  {
    forall i | 0 <= i < |payloads| ensures |payloads[i]| == inventory.files[i].bytes {
      assert Sound(t, inventory.files[i], payloads[i]);
    }
  }
}
