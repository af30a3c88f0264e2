/** Names, numbers, records and framing of a text source export. */
module ExportFormat {
  import opened Utf8

  // --- limits (scripts/export_source.py) --------------------------------------

  const FORMAT: string := "SWARMER_TEXT_SOURCE_V2"
  const MAX_PART_BYTES: nat := 5_000_000
  const MAX_FILE_BYTES: nat := 64_000_000
  const MAX_SNAPSHOT_BYTES: nat := 512_000_000
  const MAX_FILES: nat := 10_000
  const MAX_PARTS: nat := 10_000

  const BANNER: string := "SWARMER / monGARS - TEXT SOURCE SNAPSHOT V2\n"
  const FILE: string := "@@FILE@@\n"
  const END_FILE: string := "\n@@END_FILE@@\n"
  const END_SNAPSHOT: string := "@@END_SNAPSHOT@@\n"

  // --- decimal numbers --------------------------------------------------------

  predicate Digits(t: string) { forall i | 0 <= i < |t| :: '0' <= t[i] <= '9' }

  function Digit(n: nat): (c: char)
    requires n < 10
    ensures '0' <= c <= '9' && (c - '0') as nat == n
  {
    n as char + '0'
  }

  function Dec(n: nat): (t: string)
    ensures |t| > 0 && Digits(t)
  {
    if n < 10 then [Digit(n)] else Dec(n / 10) + [Digit(n % 10)]
  }

  function Zeros(n: nat): (t: string)
    ensures |t| == n && forall i | 0 <= i < n :: t[i] == '0'
  {
    if n == 0 then "" else "0" + Zeros(n - 1)
  }

  /** The format `{n:05d}`. */
  function Pad5(n: nat): (t: string)
    ensures Digits(t)
  {
    if |Dec(n)| < 5 then Zeros(5 - |Dec(n)|) + Dec(n) else Dec(n)
  }

  function Value(t: string): nat
    requires Digits(t)
  {
    if t == "" then 0 else 10 * Value(t[..|t| - 1]) + (t[|t| - 1] - '0') as nat
  }

  lemma {:induction false} DecValue(n: nat)
    ensures Value(Dec(n)) == n
  {
    if n >= 10 {
      DecValue(n / 10);
      assert Dec(n)[..|Dec(n)| - 1] == Dec(n / 10);
    } else {
      assert Dec(n)[..0] == "";
    }
  }

  lemma {:induction false} LeadingZeros(k: nat, t: string)
    requires Digits(t)
    ensures Value(Zeros(k) + t) == Value(t)
    decreases |t|, k
  {
    if t != "" {
      LeadingZeros(k, t[..|t| - 1]);
      assert (Zeros(k) + t)[..k + |t| - 1] == Zeros(k) + t[..|t| - 1];
    } else if k > 0 {
      LeadingZeros(k - 1, t);
      assert Zeros(k)[..k - 1] == Zeros(k - 1);
      assert Zeros(k) + t == Zeros(k) && Zeros(k - 1) + t == Zeros(k - 1);
    }
  }

  lemma {:induction false} DecLength(n: nat, m: nat)
    requires n <= m
    ensures |Dec(n)| <= |Dec(m)|
  {
    if n >= 10 { DecLength(n / 10, m / 10); }
  }

  /** Up to 99999 the padded form has five digits, and it determines the number. */
  lemma {:induction false} Pad5Width(n: nat)
    requires n < 100_000
    ensures |Pad5(n)| == 5 && Value(Pad5(n)) == n
  {
    DecLength(n, 99_999);
    assert |Dec(99_999)| == 5 by {
      assert |Dec(9)| == 1 && |Dec(99)| == 2 && |Dec(999)| == 3 && |Dec(9_999)| == 4;
    }
    DecValue(n);
    LeadingZeros(5 - |Dec(n)|, Dec(n));
  }

  // --- records ----------------------------------------------------------------

  datatype Entry = Entry(path: string, origin: string, bytes: int, sha256: string, mode: int)

  datatype Part = Part(name: string, bytes: int, sha256: string, headerBytes: int, payloadOffset: int)

  datatype Manifest = Manifest(
    format: string,
    version: string,
    gitCommit: string,
    files: seq<Entry>,
    sourceBytes: int,
    inventorySha256: string,
    maxPartBytes: int,
    snapshotBytes: int,
    snapshotSha256: string,
    parts: seq<Part>)

  /**
   The primitives whose insides do not matter here: SHA-256 in hex, canonical JSON
   in UTF-8, the size of the stored manifest, the path and content screens, the full
   case folding of one character, and the wording of the fixed closing header lines.
   */
  datatype Tools = Tools(
    digest: seq<byte> -> string,
    canonicalFiles: seq<Entry> -> seq<byte>,
    canonicalEntry: Entry -> seq<byte>,
    canonicalMetadata: (string, string, string, string) -> seq<byte>,
    manifestSize: Manifest -> nat,
    excluded: string -> bool,
    secret: seq<byte> -> bool,
    fold: char -> string,
    advice: string)

  predicate HexChar(c: char) { '0' <= c <= '9' || 'a' <= c <= 'f' }

  predicate Hex(t: string) { forall c | c in t :: HexChar(c) }

  // The only facts about the primitives that any result below relies on.
  ghost predicate ToolsOk(t: Tools) {
    && (forall s: seq<byte> :: |t.digest(s)| == 64 && Hex(t.digest(s)))
    && (forall e: Entry :: Valid(t.canonicalEntry(e)))
    && (forall a: string, b: string, c: string, d: string :: Valid(t.canonicalMetadata(a, b, c, d)))
    && t.fold('/') == "/"
    && Ascii(t.advice) && |t.advice| <= 500
  }

  // --- labels and paths -------------------------------------------------------

  predicate Alphanumeric(c: char) { '0' <= c <= '9' || 'A' <= c <= 'Z' || 'a' <= c <= 'z' }

  predicate LabelChar(c: char) { Alphanumeric(c) || c == '.' || c == '_' || c == '-' }

  predicate HasDots(v: string) { exists i :: 0 <= i < |v| - 1 && v[i] == '.' && v[i + 1] == '.' }

  predicate SafeVersion(v: string) {
    && 1 <= |v| <= 64 && Alphanumeric(v[0])
    && (forall c | c in v :: LabelChar(c))
    && !HasDots(v)
  }

  predicate CommitId(v: string) { 40 <= |v| <= 64 && Hex(v) }

  function Join(parts: seq<string>): string
    requires |parts| > 0
  {
    if |parts| == 1 then parts[0] else parts[0] + "/" + Join(parts[1..])
  }

  /** The components of a path, as `PurePosixPath(...).parts` of a normalized one. */
  function Split(path: string): (parts: seq<string>)
    ensures |parts| > 0 && Join(parts) == path
    ensures forall part | part in parts :: '/' !in part
  {
    if '/' !in path then [path]
    else
      var i := FirstSlash(path);
      var rest := Split(path[i + 1..]);
      assert path == path[..i] + "/" + path[i + 1..];
      [path[..i]] + rest
  }

  function FirstSlash(path: string): (i: nat)
    requires '/' in path
    ensures i < |path| && path[i] == '/' && '/' !in path[..i]
  {
    if path[0] == '/' then 0 else 1 + FirstSlash(path[1..])
  }

  predicate SafePart(part: string) { part != "" && part != "." && part != ".." }

  predicate SafeChar(c: char) { c >= 32 as char && c != 127 as char && c != '\\' }

  predicate SafePath(path: string) {
    && 0 < |path| <= 1024
    && (forall c | c in path :: SafeChar(c))
    && (forall part | part in Split(path) :: SafePart(part))
  }

  // --- part names and headers -------------------------------------------------

  function Prefix(version: string, commit: string, inventory: string): string
    requires |commit| >= 8 && |inventory| >= 12
  {
    "swarmer-source-" + version + "-" + commit[..8] + "-" + inventory[..12]
  }

  function PartName(prefix: string, index: nat, count: nat): string {
    (prefix + ".part-") + Pad5(index) + ("-of-" + Pad5(count) + ".txt")
  }

  lemma {:induction false} Middle(before: string, x: string, y: string, after: string)
    requires |x| == |y| && before + x + after == before + y + after
    ensures x == y
  {
    assert x == (before + x + after)[|before|..|before| + |x|];
    assert y == (before + y + after)[|before|..|before| + |y|];
  }

  lemma {:induction false} PartNamesDiffer(prefix: string, i: nat, j: nat, count: nat)
    requires i < 100_000 && j < 100_000
    requires PartName(prefix, i, count) == PartName(prefix, j, count)
    ensures i == j
  {
    Pad5Width(i);
    Pad5Width(j);
    Middle(prefix + ".part-", Pad5(i), Pad5(j), "-of-" + Pad5(count) + ".txt");
  }

  function Title(version: string): (t: string)
    requires Ascii(version)
    ensures Ascii(t) && |t| == 34 + |version|
  {
    "SWARMER / monGARS - TEXT SOURCES " + version + "\n"
  }

  function Ordinal(index: string, count: string): (t: string)
    requires Digits(index) && Digits(count)
    ensures Ascii(t) && |t| == 28 + |index| + |count|
  {
    "Part " + index + " of " + count + " - UTF-8 text only\n"
  }

  function Origin(inventory: string, offset: string): (t: string)
    requires Ascii(inventory) && Digits(offset)
    ensures Ascii(t) && |t| == 36 + |inventory| + |offset|
  {
    "Source set: " + inventory + "\nSnapshot byte offset: " + offset + "\n"
  }

  /** The readable header of one part; `advice` is the fixed closing text. */
  function Header(id: Label, index: nat, count: nat, offset: nat): (h: seq<byte>)
    requires LabelOk(id)
    ensures Valid(h)
    ensures |h| == 98 + |id.version| + |Pad5(index)| + |Pad5(count)|
                   + |id.inventory| + |Dec(offset)| + |id.advice|
  {
    var text := Title(id.version) + Ordinal(Pad5(index), Pad5(count))
                + Origin(id.inventory, Dec(offset)) + id.advice;
    EncodeValid(text);
    Encode(text)
  }

  method TitleLine(version: string) returns (t: string)
    requires Ascii(version)
    ensures t == Title(version)
  {
    t := "SWARMER / monGARS - TEXT SOURCES " + version + "\n";
  }

  method OrdinalLine(index: nat, count: nat) returns (t: string)
    ensures t == Ordinal(Pad5(index), Pad5(count))
  {
    t := "Part " + Pad5(index) + " of " + Pad5(count) + " - UTF-8 text only\n";
  }

  method OriginLines(inventory: string, offset: nat) returns (t: string)
    requires Ascii(inventory)
    ensures t == Origin(inventory, Dec(offset))
  {
    t := "Source set: " + inventory + "\nSnapshot byte offset: " + Dec(offset) + "\n";
  }

  /** `part_header` */
  method PartHeader(id: Label, index: nat, count: nat, offset: nat) returns (h: seq<byte>)
    requires LabelOk(id)
    ensures h == Header(id, index, count, offset)
  {
    var title := TitleLine(id.version);
    var ordinal := OrdinalLine(index, count);
    var origin := OriginLines(id.inventory, offset);
    h := Encode(title + ordinal + origin + id.advice);
  }

  datatype Label = Label(version: string, inventory: string, advice: string)

  predicate LabelOk(id: Label) {
    Ascii(id.version) && Ascii(id.inventory) && Ascii(id.advice)
  }

  /** The header reserved before splitting is at least as long as any header used. */
  lemma {:induction false} HeaderFits(id: Label, index: nat, count: nat, offset: nat, total: nat)
    requires LabelOk(id)
    requires index <= MAX_PARTS && count <= MAX_PARTS && offset <= total
    ensures |Header(id, index, count, offset)| <= |Header(id, MAX_PARTS, MAX_PARTS, total)|
  {
    Pad5Width(index);
    Pad5Width(count);
    Pad5Width(MAX_PARTS);
    DecLength(offset, total);
  }
}
