/** Normalized relative paths, as `safe_path` and `safe_version` of the export tell them. */
module ExportPaths {
  import opened ExportFormat

  // --- splitting and joining ----------------------------------------------------------

  lemma {:induction false} NoEarlierSlash(path: string, i: nat, end: nat)
    requires i < |path| && path[i] == '/' && end <= |path|
    ensures '/' !in path[..end] ==> end <= i
  {
    if i < end { assert path[..end][i] == '/'; }
  }

  lemma {:induction false} FirstSlashIs(path: string, i: nat)
    requires i < |path| && path[i] == '/' && '/' !in path[..i]
    ensures FirstSlash(path) == i
  {
    NoEarlierSlash(path, FirstSlash(path), i);
    NoEarlierSlash(path, i, FirstSlash(path));
  }

  /** Splitting undoes joining, when no part contains a slash. */
  lemma {:induction false} SplitJoin(parts: seq<string>)
    requires parts != [] && forall i | 0 <= i < |parts| :: '/' !in parts[i]
    ensures Split(Join(parts)) == parts
    decreases |parts|
  {
    if |parts| == 1 {
      assert parts == [parts[0]];
    } else {
      var first, rest := parts[0], parts[1..];
      var path := Join(parts);
      assert path == first + "/" + Join(rest);
      assert path[|first|] == '/' && path[..|first|] == first && path[|first| + 1..] == Join(rest);
      FirstSlashIs(path, |first|);
      SplitJoin(rest);
      assert parts == [first] + rest;
    }
  }

  // --- safe paths ---------------------------------------------------------------------------

  /** `PurePosixPath(path).parts` of a relative path: empty components and single dots vanish. */
  function PosixParts(components: seq<string>): (parts: seq<string>)
    ensures forall part | part in parts :: part in components && part != "" && part != "."
  {
    if components == [] then []
    else (if components[0] == "" || components[0] == "." then [] else [components[0]]) + PosixParts(components[1..])
  }

  lemma {:induction false} PosixSame(components: seq<string>)
    requires forall part | part in components :: part != "" && part != "."
    ensures PosixParts(components) == components
  {
    if components != [] {
      assert components[0] in components;
      forall part | part in components[1..] ensures part != "" && part != "." { assert part in components; }
      PosixSame(components[1..]);
    }
  }

  /** The conditions of `safe_path`, one after the other. */
  predicate Normalized(value: string) {
    var parts := PosixParts(Split(value));
    && value != "" && parts != [] && |value| <= 1024 && '\\' !in value
    && value[0] != '/' && Join(parts) == value
    && (forall part | part in parts :: part != "" && part != "." && part != "..")
    && (forall c | c in value :: !(c < 32 as char || c == 127 as char))
  }

  /** They accept exactly the paths of nonempty components other than dots, without odd characters. */
  lemma {:induction false} SafePathExact(value: string)
    ensures SafePath(value) <==> Normalized(value)
  {
    if SafePath(value) {
      PosixSame(Split(value));
      var first := Split(value)[0];
      assert first in Split(value) && first != "";
      FirstPart(value);
    }
    if Normalized(value) {
      var parts := PosixParts(Split(value));
      forall i | 0 <= i < |parts| ensures '/' !in parts[i] { assert parts[i] in parts; }
      SplitJoin(parts);
    }
  }

  lemma {:induction false} FirstPart(path: string)
    ensures Split(path)[0] <= path
    ensures path != "" && path[0] == '/' ==> Split(path)[0] == ""
  {
    if '/' in path { assert path[..FirstSlash(path)] <= path; }
  }

  lemma {:induction false} PosixStep(components: seq<string>, i: nat)
    requires i < |components|
    ensures PosixParts(components[i..]) ==
      (if components[i] == "" || components[i] == "." then [] else [components[i]]) + PosixParts(components[i + 1..])
  {
    assert components[i..][1..] == components[i + 1..];
  }

  method PartsOf(value: string) returns (parts: seq<string>)
    ensures parts == PosixParts(Split(value))
  {
    var components := Split(value);
    parts := [];
    assert components[0..] == components;
    for i := 0 to |components|
      invariant PosixParts(components) == parts + PosixParts(components[i..])
    {
      PosixStep(components, i);
      ghost var rest := PosixParts(components[i + 1..]);
      var component := components[i];
      if component != "" && component != "." {
        Regroup(parts, [component], rest);
        parts := parts + [component];
      } else {
        Regroup(parts, [], rest);
      }
    }
  }

  lemma {:induction false} Regroup(a: seq<string>, b: seq<string>, c: seq<string>)
    ensures a + (b + c) == (a + b) + c && a + [] == a
  {
  }

  method HasControl(value: string) returns (found: bool)
    ensures found <==> exists c :: c in value && (c < 32 as char || c == 127 as char)
  {
    for i := 0 to |value|
      invariant forall k | 0 <= k < i :: !(value[k] < 32 as char || value[k] == 127 as char)
    {
      if value[i] < 32 as char || value[i] == 127 as char {
        assert value[i] in value;
        return true;
      }
    }
    return false;
  }

  method IsSafePath(value: string) returns (ok: bool)
    ensures ok <==> SafePath(value)
  {
    SafePathExact(value);
    if value == "" || |value| > 1024 || '\\' in value || value[0] == '/' {
      return false;
    }
    var parts := PartsOf(value);
    if parts == [] || Join(parts) != value || ".." in parts {
      return false;
    }
    var odd := HasControl(value);
    return !odd;
  }

  // What one component adds to the depth of a path.
  function Level(part: string): int { if part == ".." then -1 else if part == "" || part == "." then 0 else 1 }

  /** How deep below its start a path leads. */
  function Descent(parts: seq<string>): int {
    if parts == [] then 0 else Level(parts[0]) + Descent(parts[1..])
  }

  /** Following a safe path leads one level down with each component, and never up. */
  lemma {:induction false} SafeDescent(path: string, n: nat)
    requires SafePath(path) && n <= |Split(path)|
    ensures Descent(Split(path)[..n]) == n
  {
    LevelsAdd(Split(path), n);
  }

  lemma {:induction false} LevelsAdd(parts: seq<string>, n: nat)
    requires n <= |parts| && forall part | part in parts :: SafePart(part)
    ensures Descent(parts[..n]) == n
    decreases n
  {
    if n > 0 {
      assert parts[0] in parts;
      forall part | part in parts[1..] ensures SafePart(part) { assert part in parts; }
      LevelsAdd(parts[1..], n - 1);
      assert parts[..n][1..] == parts[1..][..n - 1];
    }
  }

  // --- versions and commits -------------------------------------------------------------------

  /** The pattern of `safe_version`, and no two dots in a row. */
  method IsSafeVersion(value: string) returns (ok: bool)
    ensures ok <==> SafeVersion(value)
  {
    if |value| < 1 || |value| > 64 {
      return false;
    }
    for i := 0 to |value|
      invariant forall k | 0 <= k < i :: LabelChar(value[k])
      invariant forall k | 0 <= k < i - 1 :: !(value[k] == '.' && value[k + 1] == '.')
      invariant i > 0 ==> Alphanumeric(value[0])
    {
      var c := value[i];
      var word := '0' <= c <= '9' || 'A' <= c <= 'Z' || 'a' <= c <= 'z';
      if !word && (i == 0 || !(c == '.' || c == '_' || c == '-')) {
        assert value[i] in value;
        return false;
      }
      if i > 0 && c == '.' && value[i - 1] == '.' {
        return false;
      }
    }
    return true;
  }

  /** Forty to sixty-four lower-case hexadecimal digits. */
  method IsCommit(value: string) returns (ok: bool)
    ensures ok <==> CommitId(value)
  {
    if |value| < 40 || |value| > 64 {
      return false;
    }
    for i := 0 to |value|
      invariant forall k | 0 <= k < i :: HexChar(value[k])
    {
      var c := value[i];
      if !('0' <= c <= '9' || 'a' <= c <= 'f') {
        assert value[i] in value;
        return false;
      }
    }
    return true;
  }
}
