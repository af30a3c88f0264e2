/** Splitting text until every phoneme sequence fits: `phoneme_chunks`. */
module PhonemeChunks {
  import opened Results

  datatype MediaError = InvalidArguments | RuntimeError | InvalidOutput

  // The phonemizer (None where it returns no string) and the character classes.
  datatype Speech = Speech(
    phonemize: string -> Option<string>,
    space: char -> bool,
    alphanumeric: char -> bool,
    encodes: string -> bool)

  datatype Chunk = Chunk(segment: string, phones: string)

  predicate TextOk(s: Speech, source: string) {
    && (exists i :: 0 <= i < |source| && !s.space(source[i]))
    && |source| <= 1000
    && 0 as char !in source
    && s.encodes(source)
  }

  predicate Spoken(s: Speech, segment: string) {
    exists i :: 0 <= i < |segment| && s.alphanumeric(segment[i])
  }

  // --- where a segment is split -------------------------------------------------

  predicate Break(s: Speech, c: char) { c in ".!?;:\n" || s.space(c) }

  /** A run of break characters ends inside the segment, at `p`. */
  predicate RunEnd(s: Speech, segment: string, p: nat) {
    0 < p < |segment| && Break(s, segment[p - 1]) && !Break(s, segment[p])
  }

  // The characters of the pattern `[.!?;:\n\s]`.
  predicate InClass(s: Speech, c: char) {
    c == '.' || c == '!' || c == '?' || c == ';' || c == ':' || c == '\n' || s.space(c)
  }

  /** A match of one or more of them, which extends as far as it can to both sides. */
  ghost predicate Match(s: Speech, segment: string, i: nat, j: nat) {
    && i < j <= |segment| && (forall k | i <= k < j :: InClass(s, segment[k]))
    && (i == 0 || !InClass(s, segment[i - 1])) && (j == |segment| || !InClass(s, segment[j]))
  }

  lemma {:induction false} MatchStart(s: Speech, segment: string, j: nat) returns (i: nat)
    requires 0 < j <= |segment| && InClass(s, segment[j - 1])
    ensures i < j && (forall k | i <= k < j :: InClass(s, segment[k])) && (i == 0 || !InClass(s, segment[i - 1]))
  {
    i := j - 1;
    if i > 0 && InClass(s, segment[i - 1]) { i := MatchStart(s, segment, i); }
  }

  /** The run ends are the ends of the matches that lie inside the segment. */
  lemma {:induction false} RunEndExact(s: Speech, segment: string, p: nat)
    ensures RunEnd(s, segment, p) <==> 0 < p < |segment| && exists i: nat :: Match(s, segment, i, p)
  {
    if RunEnd(s, segment, p) {
      var i := MatchStart(s, segment, p);
      assert Match(s, segment, i, p);
    }
    forall i: nat | 0 < p < |segment| && Match(s, segment, i, p) ensures RunEnd(s, segment, p) {
      assert InClass(s, segment[p - 1]);
    }
  }

  function Distance(a: int, b: int): nat { if a < b then b - a else a - b }

  /** The first of the closest run ends among the positions below `n`. */
  function Closest(s: Speech, segment: string, n: nat): (r: Option<nat>)
    requires n <= |segment|
    ensures r.None? ==> forall p: nat | p < n :: !RunEnd(s, segment, p)
    ensures r.Some? ==> r.value < n && RunEnd(s, segment, r.value)
    ensures r.Some? ==> forall p: nat | p < n && RunEnd(s, segment, p) ::
      var middle := |segment| / 2;
      if p < r.value then Distance(p, middle) > Distance(r.value, middle)
      else Distance(p, middle) >= Distance(r.value, middle)
  {
    if n == 0 then None
    else
      var before := Closest(s, segment, n - 1);
      if !RunEnd(s, segment, n - 1) then before
      else if before.Some? && Distance(before.value, |segment| / 2) <= Distance(n - 1, |segment| / 2) then before
      else Some(n - 1)
  }

  function SplitPoint(s: Speech, segment: string): (p: nat)
    requires |segment| >= 2
    ensures 0 < p < |segment|
  {
    var closest := Closest(s, segment, |segment|);
    if closest.Some? then closest.value else |segment| / 2
  }

  /** A segment is split at the first of the run ends closest to its middle, else in the middle. */
  lemma {:induction false} SplitClosest(s: Speech, segment: string, p: nat)
    requires |segment| >= 2
    ensures
      var middle := |segment| / 2;
      p == SplitPoint(s, segment) <==>
        if exists q: nat :: RunEnd(s, segment, q) then
          && RunEnd(s, segment, p)
          && (forall q: nat | RunEnd(s, segment, q) :: Distance(q, middle) >= Distance(p, middle))
          && (forall q: nat | q < p && RunEnd(s, segment, q) :: Distance(q, middle) > Distance(p, middle))
        else p == middle
  {
    var closest := Closest(s, segment, |segment|);
    if closest.Some? {
      assert RunEnd(s, segment, closest.value);
    }
  }

  method FindSplit(s: Speech, segment: string) returns (split: nat)
    requires |segment| >= 2
    ensures split == SplitPoint(s, segment)
  {
    var best: Option<nat> := None;
    for p := 0 to |segment|
      invariant best == Closest(s, segment, p)
    {
      if RunEnd(s, segment, p) {
        if best.None? || Distance(p, |segment| / 2) < Distance(best.value, |segment| / 2) {
          best := Some(p);
        }
      }
    }
    return if best.Some? then best.value else |segment| / 2;
  }

  // --- the leaves of the bisection ------------------------------------------------

  function Leaf(s: Speech, segment: string, phones: string): Result<seq<Chunk>, MediaError> {
    if phones == "" && Spoken(s, segment) then Err(InvalidOutput) else Ok([Chunk(segment, phones)])
  }

  function Both(a: Result<seq<Chunk>, MediaError>, b: Result<seq<Chunk>, MediaError>): Result<seq<Chunk>, MediaError> {
    if a.Err? then a else if b.Err? then b else Ok(a.value + b.value)
  }

  /** Bisection by recursion, left half first. */
  function Leaves(s: Speech, segment: string, maximum: nat): Result<seq<Chunk>, MediaError>
    decreases |segment|
  {
    match s.phonemize(segment)
    case None => Err(RuntimeError)
    case Some(phones) =>
      if |phones| <= maximum then Leaf(s, segment, phones)
      else if |segment| < 2 then Err(InvalidOutput)
      else
        var p := SplitPoint(s, segment);
        Both(Leaves(s, segment[..p], maximum), Leaves(s, segment[p..], maximum))
  }

  // The leaves of the pending segments, last one first.
  function Pending(s: Speech, pending: seq<string>, maximum: nat): Result<seq<Chunk>, MediaError>
    decreases |pending|
  {
    if pending == [] then Ok([])
    else Both(Leaves(s, pending[|pending| - 1], maximum), Pending(s, pending[..|pending| - 1], maximum))
  }

  lemma {:induction false} BothAssociates(a: Result<seq<Chunk>, MediaError>, b: Result<seq<Chunk>, MediaError>,
                                          c: Result<seq<Chunk>, MediaError>)
    ensures Both(a, Both(b, c)) == Both(Both(a, b), c)
  {
    if a.Ok? && b.Ok? && c.Ok? {
      assert a.value + (b.value + c.value) == a.value + b.value + c.value;
    }
  }

  lemma {:induction false} PopLeaf(s: Speech, rest: seq<string>, segment: string, maximum: nat)
    ensures Pending(s, rest + [segment], maximum) == Both(Leaves(s, segment, maximum), Pending(s, rest, maximum))
  {
    assert (rest + [segment])[..|rest|] == rest;
  }

  lemma {:induction false} PopSplit(s: Speech, rest: seq<string>, segment: string, maximum: nat)
    requires |segment| >= 2 && s.phonemize(segment).Some? && |s.phonemize(segment).value| > maximum
    ensures
      var p := SplitPoint(s, segment);
      Pending(s, rest + [segment], maximum) == Pending(s, rest + [segment[p..]] + [segment[..p]], maximum)
  {
    var p := SplitPoint(s, segment);
    PopLeaf(s, rest, segment, maximum);
    PopLeaf(s, rest, segment[p..], maximum);
    PopLeaf(s, rest + [segment[p..]], segment[..p], maximum);
    BothAssociates(Leaves(s, segment[..p], maximum), Leaves(s, segment[p..], maximum), Pending(s, rest, maximum));
  }

  // --- what the leaves are ----------------------------------------------------------

  function Segments(chunks: seq<Chunk>): string {
    if chunks == [] then "" else chunks[0].segment + Segments(chunks[1..])
  }

  lemma {:induction false} SegmentsConcat(a: seq<Chunk>, b: seq<Chunk>)
    ensures Segments(a + b) == Segments(a) + Segments(b)
  {
    if a == [] {
      assert a + b == b;
    } else {
      assert (a + b)[1..] == a[1..] + b;
      SegmentsConcat(a[1..], b);
    }
  }

  predicate ChunkOk(s: Speech, c: Chunk, maximum: nat) {
    && c.segment != "" && s.phonemize(c.segment) == Some(c.phones)
    && |c.phones| <= maximum
    && (c.phones == "" ==> !Spoken(s, c.segment))
  }

  ghost predicate Good(s: Speech, segment: string, maximum: nat, chunks: seq<Chunk>) {
    Segments(chunks) == segment && forall i | 0 <= i < |chunks| :: ChunkOk(s, chunks[i], maximum)
  }

  lemma {:induction false} GoodJoin(s: Speech, left: string, right: string, maximum: nat, a: seq<Chunk>, b: seq<Chunk>)
    requires Good(s, left, maximum, a) && Good(s, right, maximum, b)
    ensures Good(s, left + right, maximum, a + b)
  {
    SegmentsConcat(a, b);
  }

  lemma {:induction false} GoodLeaf(s: Speech, c: Chunk, maximum: nat)
    requires ChunkOk(s, c, maximum)
    ensures Good(s, c.segment, maximum, [c])
  {
    assert Segments([c]) == c.segment + Segments([]);
  }

  // The leaves of a segment that is too long are those of its two parts.
  lemma {:induction false} LeavesSplit(s: Speech, segment: string, maximum: nat) returns (left: string, right: string)
    requires Leaves(s, segment, maximum).Ok? && |s.phonemize(segment).value| > maximum
    ensures left != "" && right != "" && segment == left + right
    ensures
      var a, b := Leaves(s, left, maximum), Leaves(s, right, maximum);
      a.Ok? && b.Ok? && Leaves(s, segment, maximum).value == a.value + b.value
  {
    var p := SplitPoint(s, segment);
    left, right := segment[..p], segment[p..];
  }

  /** The leaves are nonempty, fit, carry their own phonemes and spell out the segment. */
  lemma {:induction false} LeavesGood(s: Speech, segment: string, maximum: nat)
    requires segment != "" && Leaves(s, segment, maximum).Ok?
    ensures Good(s, segment, maximum, Leaves(s, segment, maximum).value)
    decreases |segment|
  {
    var phones := s.phonemize(segment).value;
    if |phones| <= maximum {
      GoodLeaf(s, Chunk(segment, phones), maximum);
    } else {
      var left, right := LeavesSplit(s, segment, maximum);
      LeavesGood(s, left, maximum);
      LeavesGood(s, right, maximum);
      GoodJoin(s, left, right, maximum, Leaves(s, left, maximum).value, Leaves(s, right, maximum).value);
    }
  }

  lemma {:induction false} Regroup(a: string, b: string, c: string, d: string)
    ensures (a + b + c) + d == a + b + (c + d) && a + (b + c + d) == (a + b) + c + d
  {
  }

  /** A failed split has a segment to show for it, somewhere in the source. */
  ghost predicate Culprit(s: Speech, segment: string, maximum: nat, error: MediaError) {
    match s.phonemize(segment)
    case None => error == RuntimeError
    case Some(phones) =>
      error == InvalidOutput && if |phones| <= maximum then phones == "" && Spoken(s, segment) else |segment| < 2
  }

  lemma {:induction false} LeavesCulprit(s: Speech, segment: string, maximum: nat)
    returns (before: string, culprit: string, after: string)
    requires Leaves(s, segment, maximum).Err?
    ensures segment == before + culprit + after && (segment != "" ==> culprit != "")
    ensures Culprit(s, culprit, maximum, Leaves(s, segment, maximum).error)
    decreases |segment|
  {
    var phones := s.phonemize(segment);
    if phones.Some? && |phones.value| > maximum && |segment| >= 2 {
      var p := SplitPoint(s, segment);
      var left, right := segment[..p], segment[p..];
      assert segment == left + right;
      if Leaves(s, left, maximum).Err? {
        before, culprit, after := LeavesCulprit(s, left, maximum);
        Regroup(before, culprit, after, right);
        after := after + right;
      } else {
        before, culprit, after := LeavesCulprit(s, right, maximum);
        Regroup(left, before, culprit, after);
        before := left + before;
      }
    } else {
      before, culprit, after := "", segment, "";
    }
  }

  // --- the loop -----------------------------------------------------------------------

  // How many more calls the pending segments can take.
  function Calls(pending: seq<string>): int {
    if pending == [] then 0 else Calls(pending[..|pending| - 1]) + 2 * |pending[|pending| - 1]| - 1
  }

  lemma {:induction false} CallsPush(rest: seq<string>, segment: string)
    ensures Calls(rest + [segment]) == Calls(rest) + 2 * |segment| - 1
  {
    assert (rest + [segment])[..|rest|] == rest;
  }

  lemma {:induction false} CallsBound(pending: seq<string>)
    requires forall i | 0 <= i < |pending| :: pending[i] != ""
    ensures Calls(pending) >= |pending|
  {
    if pending != [] {
      CallsBound(pending[..|pending| - 1]);
      assert pending[|pending| - 1] != "";
    }
  }

  // Between two steps: what is done and what is pending make up the leaves.
  ghost predicate Working(s: Speech, source: string, maximum: nat, pending: seq<string>, result: seq<Chunk>,
                          calls: nat) {
    && (forall i | 0 <= i < |pending| :: pending[i] != "")
    && Leaves(s, source, maximum) == Both(Ok(result), Pending(s, pending, maximum))
    && calls + Calls(pending) <= 2 * |source| - 1
  }

  lemma {:induction false} WorkStarts(s: Speech, source: string, maximum: nat)
    requires source != ""
    ensures Working(s, source, maximum, [source], [], 0)
  {
    assert [] + [source] == [source];
    PopLeaf(s, [], source, maximum);
    CallsPush([], source);
    BothUnit(Leaves(s, source, maximum));
  }

  lemma {:induction false} BothUnit(a: Result<seq<Chunk>, MediaError>)
    ensures Both(a, Ok([])) == a && Both(Ok([]), a) == a
  {
    if a.Ok? { assert a.value + [] == a.value && [] + a.value == a.value; }
  }

  lemma {:induction false} WorkEnds(s: Speech, source: string, maximum: nat, result: seq<Chunk>, calls: nat)
    requires Working(s, source, maximum, [], result, calls)
    ensures Leaves(s, source, maximum) == Ok(result)
  {
    BothUnit(Ok(result));
  }

  lemma {:induction false} WorkFails(s: Speech, source: string, maximum: nat, rest: seq<string>, segment: string,
                                     result: seq<Chunk>, calls: nat)
    requires Working(s, source, maximum, rest + [segment], result, calls)
    requires Leaves(s, segment, maximum).Err?
    ensures Leaves(s, source, maximum) == Leaves(s, segment, maximum)
  {
    PopLeaf(s, rest, segment, maximum);
  }

  lemma {:induction false} WorkCalls(rest: seq<string>, segment: string)
    requires forall i | 0 <= i < |rest + [segment]| :: (rest + [segment])[i] != ""
    ensures 0 <= Calls(rest) < Calls(rest + [segment]) && segment != "" && forall i | 0 <= i < |rest| :: rest[i] != ""
  {
    assert (rest + [segment])[|rest|] == segment;
    forall i | 0 <= i < |rest| ensures rest[i] != "" {
      assert (rest + [segment])[i] == rest[i];
    }
    CallsPush(rest, segment);
    CallsBound(rest);
  }

  lemma {:induction false} WorkLeaf(s: Speech, source: string, maximum: nat, rest: seq<string>, segment: string,
                                    result: seq<Chunk>, calls: nat)
    requires Working(s, source, maximum, rest + [segment], result, calls)
    requires Leaves(s, segment, maximum).Ok? && |Leaves(s, segment, maximum).value| == 1
    ensures Working(s, source, maximum, rest, result + Leaves(s, segment, maximum).value, calls + 1)
  {
    WorkCalls(rest, segment);
    PopLeaf(s, rest, segment, maximum);
    BothAssociates(Ok(result), Leaves(s, segment, maximum), Pending(s, rest, maximum));
  }

  lemma {:induction false} WorkSplit(s: Speech, source: string, maximum: nat, rest: seq<string>, segment: string,
                                     result: seq<Chunk>, calls: nat)
    requires Working(s, source, maximum, rest + [segment], result, calls)
    requires |segment| >= 2 && s.phonemize(segment).Some? && |s.phonemize(segment).value| > maximum
    ensures
      var p := SplitPoint(s, segment);
      var pending := rest + [segment[p..]] + [segment[..p]];
      Working(s, source, maximum, pending, result, calls + 1) && 0 <= Calls(pending) < Calls(rest + [segment])
  {
    var p := SplitPoint(s, segment);
    var pending := rest + [segment[p..]] + [segment[..p]];
    WorkCalls(rest, segment);
    PopSplit(s, rest, segment, maximum);
    CallsPush(rest, segment);
    CallsPush(rest, segment[p..]);
    CallsPush(rest + [segment[p..]], segment[..p]);
    CallsBound(pending);
  }

  predicate AnyPhones(chunks: seq<Chunk>) {
    exists i :: 0 <= i < |chunks| && chunks[i].phones != ""
  }

  function Chunks(s: Speech, source: string, maximum: int): Result<seq<Chunk>, MediaError> {
    if !TextOk(s, source) || !(1 <= maximum <= 510) then Err(InvalidArguments)
    else
      var leaves := Leaves(s, source, maximum);
      if leaves.Ok? && !AnyPhones(leaves.value) then Err(InvalidOutput) else leaves
  }

  /**
   The work stack computes the leaves of the recursive bisection in order, with at
   most 2n - 1 calls of the phonemizer; the joined segments always are the source.
   */
  method PhonemeChunks(s: Speech, source: string, maximum: int) returns (r: Result<seq<Chunk>, MediaError>, calls: nat)
    ensures r == Chunks(s, source, maximum)
    ensures calls == 0 || calls <= 2 * |source| - 1
    ensures r.Ok? ==>
      && Segments(r.value) == source && AnyPhones(r.value)
      && forall i | 0 <= i < |r.value| ::
           var c := r.value[i];
           && c.segment != "" && s.phonemize(c.segment) == Some(c.phones)
           && |c.phones| <= maximum && (c.phones == "" ==> !Spoken(s, c.segment))
  {
    calls := 0;
    var blank := !exists i :: 0 <= i < |source| && !s.space(source[i]);
    if blank || |source| > 1000 || 0 as char in source || !s.encodes(source) || !(1 <= maximum <= 510) {
      return Err(InvalidArguments), calls;
    }
    var pending := [source];
    var result: seq<Chunk> := [];
    WorkStarts(s, source, maximum);
    while pending != []
      invariant Working(s, source, maximum, pending, result, calls)
      invariant Calls(pending) >= 0
      decreases Calls(pending)
    {
      var segment, rest := pending[|pending| - 1], pending[..|pending| - 1];
      assert pending == rest + [segment];
      WorkCalls(rest, segment);
      if Leaves(s, segment, maximum).Err? { WorkFails(s, source, maximum, rest, segment, result, calls); }
      var phones := s.phonemize(segment);
      if phones.None? {
        return Err(RuntimeError), calls + 1;
      }
      if |phones.value| <= maximum {
        if phones.value == "" && exists i :: 0 <= i < |segment| && s.alphanumeric(segment[i]) {
          return Err(InvalidOutput), calls + 1;
        }
        WorkLeaf(s, source, maximum, rest, segment, result, calls);
        result := result + [Chunk(segment, phones.value)];
        pending := rest;
      } else {
        if |segment| < 2 {
          return Err(InvalidOutput), calls + 1;
        }
        var split := FindSplit(s, segment);
        WorkSplit(s, source, maximum, rest, segment, result, calls);
        pending := rest + [segment[split..]] + [segment[..split]];
      }
      calls := calls + 1;
    }
    WorkEnds(s, source, maximum, result, calls);
    LeavesGood(s, source, maximum);
    if Segments(result) != source || !exists i :: 0 <= i < |result| && result[i].phones != "" {
      return Err(InvalidOutput), calls;
    }
    return Ok(result), calls;
  }
}
