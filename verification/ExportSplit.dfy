/** Splitting a snapshot into parts at UTF-8 boundaries, preferring line ends. */
module ExportSplit {
  import opened Results
  import opened Utf8
  import opened ExportFormat

  datatype Piece = Piece(offset: nat, data: seq<byte>)

  datatype SplitError = LimitTooSmall | NoBoundary | TooManyParts

  const NEWLINE: byte := 10

  // --- where the loop cuts ----------------------------------------------------

  /** Backing up from `end` over continuation octets, not before `low`. */
  function Backed(data: seq<byte>, low: nat, end: nat): (r: nat)
    requires low <= end < |data|
    ensures low <= r <= end
    ensures r == low || !Cont(data[r])
    ensures forall j | r < j <= end :: Cont(data[j])
  {
    if end > low && Cont(data[end]) then Backed(data, low, end - 1) else end
  }

  /** `data.rfind(b"\n", low, high)` */
  function LastNewline(data: seq<byte>, low: nat, high: nat): (r: int)
    requires high <= |data|
    ensures r == -1 || (low <= r < high && data[r] == NEWLINE)
    ensures forall j | low <= j < high && j > r :: data[j] != NEWLINE
    decreases high
  {
    if high <= low then -1
    else if data[high - 1] == NEWLINE then high - 1
    else LastNewline(data, low, high - 1)
  }

  function Cut(data: seq<byte>, offset: nat, budget: nat): (end: nat)
    requires offset < |data|
    ensures offset <= end <= |data| && end - offset <= budget
  {
    if offset + budget >= |data| then |data|
    else
      var backed := Backed(data, offset, offset + budget);
      var newline := LastNewline(data, offset + budget / 2, backed);
      if newline >= 0 then newline + 1 else backed
  }

  // What the loop still produces from `offset` on, after `done`.
  function Rest(data: seq<byte>, budget: nat, offset: nat, done: seq<Piece>): Result<seq<Piece>, SplitError>
    decreases |data| - offset
  {
    if offset >= |data| then Ok(done)
    else
      var end := Cut(data, offset, budget);
      if end <= offset then Err(NoBoundary)
      else if |done| + 1 > MAX_PARTS then Err(TooManyParts)
      else Rest(data, budget, end, done + [Piece(offset, data[offset..end])])
  }

  function Reserve(id: Label, total: nat): nat
    requires LabelOk(id)
  {
    |Header(id, MAX_PARTS, MAX_PARTS, total)|
  }

  function Pieces(data: seq<byte>, id: Label, maximum: nat): Result<seq<Piece>, SplitError>
    requires LabelOk(id)
  {
    var reserve := Reserve(id, |data|);
    if maximum < reserve + 4 then Err(LimitTooSmall) else Rest(data, maximum - reserve, 0, [])
  }

  method SplitSnapshot(data: seq<byte>, id: Label, maximum: nat) returns (r: Result<seq<Piece>, SplitError>)
    requires LabelOk(id)
    ensures r == Pieces(data, id, maximum)
  {
    var reserve := |Header(id, MAX_PARTS, MAX_PARTS, |data|)|;
    var budget: int := maximum - reserve;
    if budget < 4 {
      return Err(LimitTooSmall);
    }
    var pieces: seq<Piece> := [];
    var offset := 0;
    while offset < |data|
      invariant 0 <= offset <= |data|
      invariant Pieces(data, id, maximum) == Rest(data, budget, offset, pieces)
      invariant |pieces| <= MAX_PARTS
    {
      var end := if offset + budget < |data| then offset + budget else |data|;
      if end < |data| {
        end := BackUp(data, offset, end);
        var newline := FindNewline(data, offset + budget / 2, end);
        if newline >= 0 {
          end := newline + 1;
        }
      }
      assert end == Cut(data, offset, budget);
      if end <= offset {
        return Err(NoBoundary);
      }
      pieces := pieces + [Piece(offset, data[offset..end])];
      if |pieces| > MAX_PARTS {
        return Err(TooManyParts);
      }
      offset := end;
    }
    return Ok(pieces);
  }

  method BackUp(data: seq<byte>, low: nat, start: nat) returns (end: nat)
    requires low <= start < |data|
    ensures end == Backed(data, low, start)
  {
    end := start;
    while end > low && Cont(data[end])
      invariant low <= end <= start
      invariant Backed(data, low, start) == Backed(data, low, end)
    {
      end := end - 1;
    }
  }

  method FindNewline(data: seq<byte>, low: nat, high: nat) returns (r: int)
    requires high <= |data|
    ensures r == LastNewline(data, low, high)
  {
    var i := high;
    while i > low
      invariant 0 <= i <= high
      invariant LastNewline(data, low, high) == LastNewline(data, low, i)
    {
      if data[i - 1] == NEWLINE { return i - 1; }
      i := i - 1;
    }
    return -1;
  }

  // --- what the pieces are ----------------------------------------------------

  function Joined(pieces: seq<Piece>): seq<byte> {
    if pieces == [] then [] else Joined(pieces[..|pieces| - 1]) + pieces[|pieces| - 1].data
  }

  /** Every piece that is not the last has at least this many octets. */
  function Least(budget: nat): nat
    requires budget >= 4
  {
    if budget - 3 < budget / 2 + 1 then budget - 3 else budget / 2 + 1
  }

  // A piece ends a line unless the second half of its window holds no line end.
  ghost predicate PrefersLines(data: seq<byte>, piece: Piece, budget: nat) {
    var end := piece.offset + |piece.data|;
    || end == |data|
    || (end <= |data| && |piece.data| > 0 && piece.data[|piece.data| - 1] == NEWLINE)
    || (forall j | piece.offset + budget / 2 <= j < end && j < |data| :: data[j] != NEWLINE)
  }

  ghost predicate PieceOk(data: seq<byte>, piece: Piece, budget: nat) {
    && 0 < |piece.data| <= budget
    && Valid(piece.data)
    && PrefersLines(data, piece, budget)
  }

  // The pieces cover data[..offset], each starting where the previous ones end.
  ghost predicate Covers(data: seq<byte>, budget: nat, offset: nat, pieces: seq<Piece>) {
    && offset <= |data|
    && Joined(pieces) == data[..offset]
    && (forall i: nat | i < |pieces| :: Covered(data, budget, pieces, i))
  }

  ghost predicate Covered(data: seq<byte>, budget: nat, pieces: seq<Piece>, i: nat) {
    && i < |pieces| && PieceOk(data, pieces[i], budget)
    && pieces[i].offset == |Joined(pieces[..i])|
  }

  // All pieces are full, except that the last may reach the end of the data.
  ghost predicate Full(data: seq<byte>, least: nat, offset: nat, pieces: seq<Piece>) {
    forall i | 0 <= i < |pieces| :: |pieces[i].data| >= least || (i == |pieces| - 1 && offset == |data|)
  }

  // On valid text every cut makes progress and falls on a boundary.
  lemma {:induction false} CutProgress(data: seq<byte>, offset: nat, budget: nat)
    requires Valid(data) && budget >= 4 && offset < |data| && Boundary(data, offset)
    ensures var end := Cut(data, offset, budget);
      && offset < end && Boundary(data, end)
      && (end < |data| ==> end - offset >= Least(budget))
  {
    var end := Cut(data, offset, budget);
    if offset + budget < |data| {
      NearbyBoundary(data, offset + budget);
      var backed := Backed(data, offset, offset + budget);
      assert backed >= offset + budget - 3;
      if end != backed {
        AfterAscii(data, end - 1);
      }
    }
  }

  lemma {:induction false} CutPrefersLines(data: seq<byte>, offset: nat, budget: nat)
    requires offset < |data| && offset < Cut(data, offset, budget)
    ensures PrefersLines(data, Piece(offset, data[offset..Cut(data, offset, budget)]), budget)
  {
  }

  lemma {:induction false} CutPiece(data: seq<byte>, offset: nat, budget: nat)
    requires Valid(data) && budget >= 4 && offset < |data| && Boundary(data, offset)
    ensures PieceOk(data, Piece(offset, data[offset..Cut(data, offset, budget)]), budget)
  {
    CutProgress(data, offset, budget);
    CutPrefersLines(data, offset, budget);
    ValidSlice(data, offset, Cut(data, offset, budget));
  }

  lemma {:induction false} Grow(data: seq<byte>, budget: nat, offset: nat, end: nat, done: seq<Piece>)
    requires offset < end <= |data| && Covers(data, budget, offset, done)
    requires PieceOk(data, Piece(offset, data[offset..end]), budget)
    ensures Covers(data, budget, end, done + [Piece(offset, data[offset..end])])
  {
    var pieces := done + [Piece(offset, data[offset..end])];
    assert pieces[..|pieces| - 1] == done;
    assert data[..end] == data[..offset] + data[offset..end];
    forall i: nat | i < |pieces| ensures Covered(data, budget, pieces, i) {
      assert pieces[..i] == done[..i];
      if i == |done| { assert done[..i] == done; } else { assert Covered(data, budget, done, i); }
    }
  }

  lemma {:induction false} RestGood(data: seq<byte>, budget: nat, offset: nat, done: seq<Piece>)
    requires Valid(data) && budget >= 4 && Boundary(data, offset) && |done| <= MAX_PARTS
    requires Covers(data, budget, offset, done) && Full(data, Least(budget), offset, done)
    ensures var r := Rest(data, budget, offset, done);
      && r != Err(NoBoundary) && r != Err(LimitTooSmall)
      && (r.Ok? ==>
            && Covers(data, budget, |data|, r.value) && Full(data, Least(budget), |data|, r.value)
            && |r.value| <= MAX_PARTS)
      && (r.Err? ==> NeedsMore(data, budget))
    decreases |data| - offset
  {
    if offset < |data| {
      var end := Cut(data, offset, budget);
      CutProgress(data, offset, budget);
      CutPiece(data, offset, budget);
      Grow(data, budget, offset, end, done);
      if |done| + 1 <= MAX_PARTS {
        RestGood(data, budget, end, done + [Piece(offset, data[offset..end])]);
      } else {
        assert Covers(data, budget, offset, done) && Full(data, Least(budget), offset, done);
      }
    }
  }

  // MAX_PARTS full pieces do not reach the end.
  ghost predicate NeedsMore(data: seq<byte>, budget: nat)
    requires budget >= 4
  {
    exists offset: nat, done: seq<Piece> ::
      && offset < |data| && |done| == MAX_PARTS
      && Covers(data, budget, offset, done) && Full(data, Least(budget), offset, done)
  }

  lemma {:induction false} FullSize(least: nat, pieces: seq<Piece>)
    requires forall i | 0 <= i < |pieces| :: |pieces[i].data| >= least
    ensures |Joined(pieces)| >= |pieces| * least
  {
    if pieces != [] {
      var init := pieces[..|pieces| - 1];
      FullSize(least, init);
      assert |pieces| * least == |init| * least + least;
    }
  }

  lemma {:induction false} Times(n: nat, k: nat, m: nat)
    ensures n >= k ==> n * m >= k * m
  {
    if n >= k { assert n * m == k * m + (n - k) * m; }
  }

  lemma {:induction false} CountBound(n: nat, m: nat, total: nat)
    requires m > 0 && n * m <= total
    ensures n <= total / m
  {
    assert total < (total / m + 1) * m;
    Times(n, total / m + 1, m);
  }

  // All but the last are full, and the last is not empty.
  lemma {:induction false} CountPieces(count: nat, m: nat, full: nat, last: nat)
    requires m > 0 && last > 0 && count * m <= full
    ensures count + 1 <= (full + last + m - 1) / m
  {
    assert (count + 1) * m == count * m + m;
    CountBound(count + 1, m, full + last + m - 1);
  }

  lemma {:induction false} PieceCount(data: seq<byte>, budget: nat, pieces: seq<Piece>)
    requires budget >= 4 && Covers(data, budget, |data|, pieces) && Full(data, Least(budget), |data|, pieces)
    ensures |pieces| <= (|data| + Least(budget) - 1) / Least(budget)
  {
    if pieces == [] {
      CountBound(0, Least(budget), |data| + Least(budget) - 1);
    } else {
      var init, last := pieces[..|pieces| - 1], pieces[|pieces| - 1];
      FullSize(Least(budget), init);
      assert Covered(data, budget, pieces, |pieces| - 1);
      assert Joined(pieces) == Joined(init) + last.data;
      assert data[..|data|] == data;
      CountPieces(|init|, Least(budget), |Joined(init)|, |last.data|);
    }
  }

  // The i-th part is well cut, starts where the previous ones end, and fits its limit.
  ghost predicate PieceGood(data: seq<byte>, id: Label, maximum: nat, pieces: seq<Piece>, i: nat)
    requires LabelOk(id)
  {
    && i < |pieces| && Reserve(id, |data|) <= maximum
    && PieceOk(data, pieces[i], maximum - Reserve(id, |data|))
    && pieces[i].offset == |Joined(pieces[..i])|
    && |Header(id, i + 1, |pieces|, pieces[i].offset)| + |pieces[i].data| <= maximum
  }

  // The parts that a successful split yields.
  ghost predicate GoodSplit(data: seq<byte>, id: Label, maximum: nat, pieces: seq<Piece>)
    requires LabelOk(id)
  {
    var budget := maximum - Reserve(id, |data|);
    && budget >= 4
    && Joined(pieces) == data
    && |pieces| <= MAX_PARTS && |pieces| <= (|data| + Least(budget) - 1) / Least(budget)
    && forall i: nat | i < |pieces| :: PieceGood(data, id, maximum, pieces, i)
  }

  lemma {:induction false} PiecesFit(data: seq<byte>, id: Label, maximum: nat, pieces: seq<Piece>, i: nat)
    requires LabelOk(id) && maximum >= Reserve(id, |data|) && i < |pieces| <= MAX_PARTS
    requires Covers(data, maximum - Reserve(id, |data|), |data|, pieces)
    ensures PieceGood(data, id, maximum, pieces, i)
  {
    assert Covered(data, maximum - Reserve(id, |data|), pieces, i);
    JoinedPrefix(pieces, i);
    assert data[..|data|] == data;
    HeaderFits(id, i + 1, |pieces|, pieces[i].offset, |data|);
  }

  lemma {:induction false} AllFit(data: seq<byte>, id: Label, maximum: nat, pieces: seq<Piece>)
    requires LabelOk(id) && maximum >= Reserve(id, |data|) && |pieces| <= MAX_PARTS
    requires Covers(data, maximum - Reserve(id, |data|), |data|, pieces)
    ensures forall i: nat | i < |pieces| :: PieceGood(data, id, maximum, pieces, i)
  {
    forall i: nat | i < |pieces| ensures PieceGood(data, id, maximum, pieces, i) {
      PiecesFit(data, id, maximum, pieces, i);
    }
  }

  lemma {:induction false} CoversAll(data: seq<byte>, budget: nat, pieces: seq<Piece>)
    requires Covers(data, budget, |data|, pieces)
    ensures Joined(pieces) == data
  {
    assert data[..|data|] == data;
  }

  lemma {:induction false} CoversIsGood(data: seq<byte>, id: Label, maximum: nat, pieces: seq<Piece>)
    requires LabelOk(id) && maximum >= Reserve(id, |data|) + 4 && |pieces| <= MAX_PARTS
    requires Covers(data, maximum - Reserve(id, |data|), |data|, pieces)
    requires Full(data, Least(maximum - Reserve(id, |data|)), |data|, pieces)
    ensures GoodSplit(data, id, maximum, pieces)
  {
    var budget := maximum - Reserve(id, |data|);
    PieceCount(data, budget, pieces);
    CoversAll(data, budget, pieces);
    AllFit(data, id, maximum, pieces);
  }

  lemma {:induction false} NeedsMoreSize(data: seq<byte>, budget: nat)
    requires budget >= 4 && NeedsMore(data, budget)
    ensures MAX_PARTS * Least(budget) < |data|
  {
    var offset: nat, done: seq<Piece> :|
      && offset < |data| && |done| == MAX_PARTS
      && Covers(data, budget, offset, done) && Full(data, Least(budget), offset, done);
    FullSize(Least(budget), done);
  }

  /**
   On valid text, splitting fails only for a limit too small for the header or for
   needing more than MAX_PARTS parts; otherwise the pieces are nonempty valid UTF-8
   texts that make up the data, with cumulative offsets, and few.
   */
  lemma {:induction false} SplitCorrect(data: seq<byte>, id: Label, maximum: nat)
    requires Valid(data) && LabelOk(id)
    ensures var r := Pieces(data, id, maximum);
      && (r.Ok? ==> GoodSplit(data, id, maximum, r.value))
      && (r == Err(LimitTooSmall) <==> maximum < Reserve(id, |data|) + 4)
      && (r == Err(TooManyParts) ==> MAX_PARTS * Least(maximum - Reserve(id, |data|)) < |data|)
      && r != Err(NoBoundary)
  {
    if maximum >= Reserve(id, |data|) + 4 {
      var budget := maximum - Reserve(id, |data|);
      assert Joined([]) == data[..0];
      ValidStart(data);
      RestGood(data, budget, 0, []);
      var r := Rest(data, budget, 0, []);
      if r.Ok? {
        CoversIsGood(data, id, maximum, r.value);
      } else {
        NeedsMoreSize(data, budget);
      }
    }
  }

  lemma {:induction false} ValidStart(data: seq<byte>)
    requires Valid(data)
    ensures Boundary(data, 0)
  {
  }

  lemma {:induction false} JoinedPrefix(pieces: seq<Piece>, i: nat)
    requires i <= |pieces|
    ensures |Joined(pieces[..i])| <= |Joined(pieces)|
    decreases |pieces|
  {
    if i < |pieces| {
      JoinedPrefix(pieces[..|pieces| - 1], i);
      assert pieces[..|pieces| - 1][..i] == pieces[..i];
    } else {
      assert pieces[..i] == pieces;
    }
  }
}
