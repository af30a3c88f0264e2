/** Splitting the live renderer log at carriage returns and line feeds: `read_logs`. */
module LogSplitter {
  import opened Utf8

  const CR: byte := 13
  const LF: byte := 10
  const MAX_PENDING: nat := 65536
  const KEPT_TAIL: nat := 4096

  // --- splitting a whole stream, octet by octet -----------------------------------

  predicate LineEnd(b: byte) { b == CR || b == LF }

  predicate Plain(s: seq<byte>) { forall i | 0 <= i < |s| :: !LineEnd(s[i]) }

  /** The complete lines so far, and what follows the last line end. */
  datatype Split = Split(lines: seq<seq<byte>>, tail: seq<byte>)

  const START: Split := Split([], [])

  function Next(st: Split, b: byte): Split {
    if LineEnd(b) then Split(st.lines + [st.tail], []) else Split(st.lines, st.tail + [b])
  }

  function Feed(st: Split, s: seq<byte>): Split
    decreases |s|
  {
    if s == [] then st else Feed(Next(st, s[0]), s[1..])
  }

  lemma {:induction false} FeedConcat(st: Split, a: seq<byte>, b: seq<byte>)
    ensures Feed(st, a + b) == Feed(Feed(st, a), b)
    decreases |a|
  {
    if a == [] {
      assert a + b == b;
    } else {
      assert (a + b)[1..] == a[1..] + b;
      FeedConcat(Next(st, a[0]), a[1..], b);
    }
  }

  lemma {:induction false} FeedPlain(st: Split, s: seq<byte>)
    requires Plain(s)
    ensures Feed(st, s) == Split(st.lines, st.tail + s)
    decreases |s|
  {
    if s == [] {
      assert st.tail + s == st.tail;
    } else {
      FeedPlain(Next(st, s[0]), s[1..]);
      assert st.tail + [s[0]] + s[1..] == st.tail + s;
    }
  }

  // Earlier lines stay in front.
  lemma {:induction false} FeedBehind(earlier: seq<seq<byte>>, st: Split, s: seq<byte>)
    ensures Feed(Split(earlier + st.lines, st.tail), s) == Split(earlier + Feed(st, s).lines, Feed(st, s).tail)
    decreases |s|
  {
    if s != [] {
      var next := Next(st, s[0]);
      assert earlier + (st.lines + [st.tail]) == earlier + st.lines + [st.tail];
      FeedBehind(earlier, next, s[1..]);
    }
  }

  lemma {:induction false} FeedTailPlain(st: Split, s: seq<byte>)
    requires Plain(st.tail)
    ensures Plain(Feed(st, s).tail)
    decreases |s|
  {
    if s != [] { FeedTailPlain(Next(st, s[0]), s[1..]); }
  }

  // --- what streaming may lose --------------------------------------------------------

  predicate Suffix(e: seq<byte>, b: seq<byte>) { |e| <= |b| && b[|b| - |e|..] == e }

  /** A line is delivered whole, or it was overlong and at least its last 4096 octets are. */
  predicate Delivered(e: seq<byte>, b: seq<byte>) {
    e == b || (|b| > MAX_PENDING && |e| >= KEPT_TAIL && Suffix(e, b))
  }

  /** So only a front of an overlong line can be lost, and never of its last octets. */
  lemma {:induction false} DeliveredExact(e: seq<byte>, b: seq<byte>)
    ensures Delivered(e, b) <==>
              exists lost: nat :: lost <= |b| && e == b[lost..] && (lost > 0 ==> |b| > MAX_PENDING && |e| >= KEPT_TAIL)
  {
    if Delivered(e, b) {
      var lost: nat := if e == b then 0 else |b| - |e|;
      assert e == b[lost..];
    }
  }

  ghost predicate AllDelivered(emitted: seq<seq<byte>>, lines: seq<seq<byte>>) {
    |emitted| == |lines| && forall i: nat | i < |lines| :: DeliveredAt(emitted, lines, i)
  }

  ghost predicate DeliveredAt(emitted: seq<seq<byte>>, lines: seq<seq<byte>>, i: nat) {
    i < |emitted| && i < |lines| && Delivered(emitted[i], lines[i])
  }

  ghost predicate Follows(kept: Split, whole: Split) {
    AllDelivered(kept.lines, whole.lines) && Delivered(kept.tail, whole.tail)
  }

  lemma {:induction false} DeliveredExtends(e: seq<byte>, b: seq<byte>, more: seq<byte>)
    requires Delivered(e, b)
    ensures Delivered(e + more, b + more)
  {
    if e != b {
      var k := |b| - |e|;
      assert (b + more)[k..] == b[k..] + more;
    }
  }

  lemma {:induction false} AllDeliveredNext(emitted: seq<seq<byte>>, lines: seq<seq<byte>>, e: seq<byte>, b: seq<byte>)
    requires AllDelivered(emitted, lines) && Delivered(e, b)
    ensures AllDelivered(emitted + [e], lines + [b])
  {
    forall i: nat | i < |lines + [b]| ensures DeliveredAt(emitted + [e], lines + [b], i) {
      if i < |lines| { assert DeliveredAt(emitted, lines, i); }
    }
  }

  /** Whatever was lost before, reading on loses nothing more. */
  lemma {:induction false} FeedFollows(kept: Split, whole: Split, s: seq<byte>)
    requires Follows(kept, whole)
    ensures Follows(Feed(kept, s), Feed(whole, s))
    decreases |s|
  {
    if s != [] {
      AllDeliveredNext(kept.lines, whole.lines, kept.tail, whole.tail);
      DeliveredExtends(kept.tail, whole.tail, [s[0]]);
      FeedFollows(Next(kept, s[0]), Next(whole, s[0]), s[1..]);
    }
  }

  function Trim(pending: seq<byte>): seq<byte> {
    if |pending| > MAX_PENDING then pending[|pending| - KEPT_TAIL..] else pending
  }

  lemma {:induction false} TrimDelivered(pending: seq<byte>, tail: seq<byte>)
    requires Delivered(pending, tail)
    ensures Delivered(Trim(pending), tail)
  {
  }

  // --- the reading loop ---------------------------------------------------------------

  function Stream(chunks: seq<seq<byte>>, n: nat): seq<byte>
    requires n <= |chunks|
  {
    if n == 0 then [] else Stream(chunks, n - 1) + chunks[n - 1]
  }

  // Takes every complete line out of `buffer`.
  method TakeLines(buffer: seq<byte>) returns (lines: seq<seq<byte>>, pending: seq<byte>)
    ensures Split(lines, pending) == Feed(START, buffer)
  {
    lines, pending := [], buffer;
    while CR in pending || LF in pending
      invariant Feed(START, buffer) == Feed(Split(lines, []), pending)
      decreases |pending|
    {
      var end := FindEnd(pending);
      TakeOne(lines, pending, end);
      lines := lines + [pending[..end]];
      pending := pending[end + 1..];
    }
    FeedPlain(Split(lines, []), pending);
    assert [] + pending == pending;
  }

  lemma {:induction false} TakeOne(lines: seq<seq<byte>>, s: seq<byte>, end: nat)
    requires end < |s| && LineEnd(s[end]) && Plain(s[..end])
    ensures Feed(Split(lines, []), s) == Feed(Split(lines + [s[..end]], []), s[end + 1..])
  {
    assert s == s[..end] + s[end..];
    FeedConcat(Split(lines, []), s[..end], s[end..]);
    FeedPlain(Split(lines, []), s[..end]);
    assert [] + s[..end] == s[..end];
    assert s[end..][1..] == s[end + 1..];
  }

  // The first of the two line ends.
  method FindEnd(s: seq<byte>) returns (end: nat)
    requires CR in s || LF in s
    ensures end < |s| && LineEnd(s[end]) && Plain(s[..end])
  {
    end := 0;
    while !LineEnd(s[end])
      invariant end < |s| && Plain(s[..end])
      invariant CR in s[end..] || LF in s[end..]
      decreases |s| - end
    {
      assert s[end..] == [s[end]] + s[end + 1..];
      end := end + 1;
    }
  }

  lemma {:induction false} FeedBuffer(buffer: seq<byte>, chunk: seq<byte>)
    requires Plain(buffer)
    ensures Feed(START, buffer + chunk) == Feed(Split([], buffer), chunk)
  {
    FeedConcat(START, buffer, chunk);
    FeedPlain(START, buffer);
    assert [] + buffer == buffer;
  }

  // One read: the buffer grows, loses its complete lines, and is cut back if too long.
  method Append(buffer: seq<byte>, chunk: seq<byte>) returns (lines: seq<seq<byte>>, pending: seq<byte>)
    requires Plain(buffer)
    ensures var fed := Feed(Split([], buffer), chunk); lines == fed.lines && pending == Trim(fed.tail)
  {
    FeedBuffer(buffer, chunk);
    lines, pending := TakeLines(buffer + chunk);
    if |pending| > MAX_PENDING {
      pending := pending[|pending| - KEPT_TAIL..];
    }
  }

  // After `n` chunks: the delivered lines, and what the buffer keeps of the tail.
  ghost predicate Reading(chunks: seq<seq<byte>>, n: nat, emitted: seq<seq<byte>>, pending: seq<byte>)
    requires n <= |chunks|
  {
    && Follows(Split(emitted, pending), Feed(START, Stream(chunks, n)))
    && Plain(pending) && |pending| <= MAX_PENDING
  }

  lemma {:induction false} ReadingNext(chunks: seq<seq<byte>>, n: nat, emitted: seq<seq<byte>>, pending: seq<byte>)
    requires n < |chunks| && Reading(chunks, n, emitted, pending)
    ensures
      var fed := Feed(Split([], pending), chunks[n]);
      Reading(chunks, n + 1, emitted + fed.lines, Trim(fed.tail))
  {
    var whole := Feed(START, Stream(chunks, n));
    FeedConcat(START, Stream(chunks, n), chunks[n]);
    FeedFollows(Split(emitted, pending), whole, chunks[n]);
    assert emitted + [] == emitted;
    FeedBehind(emitted, Split([], pending), chunks[n]);
    var fed := Feed(Split([], pending), chunks[n]);
    FeedTailPlain(Split([], pending), chunks[n]);
    TrimDelivered(fed.tail, Feed(whole, chunks[n]).tail);
  }

  /**
   However the stream is read, the delivered lines are the lines of the whole stream,
   except that an overlong line may have lost its beginning; the buffer stays bounded.
   */
  method ReadLogs(chunks: seq<seq<byte>>) returns (emitted: seq<seq<byte>>, n: nat, pending: seq<byte>)
    ensures n <= |chunks| && (n < |chunks| ==> chunks[n] == []) && forall i | 0 <= i < n :: chunks[i] != []
    ensures Follows(Split(emitted, pending), Feed(START, Stream(chunks, n))) && |pending| <= MAX_PENDING
  {
    emitted, n, pending := [], 0, [];
    while n < |chunks|
      invariant n <= |chunks| && forall i | 0 <= i < n :: chunks[i] != []
      invariant Reading(chunks, n, emitted, pending)
    {
      if chunks[n] == [] {
        return;
      }
      ReadingNext(chunks, n, emitted, pending);
      var lines;
      lines, pending := Append(pending, chunks[n]);
      emitted := emitted + lines;
      n := n + 1;
    }
  }

  /** Without overlong lines the delivered lines do not depend on the chunking at all. */
  lemma {:induction false} ShortLinesExact(emitted: seq<seq<byte>>, lines: seq<seq<byte>>)
    requires AllDelivered(emitted, lines) && forall i | 0 <= i < |lines| :: |lines[i]| <= MAX_PENDING
    ensures emitted == lines
  {
    forall i | 0 <= i < |lines| ensures emitted[i] == lines[i] {
      assert DeliveredAt(emitted, lines, i);
    }
  }

  // --- the split is what it should be -------------------------------------------------

  // The lines with their line ends put back.
  function Print(lines: seq<seq<byte>>, ends: seq<byte>): seq<byte>
    requires |lines| == |ends|
  {
    if lines == [] then []
    else Print(lines[..|lines| - 1], ends[..|ends| - 1]) + lines[|lines| - 1] + [ends[|ends| - 1]]
  }

  /** `s` is these lines, each followed by one of the line ends, and then the tail. */
  ghost predicate Splits(s: seq<byte>, st: Split, ends: seq<byte>) {
    && |ends| == |st.lines| && (forall i | 0 <= i < |ends| :: LineEnd(ends[i]))
    && (forall i | 0 <= i < |st.lines| :: Plain(st.lines[i])) && Plain(st.tail)
    && s == Print(st.lines, ends) + st.tail
  }

  lemma {:induction false} SplitsNext(s: seq<byte>, st: Split, ends: seq<byte>, b: byte)
    requires Splits(s, st, ends)
    ensures Splits(s + [b], Next(st, b), if LineEnd(b) then ends + [b] else ends)
  {
    if LineEnd(b) {
      var lines := st.lines + [st.tail];
      assert lines[..|lines| - 1] == st.lines && (ends + [b])[..|ends|] == ends;
      assert Print(lines, ends + [b]) == Print(st.lines, ends) + st.tail + [b];
      assert Print(lines, ends + [b]) + [] == s + [b];
    } else {
      assert Print(st.lines, ends) + (st.tail + [b]) == s + [b];
    }
  }

  /** No octet of the stream is lost or moved by splitting it. */
  lemma {:induction false} FeedSplits(seen: seq<byte>, st: Split, ends: seq<byte>, s: seq<byte>)
    returns (all: seq<byte>)
    requires Splits(seen, st, ends)
    ensures Splits(seen + s, Feed(st, s), all)
    decreases |s|
  {
    if s == [] {
      all := ends;
      assert seen + s == seen;
    } else {
      SplitsNext(seen, st, ends, s[0]);
      all := FeedSplits(seen + [s[0]], Next(st, s[0]), if LineEnd(s[0]) then ends + [s[0]] else ends, s[1..]);
      assert seen + [s[0]] + s[1..] == seen + s;
    }
  }
}
