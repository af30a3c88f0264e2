/** Fitting a conversation into a token budget beside protected state: `project`. */
module ContextProjection {
  import opened Utf8

  datatype Mode = CurrentReduction | ObservationMasking | StructuredSummary | SummaryHybrid

  datatype Message = Message(id: string, own: bool, role: string, content: string)

  datatype Candidate = Candidate(sourceId: string, role: string, content: string)

  /**
   The protected members of the payload in each mode, as JSON text between its
   braces, and the JSON text of one selected message.
   */
  datatype Fixture = Fixture(members: Mode -> seq<byte>, json: Candidate -> seq<byte>)

  // --- sizes ------------------------------------------------------------------------

  /** Octets of UTF-8 divided by four, rounded up. */
  function Tokens(text: seq<byte>): nat { (|text| + 3) / 4 }

  const OPEN: seq<byte> := Encode("{")
  const CLOSE: seq<byte> := Encode("}")
  const MESSAGES: seq<byte> := Encode("{\"messages\":[")
  const BETWEEN: seq<byte> := Encode("],")
  const COMMA: seq<byte> := Encode(",")

  function Items(json: Candidate -> seq<byte>, messages: seq<Candidate>): seq<byte> {
    if messages == [] then []
    else json(messages[0]) + (if |messages| > 1 then COMMA + Items(json, messages[1..]) else [])
  }

  /** The payload without and with the member `messages`, which sorts first. */
  function Protected(members: seq<byte>): seq<byte> { OPEN + members + CLOSE }

  function Payload(members: seq<byte>, json: Candidate -> seq<byte>, messages: seq<Candidate>): seq<byte> {
    MESSAGES + Items(json, messages) + BETWEEN + members + CLOSE
  }

  /** The payload with messages is the one without, with one more member in front. */
  lemma {:induction false} MessagesInFront(members: seq<byte>, json: Candidate -> seq<byte>, messages: seq<Candidate>)
    ensures
      var list := Encode("\"messages\":[") + Items(json, messages) + Encode("],");
      Payload(members, json, messages) == Protected(members)[..1] + list + Protected(members)[1..]
    ensures Protected(members) == Encode("{") + members + Encode("}")
  {
    assert MESSAGES == Encode("{") + Encode("\"messages\":[");
  }

  // --- the choice, on weights -----------------------------------------------------------

  // `weights[i]` is what message i takes; nothing else about the messages matters.
  datatype Problem = Problem(weights: seq<nat>, base: nat, budget: int, contiguous: bool)

  ghost predicate In(p: Problem, kept: seq<nat>) {
    forall m | 0 <= m < |kept| :: kept[m] < |p.weights|
  }

  function Weight(p: Problem, i: nat): nat { if i < |p.weights| then p.weights[i] else 0 }

  /** The octets of a list of these messages, with commas between them. */
  function Cost(p: Problem, kept: seq<nat>): nat {
    if kept == [] then 0
    else Weight(p, kept[0]) + (if |kept| > 1 then 1 + Cost(p, kept[1..]) else 0)
  }

  predicate Fit(p: Problem, kept: seq<nat>) { (p.base + Cost(p, kept) + 3) / 4 <= p.budget }

  // What the loop keeps in the end, before it has looked at the first `i` messages.
  function Kept(p: Problem, i: nat, kept: seq<nat>): seq<nat> {
    if i == 0 then kept
    else if Fit(p, [i - 1] + kept) then Kept(p, i - 1, [i - 1] + kept)
    else if p.contiguous then kept
    else Kept(p, i - 1, kept)
  }

  ghost predicate Ascending(kept: seq<nat>, low: nat, high: nat)
    decreases |kept|
  {
    kept == [] || (low <= kept[0] < high && Ascending(kept[1..], kept[0] + 1, high))
  }

  lemma {:induction false} FrontCosts(p: Problem, front: seq<nat>, kept: seq<nat>)
    ensures Cost(p, front + kept) >= Cost(p, kept)
    decreases |front|
  {
    if front == [] {
      assert front + kept == kept;
    } else {
      assert (front + kept)[1..] == front[1..] + kept;
      FrontCosts(p, front[1..], kept);
    }
  }

  lemma {:induction false} FrontUnfit(p: Problem, front: seq<nat>, kept: seq<nat>)
    requires !Fit(p, kept)
    ensures !Fit(p, front + kept)
  {
    FrontCosts(p, front, kept);
  }

  lemma {:induction false} AscendingWeaker(kept: seq<nat>, low: nat, lower: nat, high: nat)
    requires Ascending(kept, low, high) && lower <= low
    ensures Ascending(kept, lower, high)
  {
  }

  /** Messages are only dropped: what is kept stays in the order of the conversation. */
  lemma {:induction false} KeptAscends(p: Problem, i: nat, kept: seq<nat>, n: nat)
    requires i <= n && Ascending(kept, i, n)
    ensures Ascending(Kept(p, i, kept), 0, n)
  {
    if i == 0 {
    } else if Fit(p, [i - 1] + kept) {
      assert ([i - 1] + kept)[1..] == kept;
      KeptAscends(p, i - 1, [i - 1] + kept, n);
    } else {
      AscendingWeaker(kept, i, 0, n);
      AscendingWeaker(kept, i, i - 1, n);
      if !p.contiguous { KeptAscends(p, i - 1, kept, n); }
    }
  }

  /** Whatever is kept fits, unless nothing is. */
  lemma {:induction false} KeptFits(p: Problem, i: nat, kept: seq<nat>)
    requires kept == [] || Fit(p, kept)
    ensures Kept(p, i, kept) == [] || Fit(p, Kept(p, i, kept))
  {
    if i == 0 {
    } else if Fit(p, [i - 1] + kept) {
      KeptFits(p, i - 1, [i - 1] + kept);
    } else if !p.contiguous {
      KeptFits(p, i - 1, kept);
    }
  }

  lemma {:induction false} Regroup(front: seq<nat>, i: nat, kept: seq<nat>)
    ensures (front + [i]) + kept == front + ([i] + kept)
  {
  }

  // Later choices only go in front.
  lemma {:induction false} KeptFront(p: Problem, i: nat, kept: seq<nat>) returns (front: seq<nat>)
    ensures Kept(p, i, kept) == front + kept && forall m | 0 <= m < |front| :: front[m] < i
  {
    if i == 0 {
      front := [];
      assert front + kept == kept;
    } else if Fit(p, [i - 1] + kept) {
      var rest := KeptFront(p, i - 1, [i - 1] + kept);
      front := rest + [i - 1];
      Regroup(rest, i - 1, kept);
    } else if p.contiguous {
      front := [];
      assert front + kept == kept;
    } else {
      front := KeptFront(p, i - 1, kept);
    }
  }

  // Position s separates the kept messages before and after message j.
  ghost predicate Separates(kept: seq<nat>, s: nat, j: nat) {
    && s <= |kept|
    && (forall m | 0 <= m < s :: kept[m] < j)
    && (forall m | s <= m < |kept| :: kept[m] > j)
  }

  lemma {:induction false} ConcatAt(a: seq<nat>, b: seq<nat>, k: nat)
    ensures k < |a| ==> (a + b)[k] == a[k]
    ensures |a| <= k < |a| + |b| ==> (a + b)[k] == b[k - |a|]
  {
  }

  lemma {:induction false} SeparatesUnique(front: seq<nat>, kept: seq<nat>, s: nat, j: nat)
    requires Separates(front + kept, s, j)
    requires (forall m | 0 <= m < |front| :: front[m] < j) && (forall m | 0 <= m < |kept| :: kept[m] > j)
    ensures s == |front| && (front + kept)[s..] == kept
  {
    ConcatAt(front, kept, s);
    ConcatAt(front, kept, |front|);
  }

  lemma {:induction false} NotKept(front: seq<nat>, j: nat, kept: seq<nat>, s: nat)
    ensures !Separates(front + ([j] + kept), s, j)
  {
    assert (front + ([j] + kept))[|front|] == j;
  }

  // A message passed over did not fit before the ones kept behind it.
  lemma {:induction false} PassedOver(p: Problem, i: nat, kept: seq<nat>, j: nat, s: nat)
    requires (forall m | 0 <= m < |kept| :: kept[m] >= i) && !p.contiguous && j < i
    requires Separates(Kept(p, i, kept), s, j)
    ensures !Fit(p, [j] + Kept(p, i, kept)[s..])
  {
    var fits := Fit(p, [i - 1] + kept);
    if j < i - 1 {
      PassedOver(p, i - 1, if fits then [i - 1] + kept else kept, j, s);
    } else {
      var front := KeptFront(p, i - 1, if fits then [i - 1] + kept else kept);
      if fits {
        NotKept(front, j, kept, s);
      } else {
        SeparatesUnique(front, kept, s, j);
      }
    }
  }

  /** In the skipping modes no omitted message fits on top of the final selection. */
  lemma {:induction false} Maximal(p: Problem, j: nat, s: nat)
    requires !p.contiguous && j < |p.weights| && Separates(Kept(p, |p.weights|, []), s, j)
    ensures var kept := Kept(p, |p.weights|, []); !Fit(p, kept[..s] + ([j] + kept[s..]))
  {
    var kept := Kept(p, |p.weights|, []);
    PassedOver(p, |p.weights|, [], j, s);
    FrontUnfit(p, kept[..s], [j] + kept[s..]);
  }

  function Range(low: nat, high: nat): (r: seq<nat>)
    requires low <= high
    ensures |r| == high - low && forall m | 0 <= m < |r| :: r[m] == low + m
    decreases high - low
  {
    if low == high then [] else [low] + Range(low + 1, high)
  }

  lemma {:induction false} ShorterFits(p: Problem, low: nat, mid: nat, high: nat)
    requires low <= mid <= high && Fit(p, Range(low, high))
    ensures Fit(p, Range(mid, high))
    decreases mid - low
  {
    if low < mid {
      assert Range(low, high) == [low] + Range(low + 1, high);
      FrontCosts(p, [low], Range(low + 1, high));
      ShorterFits(p, low + 1, mid, high);
    }
  }

  /** In the contiguous mode the longest fitting run of last messages is kept. */
  lemma {:induction false} LongestSuffix(p: Problem, i: nat, n: nat) returns (start: nat)
    requires p.contiguous && i <= n && (i == n || Fit(p, Range(i, n)))
    ensures start <= i && Kept(p, i, Range(i, n)) == Range(start, n)
    ensures start == n || Fit(p, Range(start, n))
    ensures forall j: nat | j < start :: !Fit(p, Range(j, n))
  {
    if i == 0 {
      start := 0;
    } else {
      assert [i - 1] + Range(i, n) == Range(i - 1, n);
      if Fit(p, Range(i - 1, n)) {
        start := LongestSuffix(p, i - 1, n);
      } else {
        start := i;
        forall j: nat | j < start ensures !Fit(p, Range(j, n)) {
          if Fit(p, Range(j, n)) { ShorterFits(p, j, i - 1, n); }
        }
      }
    }
  }

  // --- from weights back to messages --------------------------------------------------

  function WeightsOf(json: Candidate -> seq<byte>, candidates: seq<Candidate>): (w: seq<nat>)
    ensures |w| == |candidates| && forall i | 0 <= i < |w| :: w[i] == |json(candidates[i])|
  {
    seq<nat>(|candidates|, i requires 0 <= i < |candidates| => |json(candidates[i])|)
  }

  function ProblemOf(members: seq<byte>, json: Candidate -> seq<byte>, budget: int, mode: Mode,
                     candidates: seq<Candidate>): Problem {
    Problem(WeightsOf(json, candidates), |MESSAGES| + |BETWEEN| + |members| + |CLOSE|, budget, mode.CurrentReduction?)
  }

  function Pick(candidates: seq<Candidate>, kept: seq<nat>): (picked: seq<Candidate>)
    requires Ascending(kept, 0, |candidates|)
    ensures |picked| == |kept|
    decreases |kept|
  {
    if kept == [] then []
    else
      AscendingWeaker(kept[1..], kept[0] + 1, 0, |candidates|);
      [candidates[kept[0]]] + Pick(candidates, kept[1..])
  }

  lemma {:induction false} ItemsCost(p: Problem, json: Candidate -> seq<byte>, candidates: seq<Candidate>,
                                     kept: seq<nat>)
    requires p.weights == WeightsOf(json, candidates) && Ascending(kept, 0, |candidates|)
    ensures |Items(json, Pick(candidates, kept))| == Cost(p, kept)
    decreases |kept|
  {
    if kept != [] {
      AscendingWeaker(kept[1..], kept[0] + 1, 0, |candidates|);
      ItemsCost(p, json, candidates, kept[1..]);
      assert Pick(candidates, kept)[1..] == Pick(candidates, kept[1..]);
    }
  }

  /** Fitting by weight is fitting by the octets of the payload. */
  lemma {:induction false} FitIs(members: seq<byte>, json: Candidate -> seq<byte>, budget: int, mode: Mode,
                                 candidates: seq<Candidate>, kept: seq<nat>)
    requires Ascending(kept, 0, |candidates|)
    ensures Fit(ProblemOf(members, json, budget, mode, candidates), kept) <==>
              Tokens(Payload(members, json, Pick(candidates, kept))) <= budget
  {
    ItemsCost(ProblemOf(members, json, budget, mode, candidates), json, candidates, kept);
  }

  // --- the messages offered for selection -------------------------------------------------

  function Mask(id: string): string { "[Observation available from original source " + id + "]" }

  predicate LaterTool(messages: seq<Message>, i: nat) {
    exists k :: i < k < |messages| && messages[k].role == "tool"
  }

  /** All observations but the last one are replaced by a pointer to their source. */
  function Masked(messages: seq<Message>): (masked: seq<Message>)
    ensures |masked| == |messages|
  {
    seq(|messages|, i requires 0 <= i < |messages| =>
      if messages[i].role == "tool" && LaterTool(messages, i)
      then messages[i].(content := Mask(messages[i].id)) else messages[i])
  }

  function Own(messages: seq<Message>, n: nat): seq<Message>
    requires n <= |messages|
  {
    if n == 0 then [] else Own(messages, n - 1) + if messages[n - 1].own then [messages[n - 1]] else []
  }

  /** `content[-n:]` */
  function LastChars(content: string, n: nat): (last: string)
    ensures |last| == if |content| < n then |content| else n
    ensures last == content[|content| - |last|..]
  {
    if |content| > n then content[|content| - n..] else content
  }

  function CandidateOf(mode: Mode, m: Message): Candidate {
    Candidate(m.id, m.role, if mode.CurrentReduction? then LastChars(m.content, 8000) else m.content)
  }

  function Offered(mode: Mode, messages: seq<Message>): seq<Message> {
    if mode.ObservationMasking? then Masked(Own(messages, |messages|)) else Own(messages, |messages|)
  }

  // The positions of the project's own messages among the first `n`.
  function OwnAt(messages: seq<Message>, n: nat): (at: seq<nat>)
    requires n <= |messages|
    ensures forall i | 0 <= i < |at| :: at[i] < n && messages[at[i]].own
    ensures forall i, j | 0 <= i < j < |at| :: at[i] < at[j]
    ensures forall k: nat | k < n && messages[k].own :: k in at
  {
    if n == 0 then [] else OwnAt(messages, n - 1) + if messages[n - 1].own then [n - 1] else []
  }

  /** The project's own messages are kept, all of them and in their order. */
  lemma {:induction false} OwnExact(messages: seq<Message>, n: nat)
    requires n <= |messages|
    ensures |Own(messages, n)| == |OwnAt(messages, n)|
    ensures forall i | 0 <= i < |Own(messages, n)| :: Own(messages, n)[i] == messages[OwnAt(messages, n)[i]]
  {
    if n > 0 { OwnExact(messages, n - 1); }
  }

  function Candidates(mode: Mode, messages: seq<Message>): (candidates: seq<Candidate>)
    ensures |candidates| == |messages|
    ensures forall i | 0 <= i < |messages| :: candidates[i] == CandidateOf(mode, messages[i])
  {
    seq(|messages|, i requires 0 <= i < |messages| => CandidateOf(mode, messages[i]))
  }

  // --- the operation -----------------------------------------------------------------------

  datatype Projection =
    | Overflow(payload: seq<byte>)
    | Dispatch(payload: seq<byte>, messages: seq<Candidate>)

  // The kept positions among the offered messages.
  function Selection(f: Fixture, messages: seq<Message>, budget: int, mode: Mode): (kept: seq<nat>)
    ensures Ascending(kept, 0, |Offered(mode, messages)|)
  {
    var candidates := Candidates(mode, Offered(mode, messages));
    var p := ProblemOf(f.members(mode), f.json, budget, mode, candidates);
    KeptAscends(p, |candidates|, [], |candidates|);
    Kept(p, |candidates|, [])
  }

  /** Protected state that does not fit is sent alone and marked; else messages are selected. */
  function Projected(f: Fixture, messages: seq<Message>, budget: int, mode: Mode): Projection {
    if Tokens(Protected(f.members(mode))) > budget then Overflow(Protected(f.members(mode)))
    else
      var kept := Selection(f, messages, budget, mode);
      var selected := Pick(Candidates(mode, Offered(mode, messages)), kept);
      Dispatch(Payload(f.members(mode), f.json, selected), selected)
  }

  method OwnMessages(messages: seq<Message>) returns (own: seq<Message>)
    ensures own == Own(messages, |messages|)
  {
    own := [];
    for i := 0 to |messages|
      invariant own == Own(messages, i)
    {
      if messages[i].own { own := own + [messages[i]]; }
    }
  }

  method MaskObservations(messages: seq<Message>) returns (masked: seq<Message>)
    ensures masked == Masked(messages)
  {
    var last := |messages|;
    while last > 0 && messages[last - 1].role != "tool"
      invariant 0 <= last <= |messages|
      invariant forall k | last <= k < |messages| :: messages[k].role != "tool"
    {
      last := last - 1;
    }
    masked := messages;
    for i := 0 to last
      invariant |masked| == |messages|
      invariant forall k | 0 <= k < |messages| ::
        masked[k] == if k < i && k < last - 1 && messages[k].role == "tool"
                     then messages[k].(content := Mask(messages[k].id)) else messages[k]
    {
      if messages[i].role == "tool" && i < last - 1 {
        var pointer := "[Observation available from original source " + messages[i].id + "]";
        masked := masked[i := messages[i].(content := pointer)];
      }
    }
  }

  /** The loop over the reversed messages. */
  method SelectMessages(members: seq<byte>, json: Candidate -> seq<byte>, budget: int, mode: Mode,
                        messages: seq<Message>)
    returns (selected: seq<Candidate>)
    ensures
      var candidates := Candidates(mode, messages);
      var kept := Kept(ProblemOf(members, json, budget, mode, candidates), |candidates|, []);
      Ascending(kept, 0, |candidates|) && selected == Pick(candidates, kept)
  {
    ghost var candidates := Candidates(mode, messages);
    ghost var p := ProblemOf(members, json, budget, mode, candidates);
    ghost var kept: seq<nat> := [];
    selected := [];
    KeptAscends(p, |candidates|, [], |candidates|);
    var i := |messages|;
    while i > 0
      invariant 0 <= i <= |messages| && Chosen(candidates, i, kept, selected)
      invariant Kept(p, |candidates|, []) == Kept(p, i, kept)
    {
      var message := messages[i - 1];
      var content := message.content;
      if mode.CurrentReduction? && |content| > 8000 {
        content := content[|content| - 8000..];
      }
      var candidate := Candidate(message.id, message.role, content);
      ChosenNext(candidates, i, kept, selected);
      FitIs(members, json, budget, mode, candidates, [i - 1] + kept);
      if Tokens(Payload(members, json, [candidate] + selected)) <= budget {
        selected := [candidate] + selected;
        kept := [i - 1] + kept;
      } else if mode.CurrentReduction? {
        break;
      }
      i := i - 1;
    }
  }

  // From message `i` on, these positions were chosen, and these messages stand there.
  ghost predicate Chosen(candidates: seq<Candidate>, i: nat, kept: seq<nat>, selected: seq<Candidate>) {
    && Ascending(kept, i, |candidates|) && Ascending(kept, 0, |candidates|)
    && selected == Pick(candidates, kept)
  }

  lemma {:induction false} ChosenNext(candidates: seq<Candidate>, i: nat, kept: seq<nat>, selected: seq<Candidate>)
    requires 0 < i <= |candidates| && Chosen(candidates, i, kept, selected)
    ensures Chosen(candidates, i - 1, kept, selected)
    ensures Chosen(candidates, i - 1, [i - 1] + kept, [candidates[i - 1]] + selected)
  {
    var more := [i - 1] + kept;
    assert more[1..] == kept;
    AscendingWeaker(kept, i, i - 1, |candidates|);
    AscendingWeaker(more, i - 1, 0, |candidates|);
  }

  method Project(f: Fixture, messages: seq<Message>, budget: int, mode: Mode) returns (r: Projection)
    ensures r == Projected(f, messages, budget, mode)
  {
    var own := OwnMessages(messages);
    if mode.ObservationMasking? {
      own := MaskObservations(own);
    }
    if Tokens(Protected(f.members(mode))) > budget {
      return Overflow(Protected(f.members(mode)));
    }
    var selected := SelectMessages(f.members(mode), f.json, budget, mode, own);
    return Dispatch(Payload(f.members(mode), f.json, selected), selected);
  }

  // --- what the operation promises ---------------------------------------------------------

  /**
   What is dispatched exceeds the budget exactly when the protected state fits and the
   payload with an empty message list, which is never measured, does not.  It then holds
   no message and is at most four tokens over.
   */
  lemma {:induction false} WithinBudget(f: Fixture, messages: seq<Message>, budget: int, mode: Mode)
    ensures
      var r := Projected(f, messages, budget, mode);
      && (r.Dispatch? && Tokens(r.payload) > budget <==>
            Tokens(Protected(f.members(mode))) <= budget < Tokens(Payload(f.members(mode), f.json, [])))
      && (r.Dispatch? && Tokens(r.payload) > budget ==> r.messages == [])
      && (r.Dispatch? ==> Tokens(r.payload) <= budget + 4)
  {
    var candidates := Candidates(mode, Offered(mode, messages));
    var p := ProblemOf(f.members(mode), f.json, budget, mode, candidates);
    KeptFits(p, |candidates|, []);
    FitIs(f.members(mode), f.json, budget, mode, candidates, Selection(f, messages, budget, mode));
  }

  /**
   A conversation without messages, beside the smallest protected state with an
   objective: ten tokens fit the budget of ten, and fourteen are dispatched.
   */
  lemma {:induction false} EmptyListExceeds(f: Fixture)
    requires f.members(CurrentReduction) == Encode("\"objective\":\"x\",\"verified_results\":[]")
    ensures
      var r := Projected(f, [], 10, CurrentReduction);
      r.Dispatch? && r.messages == [] && Tokens(r.payload) == 14
  {
    WithinBudget(f, [], 10, CurrentReduction);
  }

  lemma {:induction false} RangeAscends(low: nat, high: nat)
    requires low <= high
    ensures Ascending(Range(low, high), low, high) && Ascending(Range(low, high), 0, high)
    decreases high - low
  {
    if low < high {
      RangeAscends(low + 1, high);
      assert Range(low, high)[1..] == Range(low + 1, high);
    }
    AscendingWeaker(Range(low, high), low, 0, high);
  }

  lemma {:induction false} PickRange(candidates: seq<Candidate>, low: nat)
    requires low <= |candidates|
    ensures Ascending(Range(low, |candidates|), 0, |candidates|)
    ensures Pick(candidates, Range(low, |candidates|)) == candidates[low..]
    decreases |candidates| - low
  {
    RangeAscends(low, |candidates|);
    if low < |candidates| {
      PickRange(candidates, low + 1);
      assert Range(low, |candidates|)[1..] == Range(low + 1, |candidates|);
      assert candidates[low..] == [candidates[low]] + candidates[low + 1..];
    }
  }

  /** `current_reduction` keeps the longest run of last messages that fits. */
  lemma {:induction false} RecentWindow(f: Fixture, messages: seq<Message>, budget: int) returns (start: nat)
    ensures
      var candidates := Candidates(CurrentReduction, Offered(CurrentReduction, messages));
      && start <= |candidates|
      && Pick(candidates, Selection(f, messages, budget, CurrentReduction)) == candidates[start..]
      && (start < |candidates| ==> Tokens(Payload(f.members(CurrentReduction), f.json, candidates[start..])) <= budget)
      && forall j: nat | j < start :: Tokens(Payload(f.members(CurrentReduction), f.json, candidates[j..])) > budget
  {
    var members, mode := f.members(CurrentReduction), CurrentReduction;
    var candidates := Candidates(mode, Offered(mode, messages));
    var n := |candidates|;
    var p := ProblemOf(members, f.json, budget, mode, candidates);
    assert Range(n, n) == [];
    start := LongestSuffix(p, n, n);
    PickRange(candidates, start);
    FitIs(members, f.json, budget, mode, candidates, Range(start, n));
    forall j: nat | j < start ensures Tokens(Payload(members, f.json, candidates[j..])) > budget {
      PickRange(candidates, j);
      FitIs(members, f.json, budget, mode, candidates, Range(j, n));
    }
  }

  lemma {:induction false} InsertBehind(first: nat, rest: seq<nat>, s: nat, j: nat)
    requires s <= |rest|
    ensures
      var kept := [first] + rest;
      var inserted := kept[..s + 1] + ([j] + kept[s + 1..]);
      inserted[0] == first && inserted[1..] == rest[..s] + ([j] + rest[s..])
  {
  }

  lemma {:induction false} InsertAscends(kept: seq<nat>, low: nat, high: nat, s: nat, j: nat)
    requires Ascending(kept, low, high) && Separates(kept, s, j) && low <= j < high
    ensures Ascending(kept[..s] + ([j] + kept[s..]), low, high)
    decreases |kept|
  {
    var inserted := kept[..s] + ([j] + kept[s..]);
    if s == 0 {
      assert inserted == [j] + kept;
      assert inserted[1..] == kept;
      AscendingFrom(kept, low, j + 1, high);
    } else {
      assert kept == [kept[0]] + kept[1..];
      InsertBehind(kept[0], kept[1..], s - 1, j);
      InsertAscends(kept[1..], kept[0] + 1, high, s - 1, j);
    }
  }

  lemma {:induction false} AscendingFrom(kept: seq<nat>, low: nat, higher: nat, high: nat)
    requires Ascending(kept, low, high) && (forall m | 0 <= m < |kept| :: kept[m] >= higher)
    ensures Ascending(kept, higher, high)
  {
  }

  /** In the other modes, adding any omitted message in its place exceeds the budget. */
  lemma {:induction false} NoRoomLeft(f: Fixture, messages: seq<Message>, budget: int, mode: Mode, j: nat, s: nat)
    requires !mode.CurrentReduction? && j < |Offered(mode, messages)|
    requires Separates(Selection(f, messages, budget, mode), s, j)
    ensures
      var candidates := Candidates(mode, Offered(mode, messages));
      var kept := Selection(f, messages, budget, mode);
      var more := kept[..s] + ([j] + kept[s..]);
      && Ascending(more, 0, |candidates|)
      && Tokens(Payload(f.members(mode), f.json, Pick(candidates, more))) > budget
  {
    var candidates := Candidates(mode, Offered(mode, messages));
    var p := ProblemOf(f.members(mode), f.json, budget, mode, candidates);
    var kept := Selection(f, messages, budget, mode);
    Maximal(p, j, s);
    InsertAscends(kept, 0, |candidates|, s, j);
    FitIs(f.members(mode), f.json, budget, mode, candidates, kept[..s] + ([j] + kept[s..]));
  }

  /** An omitted message has its place: it always lies between two kept ones, or at an end. */
  lemma {:induction false} PlaceOf(kept: seq<nat>, low: nat, high: nat, j: nat) returns (s: nat)
    requires Ascending(kept, low, high) && j !in kept
    ensures Separates(kept, s, j)
    decreases |kept|
  {
    if kept == [] || kept[0] > j {
      s := 0;
      if kept != [] { AllLater(kept[1..], kept[0] + 1, high); }
    } else {
      var rest := PlaceOf(kept[1..], kept[0] + 1, high, j);
      s := rest + 1;
      forall m | 0 <= m < |kept| ensures if m < s then kept[m] < j else kept[m] > j {
        if m > 0 { assert kept[m] == kept[1..][m - 1]; }
      }
    }
  }

  lemma {:induction false} AllLater(kept: seq<nat>, low: nat, high: nat)
    requires Ascending(kept, low, high)
    ensures forall m | 0 <= m < |kept| :: kept[m] >= low
    decreases |kept|
  {
    if kept != [] { AllLater(kept[1..], kept[0] + 1, high); }
  }
}
